/**
 The record store `DadoEleitoral` (one row per candidate per polling place) as a
 sequence of rows, and the queries the views run against it: exact-match
 filters, `values_list(..., flat=True)`, and the three dropdown lists.
 */
module Records {
  import opened Wrappers
  import opened Order

  /** A positive integer, a denominator. */
  type Positive = n: int | n > 0 witness 1

  /**
   The value found in `qt_votos`: a whole number (`int`, or a `Decimal` with no
   fractional digits), a fraction `num / den` (a `Decimal` or `float` with a
   fractional part), or anything else (`None`, text).
   */
  datatype VoteValue = Whole(n: int) | Fraction(num: int, den: Positive) | NonNumeric

  /** The quotient of `n` by `d`, rounded down, by repeated subtraction. */
  function Quotient(n: nat, d: Positive): (q: nat)
    ensures q * d <= n < q * d + d
    decreases n
  {
    if n < d then 0 else 1 + Quotient(n - d, d)
  }

  /** Python's `int(x)` on a fraction `a / d`: division truncated toward zero. */
  function TruncDiv(a: int, d: Positive): (r: int)
    ensures a >= 0 ==> 0 <= r * d <= a < r * d + d
    ensures a < 0 ==> r * d - d < a <= r * d <= 0
  {
    if a >= 0 then Quotient(a, d) else -(Quotient(-a, d) as int)
  }

  /** `int(v) if isinstance(v, (Decimal, int, float)) else 0`. */
  function Coerce(v: VoteValue): (r: int)
    ensures v.Whole? ==> r == v.n
    ensures v.NonNumeric? ==> r == 0
  {
    match v
    case Whole(n) => n
    case Fraction(num, den) => TruncDiv(num, den)
    case NonNumeric => 0
  }

  /**
   A fraction is truncated toward zero, to an integer between 0 and its
   numerator (`int(3.5) == 3`, `int(-3.5) == -3`).
   */
  lemma CoerceFraction(v: VoteValue)
    requires v.Fraction?
    ensures Coerce(v) == TruncDiv(v.num, v.den)
    ensures v.num >= 0 ==> 0 <= Coerce(v) <= v.num
    ensures v.num <= 0 ==> v.num <= Coerce(v) <= 0
  {
  }

  /**
   The columns of a row that the views read: `ano_eleicao`, `sg_partido`,
   `nm_urna_candidato`, `ds_cargo`, `nm_bairro`, `qt_votos`.
   */
  datatype Record = Record(
    year: string,
    party: string,
    ballotName: string,
    office: string,
    neighbourhood: string,
    votes: VoteValue)

  /** The text columns the views filter on and list. */
  datatype Column = Year | Party | BallotName

  function Get(rec: Record, col: Column): string {
    match col
    case Year => rec.year
    case Party => rec.party
    case BallotName => rec.ballotName
  }

  /**
   `filter(col=value)`: the rows whose column equals `value`, in store order,
   each kept as often as it occurs (equal rows from different polling places
   are not merged).
   */
  function Filter(db: seq<Record>, col: Column, value: string): (r: seq<Record>)
    ensures |r| <= |db|
    ensures forall rec :: rec in r <==> rec in db && Get(rec, col) == value
    ensures forall rec :: multiset(r)[rec] == if Get(rec, col) == value then multiset(db)[rec] else 0
  {
    if db == [] then []
    else
      assert db == [db[0]] + db[1..];
      if Get(db[0], col) == value then [db[0]] + Filter(db[1..], col, value)
      else Filter(db[1..], col, value)
  }

  /** Filtering on a value every row already has keeps every row. */
  lemma {:induction false} FilterKeepsAll(db: seq<Record>, col: Column, value: string)
    requires forall rec :: rec in db ==> Get(rec, col) == value
    ensures Filter(db, col, value) == db
  {
    if db != [] {
      assert db[0] in db;
      FilterKeepsAll(db[1..], col, value);
    }
  }

  /** `values_list(col, flat=True)`: the column's value of every row. */
  function Values(db: seq<Record>, col: Column): (r: seq<string>)
    ensures |r| == |db|
    ensures forall i :: 0 <= i < |db| ==> r[i] == Get(db[i], col)
  {
    if db == [] then [] else [Get(db[0], col)] + Values(db[1..], col)
  }

  /** A request parameter counts as given when it is present and not empty (Python truthiness). */
  predicate Given(p: Option<string>) {
    p.Some? && p.value != ""
  }

  /** `str(p)`: an absent parameter prints as "None". */
  function Str(p: Option<string>): string {
    match p
    case None => "None"
    case Some(s) => s
  }

  /** Distinct years, most recent first (views.py line 50). */
  function YearsQuery(db: seq<Record>): (r: seq<string>)
    ensures Descending(r)
    ensures forall y :: y in r <==> exists rec :: rec in db && rec.year == y
  {
    var r := SortedDistinctDescending(Values(db, Year));
    assert forall y :: y in Values(db, Year) <==> exists rec :: rec in db && rec.year == y by {
      ValuesMembership(db, Year);
    }
    r
  }

  /** Distinct parties, ascending, restricted to year `ano` only when it is given (views.py lines 54-56). */
  function PartiesQuery(db: seq<Record>, ano: Option<string>): (r: seq<string>)
    ensures Ascending(r)
    ensures forall p :: p in r <==>
      exists rec :: rec in db && rec.party == p && (Given(ano) ==> rec.year == ano.value)
  {
    var q := if Given(ano) then Filter(db, Year, ano.value) else db;
    ValuesMembership(q, Party);
    SortedDistinct(Values(q, Party))
  }

  /**
   Distinct ballot names, ascending, restricted to year `ano` and party `partido`
   each only when given (views.py lines 60-64).
   */
  function CandidatesQuery(db: seq<Record>, partido: Option<string>, ano: Option<string>): (r: seq<string>)
    ensures Ascending(r)
    ensures forall c :: c in r <==>
      exists rec :: rec in db && rec.ballotName == c
        && (Given(ano) ==> rec.year == ano.value)
        && (Given(partido) ==> rec.party == partido.value)
  {
    var byYear := if Given(ano) then Filter(db, Year, ano.value) else db;
    var q := if Given(partido) then Filter(byYear, Party, partido.value) else byYear;
    ValuesMembership(q, BallotName);
    SortedDistinct(Values(q, BallotName))
  }

  lemma ValuesMembership(db: seq<Record>, col: Column)
    ensures forall v :: v in Values(db, col) <==> exists rec :: rec in db && Get(rec, col) == v
  {
    forall v | v in Values(db, col) ensures exists rec :: rec in db && Get(rec, col) == v {
      var i :| 0 <= i < |db| && Values(db, col)[i] == v;
      assert db[i] in db;
    }
    forall v | (exists rec :: rec in db && Get(rec, col) == v) ensures v in Values(db, col) {
      var rec :| rec in db && Get(rec, col) == v;
      var i :| 0 <= i < |db| && db[i] == rec;
      assert Values(db, col)[i] == v;
    }
  }

  /** A year that no row carries has no parties. */
  lemma PartiesOfAbsentYear(db: seq<Record>, y: string)
    requires y != ""
    requires forall rec :: rec in db ==> rec.year != y
    ensures PartiesQuery(db, Some(y)) == []
  {
    var r := PartiesQuery(db, Some(y));
    assert forall p :: p !in r;
    NoMemberIsEmpty(r);
  }

  /** The rows of one (year, party, ballot name) triple, in store order (views.py lines 73-75). */
  function Matching(db: seq<Record>, ano: string, partido: string, candidato: string): (r: seq<Record>)
    ensures forall rec :: rec in r <==>
      rec in db && rec.year == ano && rec.party == partido && rec.ballotName == candidato
    ensures forall rec :: (multiset(r)[rec] ==
      if rec.year == ano && rec.party == partido && rec.ballotName == candidato then multiset(db)[rec] else 0)
  {
    Filter(Filter(Filter(db, Year, ano), Party, partido), BallotName, candidato)
  }

  /** When every row belongs to the triple, the query returns the rows unchanged. */
  lemma MatchingKeepsAll(db: seq<Record>, ano: string, partido: string, candidato: string)
    requires forall rec :: rec in db ==> rec.year == ano && rec.party == partido && rec.ballotName == candidato
    ensures Matching(db, ano, partido, candidato) == db
  {
    FilterKeepsAll(db, Year, ano);
    FilterKeepsAll(db, Party, partido);
    FilterKeepsAll(db, BallotName, candidato);
  }
}
