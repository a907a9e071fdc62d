/**
 Vote aggregation for one (year, party, ballot name) triple: the rows of the
 triple ordered by neighbourhood, folded into a neighbourhood -> votes
 dictionary and a running total, and the candidate summary built from the
 first row (`get_complete_candidate_data`, views.py lines 73-94).
 */
module Aggregation {
  import opened Wrappers
  import opened Order
  import opened Records

  /** What a row adds to neighbourhood `b`: its coerced votes if it lies in `b`, else nothing. */
  function Contribution(rec: Record, b: string): int {
    if rec.neighbourhood == b then Coerce(rec.votes) else 0
  }

  /** The coerced votes of all rows. */
  function TotalVotes(rows: seq<Record>): int {
    if rows == [] then 0 else Coerce(rows[0].votes) + TotalVotes(rows[1..])
  }

  /** The coerced votes of the rows of neighbourhood `b`, every row counted. */
  function VotesIn(rows: seq<Record>, b: string): int {
    if rows == [] then 0 else Contribution(rows[0], b) + VotesIn(rows[1..], b)
  }

  /** The neighbourhoods the rows mention. */
  function Neighbourhoods(rows: seq<Record>): set<string> {
    set rec | rec in rows :: rec.neighbourhood
  }

  /** The reference dictionary: each mentioned neighbourhood with the sum of its rows' votes. */
  function VotesByNeighbourhood(rows: seq<Record>): map<string, int> {
    map b | b in Neighbourhoods(rows) :: VotesIn(rows, b)
  }

  lemma {:induction false} TotalAppend(a: seq<Record>, c: seq<Record>)
    ensures TotalVotes(a + c) == TotalVotes(a) + TotalVotes(c)
  {
    if a != [] {
      assert (a + c)[1..] == a[1..] + c;
      TotalAppend(a[1..], c);
    } else {
      assert a + c == c;
    }
  }

  lemma {:induction false} VotesInAppend(a: seq<Record>, c: seq<Record>, b: string)
    ensures VotesIn(a + c, b) == VotesIn(a, b) + VotesIn(c, b)
  {
    if a != [] {
      assert (a + c)[1..] == a[1..] + c;
      VotesInAppend(a[1..], c, b);
    } else {
      assert a + c == c;
    }
  }

  /** A neighbourhood no row mentions receives no votes. */
  lemma {:induction false} VotesInAbsent(rows: seq<Record>, b: string)
    requires b !in Neighbourhoods(rows)
    ensures VotesIn(rows, b) == 0
  {
    if rows != [] {
      assert rows[0] in rows;
      assert Neighbourhoods(rows[1..]) <= Neighbourhoods(rows) by {
        forall n | n in Neighbourhoods(rows[1..]) ensures n in Neighbourhoods(rows) {
          var rec :| rec in rows[1..] && rec.neighbourhood == n;
          assert rec in rows;
        }
      }
      VotesInAbsent(rows[1..], b);
    }
  }

  /**
   One more row updates the dictionary exactly as `votos_dict[b] = votos_dict.get(b, 0) + v`
   does (views.py line 85): the row's neighbourhood gains its votes, nothing else changes.
   */
  lemma VotesByNeighbourhoodSnoc(rows: seq<Record>, rec: Record)
    ensures var m := VotesByNeighbourhood(rows);
      VotesByNeighbourhood(rows + [rec])
        == m[rec.neighbourhood := (if rec.neighbourhood in m then m[rec.neighbourhood] else 0) + Coerce(rec.votes)]
  {
    var m := VotesByNeighbourhood(rows);
    var b := rec.neighbourhood;
    assert Neighbourhoods(rows + [rec]) == Neighbourhoods(rows) + {b} by {
      forall n | n in Neighbourhoods(rows + [rec]) ensures n in Neighbourhoods(rows) + {b} {
        var r :| r in rows + [rec] && r.neighbourhood == n;
        if r != rec {
          assert r in rows;
        }
      }
      forall n | n in Neighbourhoods(rows) ensures n in Neighbourhoods(rows + [rec]) {
        var r :| r in rows && r.neighbourhood == n;
        assert r in rows + [rec];
      }
      assert rec in rows + [rec];
    }
    forall n | n in Neighbourhoods(rows + [rec])
      ensures VotesIn(rows + [rec], n) == VotesIn(rows, n) + Contribution(rec, n)
    {
      VotesInAppend(rows, [rec], n);
    }
    if b !in m {
      VotesInAbsent(rows, b);
    }
  }

  /**
   A row whose vote value is not a number adds nothing to the total, but its
   neighbourhood still becomes a key of the dictionary, with 0 if it was new
   (`votos_dict.get(b, 0) + 0`, views.py lines 84-85).
   */
  lemma NonNumericRowAddsKeyOnly(rows: seq<Record>, rec: Record)
    requires rec.votes.NonNumeric?
    ensures TotalVotes(rows + [rec]) == TotalVotes(rows)
    ensures var m := VotesByNeighbourhood(rows);
      VotesByNeighbourhood(rows + [rec])
        == m[rec.neighbourhood := if rec.neighbourhood in m then m[rec.neighbourhood] else 0]
  {
    VotesByNeighbourhoodSnoc(rows, rec);
    TotalAppend(rows, [rec]);
  }

  /** An arbitrary key of a non-empty dictionary. */
  ghost function PickKey(m: map<string, int>): (k: string)
    requires m != map[]
    ensures k in m
  {
    assert m.Keys != {};
    var k :| k in m; k
  }

  /** `sum(m.values())`. */
  ghost function SumValues(m: map<string, int>): int
    decreases |m|
  {
    if m == map[] then 0
    else
      var k := PickKey(m);
      assert (m - {k}).Keys == m.Keys - {k};
      m[k] + SumValues(m - {k})
  }

  /** The sum does not depend on which key is taken out first. */
  lemma {:induction false} SumValuesRemove(m: map<string, int>, k: string)
    requires k in m
    ensures SumValues(m) == m[k] + SumValues(m - {k})
    decreases |m|
  {
    var j := PickKey(m);
    if j != k {
      assert (m - {j}).Keys == m.Keys - {j};
      assert (m - {k}).Keys == m.Keys - {k};
      SumValuesRemove(m - {j}, k);
      SumValuesRemove(m - {k}, j);
      assert m - {j} - {k} == m - {k} - {j};
    }
  }

  /** Setting one entry changes the sum by the difference. */
  lemma SumValuesUpdate(m: map<string, int>, k: string, x: int)
    ensures SumValues(m[k := x]) == SumValues(m) - (if k in m then m[k] else 0) + x
  {
    SumValuesRemove(m[k := x], k);
    assert m[k := x] - {k} == m - {k};
    if k in m {
      SumValuesRemove(m, k);
    } else {
      assert m - {k} == m;
    }
  }

  /**
   The aggregation law: the neighbourhood totals add up to the grand total
   (`total` and `info['votos_total']` equal `sum(votos_dict.values())`, views.py lines 81-92).
   */
  lemma {:induction false} SumOfNeighbourhoodsIsTotal(rows: seq<Record>)
    ensures SumValues(VotesByNeighbourhood(rows)) == TotalVotes(rows)
    decreases |rows|
  {
    if rows == [] {
      assert VotesByNeighbourhood(rows) == map[];
    } else {
      var init, last := rows[..|rows| - 1], rows[|rows| - 1];
      assert rows == init + [last];
      SumOfNeighbourhoodsIsTotal(init);
      SnocAddsToBoth(init, last);
    }
  }

  /** One more row adds its coerced votes both to the sum of the dictionary and to the total. */
  lemma SnocAddsToBoth(rows: seq<Record>, rec: Record)
    ensures SumValues(VotesByNeighbourhood(rows + [rec])) == SumValues(VotesByNeighbourhood(rows)) + Coerce(rec.votes)
    ensures TotalVotes(rows + [rec]) == TotalVotes(rows) + Coerce(rec.votes)
  {
    VotesByNeighbourhoodSnoc(rows, rec);
    SumValuesAdd(VotesByNeighbourhood(rows), rec.neighbourhood, Coerce(rec.votes));
    TotalAppend(rows, [rec]);
  }

  /** Adding `x` to one entry, new or not, adds `x` to the sum. */
  lemma SumValuesAdd(m: map<string, int>, b: string, x: int)
    ensures SumValues(m[b := (if b in m then m[b] else 0) + x]) == SumValues(m) + x
  {
    SumValuesUpdate(m, b, (if b in m then m[b] else 0) + x);
  }

  /**
   The loop of views.py lines 81-86: walks the rows once, adding each row's
   coerced votes to its neighbourhood's entry and to the running total.
   */
  method FoldVotes(rows: seq<Record>) returns (votes: map<string, int>, total: int)
    ensures votes == VotesByNeighbourhood(rows)
    ensures total == TotalVotes(rows) == SumValues(votes)
  {
    votes, total := map[], 0;
    var i := 0;
    while i < |rows|
      invariant 0 <= i <= |rows|
      invariant votes == VotesByNeighbourhood(rows[..i])
      invariant total == TotalVotes(rows[..i])
    {
      var b := rows[i].neighbourhood;
      var v := Coerce(rows[i].votes);
      FoldStep(rows, i);
      votes := votes[b := (if b in votes then votes[b] else 0) + v];
      total := total + v;
      i := i + 1;
    }
    assert rows[..i] == rows;
    SumOfNeighbourhoodsIsTotal(rows);
  }

  /** One iteration of the loop in `FoldVotes`, on the reference definitions. */
  lemma FoldStep(rows: seq<Record>, i: nat)
    requires i < |rows|
    ensures var m, b := VotesByNeighbourhood(rows[..i]), rows[i].neighbourhood;
      VotesByNeighbourhood(rows[..i + 1]) == m[b := (if b in m then m[b] else 0) + Coerce(rows[i].votes)]
    ensures TotalVotes(rows[..i + 1]) == TotalVotes(rows[..i]) + Coerce(rows[i].votes)
  {
    assert rows[..i + 1] == rows[..i] + [rows[i]];
    VotesByNeighbourhoodSnoc(rows[..i], rows[i]);
    SnocAddsToBoth(rows[..i], rows[i]);
  }

  /** Sorted by neighbourhood, ties allowed. */
  ghost predicate ByNeighbourhood(rows: seq<Record>) {
    forall i, j :: 0 <= i < j < |rows| ==> !Less(rows[j].neighbourhood, rows[i].neighbourhood)
  }

  /** Puts `x` before the first row whose neighbourhood is not before its own. */
  function InsertByNeighbourhood(x: Record, s: seq<Record>): (r: seq<Record>)
    ensures multiset(r) == multiset(s) + multiset{x}
  {
    if s == [] || !Less(s[0].neighbourhood, x.neighbourhood) then [x] + s
    else
      assert s == [s[0]] + s[1..];
      [s[0]] + InsertByNeighbourhood(x, s[1..])
  }

  /** No row of `s` lies in a neighbourhood before `b`. */
  ghost predicate NoneBefore(b: string, s: seq<Record>) {
    forall j :: 0 <= j < |s| ==> !Less(s[j].neighbourhood, b)
  }

  lemma {:induction false} InsertKeepsOrder(x: Record, s: seq<Record>)
    requires ByNeighbourhood(s)
    ensures ByNeighbourhood(InsertByNeighbourhood(x, s))
  {
    if s == [] || !Less(s[0].neighbourhood, x.neighbourhood) {
      forall j | 1 < j < |s| + 1 ensures !Less(([x] + s)[j].neighbourhood, x.neighbourhood) {
        NotLessTransitive(x.neighbourhood, s[0].neighbourhood, s[j - 1].neighbourhood);
      }
    } else {
      var rest := InsertByNeighbourhood(x, s[1..]);
      InsertKeepsOrder(x, s[1..]);
      LessAsymmetric(s[0].neighbourhood, x.neighbourhood);
      assert NoneBefore(s[0].neighbourhood, rest) by {
        forall j | 0 <= j < |rest| ensures !Less(rest[j].neighbourhood, s[0].neighbourhood) {
          var y := rest[j];
          assert y in multiset(rest);
          if y != x {
            assert y in multiset(s[1..]);
            var k :| 0 <= k < |s[1..]| && s[1..][k] == y;
            assert s[k + 1] == y;
          }
        }
      }
    }
  }

  /**
   `order_by('nm_bairro')`: a stable insertion sort by neighbourhood. The
   result holds the same rows and is ordered by neighbourhood.
   */
  function SortByNeighbourhood(rows: seq<Record>): (r: seq<Record>)
    ensures multiset(r) == multiset(rows)
    ensures ByNeighbourhood(r)
  {
    if rows == [] then []
    else
      assert rows == [rows[0]] + rows[1..];
      var rest := SortByNeighbourhood(rows[1..]);
      InsertKeepsOrder(rows[0], rest);
      InsertByNeighbourhood(rows[0], rest)
  }

  lemma {:induction false} InsertKeepsSums(x: Record, s: seq<Record>, b: string)
    ensures VotesIn(InsertByNeighbourhood(x, s), b) == Contribution(x, b) + VotesIn(s, b)
    ensures TotalVotes(InsertByNeighbourhood(x, s)) == Coerce(x.votes) + TotalVotes(s)
  {
    if s != [] && Less(s[0].neighbourhood, x.neighbourhood) {
      InsertKeepsSums(x, s[1..], b);
    }
  }

  /** Ordering the rows changes neither a neighbourhood's sum nor the total. */
  lemma {:induction false} SortKeepsSums(rows: seq<Record>, b: string)
    ensures VotesIn(SortByNeighbourhood(rows), b) == VotesIn(rows, b)
    ensures TotalVotes(SortByNeighbourhood(rows)) == TotalVotes(rows)
  {
    if rows != [] {
      SortKeepsSums(rows[1..], b);
      InsertKeepsSums(rows[0], SortByNeighbourhood(rows[1..]), b);
    }
  }

  /** `info`: the first row's ballot name and office, the requested year, the total. */
  datatype CandidateInfo = CandidateInfo(name: string, office: string, year: string, totalVotes: int)

  /** `{'votos_dict': ..., 'total_votos': ..., 'candidato_info': ...}`. */
  datatype CandidateData = CandidateData(votes: map<string, int>, total: int, info: CandidateInfo)

  /**
   What `get_complete_candidate_data` computes on a cache miss (views.py lines 73-94):
   nothing when no row matches, otherwise the aggregate of the matching rows
   taken in neighbourhood order.
   */
  function ComputeCandidateData(db: seq<Record>, candidato: string, partido: string, ano: string)
    : (d: Option<CandidateData>)
    ensures d.None? <==> Matching(db, ano, partido, candidato) == []
    ensures d.Some? ==> d.value.info.name == candidato && d.value.info.year == ano
    ensures d.Some? ==> d.value.total == d.value.info.totalVotes
  {
    var m := Matching(db, ano, partido, candidato);
    var rows := SortByNeighbourhood(m);
    if rows == [] then
      assert multiset(m) == multiset{};
      None
    else
      assert rows[0] in multiset(m);
      var total := TotalVotes(rows);
      Some(CandidateData(VotesByNeighbourhood(rows), total,
        CandidateInfo(rows[0].ballotName, rows[0].office, ano, total)))
  }

  /** No data exactly when no row matches the triple (views.py lines 78-79). */
  lemma NoDataIffNoRows(db: seq<Record>, candidato: string, partido: string, ano: string)
    ensures ComputeCandidateData(db, candidato, partido, ano).None?
      <==> forall rec :: rec in db ==> !(rec.year == ano && rec.party == partido && rec.ballotName == candidato)
  {
    var m := Matching(db, ano, partido, candidato);
    var rows := SortByNeighbourhood(m);
    assert multiset(rows) == multiset(m);
    if m != [] {
      assert m[0] in m;
      assert m[0] in multiset(rows);
    } else {
      assert forall rec :: rec !in m;
    }
  }

  /** Sorting, then folding, gives every neighbourhood the sum of its rows, and the total of all rows. */
  lemma SortedAggregate(m: seq<Record>)
    ensures var rows := SortByNeighbourhood(m);
      && VotesByNeighbourhood(rows).Keys == Neighbourhoods(m)
      && (forall b :: b in VotesByNeighbourhood(rows) ==> VotesByNeighbourhood(rows)[b] == VotesIn(m, b))
      && TotalVotes(rows) == TotalVotes(m)
      && SumValues(VotesByNeighbourhood(rows)) == TotalVotes(m)
  {
    var rows := SortByNeighbourhood(m);
    PermutationKeepsNeighbourhoods(m, rows);
    forall b | b in Neighbourhoods(m) ensures VotesIn(rows, b) == VotesIn(m, b) {
      SortKeepsSums(m, b);
    }
    SortKeepsSums(m, "");
    SumOfNeighbourhoodsIsTotal(rows);
  }

  /**
   The totals agree: `total_votos` and `info['votos_total']` both equal the sum
   of the dictionary's values and the coerced votes of every matching row.
   */
  lemma TotalsAgree(db: seq<Record>, candidato: string, partido: string, ano: string)
    requires ComputeCandidateData(db, candidato, partido, ano).Some?
    ensures var d := ComputeCandidateData(db, candidato, partido, ano).value;
      && d.total == d.info.totalVotes
      && d.total == SumValues(d.votes)
      && d.total == TotalVotes(Matching(db, ano, partido, candidato))
  {
    SortedAggregate(Matching(db, ano, partido, candidato));
  }

  /** Reordering rows keeps the set of neighbourhoods they mention. */
  lemma PermutationKeepsNeighbourhoods(m: seq<Record>, rows: seq<Record>)
    requires multiset(rows) == multiset(m)
    ensures Neighbourhoods(rows) == Neighbourhoods(m)
  {
    forall n | n in Neighbourhoods(rows) ensures n in Neighbourhoods(m) {
      var r :| r in rows && r.neighbourhood == n;
      assert r in multiset(rows);
    }
    forall n | n in Neighbourhoods(m) ensures n in Neighbourhoods(rows) {
      var r :| r in m && r.neighbourhood == n;
      assert r in multiset(m);
    }
  }

  /**
   The dictionary's keys are exactly the neighbourhoods of the matching rows,
   and each value is the sum over all of that neighbourhood's rows, so rows
   sharing a neighbourhood are added, not overwritten (views.py lines 81-85).
   */
  lemma PerNeighbourhood(db: seq<Record>, candidato: string, partido: string, ano: string)
    requires ComputeCandidateData(db, candidato, partido, ano).Some?
    ensures var d := ComputeCandidateData(db, candidato, partido, ano).value;
      var m := Matching(db, ano, partido, candidato);
      && d.votes.Keys == Neighbourhoods(m)
      && forall b :: b in d.votes ==> d.votes[b] == VotesIn(m, b)
  {
    SortedAggregate(Matching(db, ano, partido, candidato));
  }

  /**
   The head of rows ordered by neighbourhood, taken from `m`, is a row of `m`
   whose neighbourhood no row of `m` comes before.
   */
  lemma FirstOfOrderedIsLeast(m: seq<Record>, rows: seq<Record>)
    requires multiset(rows) == multiset(m) && ByNeighbourhood(rows) && rows != []
    ensures rows[0] in m
    ensures forall rec :: rec in m ==> !Less(rec.neighbourhood, rows[0].neighbourhood)
  {
    var first := rows[0];
    assert first in multiset(m);
    forall rec | rec in m ensures !Less(rec.neighbourhood, first.neighbourhood) {
      assert rec in multiset(rows);
      var j :| 0 <= j < |rows| && rows[j] == rec;
      if j > 0 {
        assert !Less(rows[j].neighbourhood, rows[0].neighbourhood);
      } else {
        LessIrreflexive(first.neighbourhood);
      }
    }
  }

  /**
   The summary names the requested candidate and year, and its office is that
   of a matching row whose neighbourhood comes first (views.py lines 88-93).
   */
  lemma InfoFromFirstRow(db: seq<Record>, candidato: string, partido: string, ano: string)
    requires ComputeCandidateData(db, candidato, partido, ano).Some?
    ensures var info := ComputeCandidateData(db, candidato, partido, ano).value.info;
      var m := Matching(db, ano, partido, candidato);
      && info.name == candidato && info.year == ano
      && (exists first :: first in m && info.office == first.office
            && forall rec :: rec in m ==> !Less(rec.neighbourhood, first.neighbourhood))
  {
    var m := Matching(db, ano, partido, candidato);
    FirstOfOrderedIsLeast(m, SortByNeighbourhood(m));
  }
}
