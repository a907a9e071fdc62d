/**
 The ordering the record store applies to `ORDER BY` on a text column, and the
 `.distinct().order_by(...)` shape of the dropdown queries: a strictly ascending
 sequence holding each distinct value once.

 Text is ordered lexicographically by character code.
 */
module Order {

  /** Lexicographic "strictly before" on strings. */
  predicate Less(a: string, b: string)
    decreases |a|
  {
    if |a| == 0 then |b| > 0
    else |b| > 0 && (a[0] < b[0] || (a[0] == b[0] && Less(a[1..], b[1..])))
  }

  lemma {:induction false} LessIrreflexive(a: string)
    ensures !Less(a, a)
    decreases |a|
  {
    if |a| > 0 {
      LessIrreflexive(a[1..]);
    }
  }

  lemma {:induction false} LessTransitive(a: string, b: string, c: string)
    requires Less(a, b) && Less(b, c)
    ensures Less(a, c)
    decreases |a|
  {
    if |a| > 0 && a[0] == b[0] && b[0] == c[0] {
      LessTransitive(a[1..], b[1..], c[1..]);
    }
  }

  lemma {:induction false} LessTotal(a: string, b: string)
    requires a != b
    ensures Less(a, b) || Less(b, a)
    decreases |a|
  {
    if |a| > 0 && |b| > 0 && a[0] == b[0] {
      assert a == [a[0]] + a[1..] && b == [b[0]] + b[1..];
      LessTotal(a[1..], b[1..]);
    }
  }

  lemma {:induction false} LessAsymmetric(a: string, b: string)
    requires Less(a, b)
    ensures !Less(b, a)
  {
    if Less(b, a) {
      LessTransitive(a, b, a);
      LessIrreflexive(a);
    }
  }

  /** "Not strictly after" (that is, before or equal) is transitive. */
  lemma NotLessTransitive(a: string, b: string, c: string)
    requires !Less(b, a) && !Less(c, b)
    ensures !Less(c, a)
  {
    if Less(c, a) && a != b {
      LessTotal(a, b);
      LessTransitive(c, a, b);
    }
  }

  /** Each element strictly before every later one: sorted and without repeats. */
  ghost predicate Ascending(s: seq<string>) {
    forall i, j :: 0 <= i < j < |s| ==> Less(s[i], s[j])
  }

  /** Each element strictly after every later one. */
  ghost predicate Descending(s: seq<string>) {
    forall i, j :: 0 <= i < j < |s| ==> Less(s[j], s[i])
  }

  /** The head of an ascending sequence is before every other element. */
  lemma FirstIsLeast(s: seq<string>)
    requires Ascending(s) && s != []
    ensures forall y :: y in s && y != s[0] ==> Less(s[0], y)
  {
    forall y | y in s && y != s[0] ensures Less(s[0], y) {
      var j :| 0 <= j < |s| && s[j] == y;
    }
  }

  /** Puts `x` into its place in an ascending sequence, unless it is already there. */
  function Insert(x: string, s: seq<string>): (r: seq<string>)
    requires Ascending(s)
    ensures Ascending(r)
    ensures forall y :: y in r <==> y == x || y in s
  {
    if s == [] then [x]
    else if x == s[0] then s
    else if Less(x, s[0]) then
      LessChain(x, s);
      [x] + s
    else
      LessTotal(x, s[0]);
      var rest := Insert(x, s[1..]);
      assert forall y :: y in rest ==> Less(s[0], y);
      [s[0]] + rest
  }

  /** Helper for Insert: an element before the head of an ascending sequence is before all of it. */
  lemma LessChain(x: string, s: seq<string>)
    requires Ascending(s) && s != [] && Less(x, s[0])
    ensures forall j :: 0 <= j < |s| ==> Less(x, s[j])
  {
    forall j | 0 < j < |s| {
      LessTransitive(x, s[0], s[j]);
    }
  }

  /** The distinct values of `xs`, ascending: `SELECT DISTINCT ... ORDER BY ...`. */
  function SortedDistinct(xs: seq<string>): (r: seq<string>)
    ensures Ascending(r)
    ensures forall y :: y in r <==> y in xs
  {
    if xs == [] then [] else Insert(xs[0], SortedDistinct(xs[1..]))
  }

  /** A sequence in which nothing is a member is empty. */
  lemma NoMemberIsEmpty(s: seq<string>)
    ensures (forall y :: y !in s) ==> s == []
  {
    if s != [] {
      assert s[0] in s;
    }
  }

  /** `s` back to front. */
  function Reverse(s: seq<string>): (r: seq<string>)
    ensures |r| == |s|
    ensures forall i :: 0 <= i < |s| ==> r[i] == s[|s| - 1 - i]
  {
    if s == [] then [] else Reverse(s[1..]) + [s[0]]
  }

  /** The distinct values of `xs`, descending: `SELECT DISTINCT ... ORDER BY ... DESC`. */
  function SortedDistinctDescending(xs: seq<string>): (r: seq<string>)
    ensures Descending(r)
    ensures forall y :: y in r <==> y in xs
  {
    var up := SortedDistinct(xs);
    var r := Reverse(up);
    assert forall y :: y in r <==> y in up by {
      forall y | y in up ensures y in r {
        var i :| 0 <= i < |up| && up[i] == y;
        assert r[|up| - 1 - i] == y;
      }
    }
    r
  }
}
