/**
 * The ordering of Rust `String`s: byte-wise comparison of the UTF-8
 * encodings, which agrees with lexicographic comparison of the Unicode
 * scalar values. A `BTreeSet<String>` iterates its elements in this order.
 */
module StringOrder {

  /** `a` sorts strictly before `b`. */
  predicate Less(a: string, b: string)
    decreases |a|
  {
    if |a| == 0 then |b| > 0
    else if |b| == 0 then false
    else if a[0] != b[0] then a[0] < b[0]
    else Less(a[1..], b[1..])
  }

  lemma {:induction false} LessIrreflexive(a: string)
    ensures !Less(a, a)
    decreases |a|
  {
    if |a| > 0 {
      LessIrreflexive(a[1..]);
    }
  }

  lemma {:induction false} LessAsymmetric(a: string, b: string)
    requires Less(a, b)
    ensures !Less(b, a)
    decreases |a|
  {
    if |a| > 0 && a[0] == b[0] {
      LessAsymmetric(a[1..], b[1..]);
    }
  }

  lemma {:induction false} LessTotal(a: string, b: string)
    requires a != b
    ensures Less(a, b) || Less(b, a)
    decreases |a|
  {
    if |a| > 0 && |b| > 0 && a[0] == b[0] {
      assert a == [a[0]] + a[1..] && b == [b[0]] + b[1..];
      LessTotal(a[1..], b[1..]);
    }
  }

  /** The iteration order of a `BTreeSet<String>`: strictly ascending, hence no duplicates. */
  predicate StrictlySorted(s: seq<string>) {
    forall i, j :: 0 <= i < j < |s| ==> Less(s[i], s[j])
  }

  lemma SortedHasNoDuplicates(s: seq<string>, i: nat, j: nat)
    requires StrictlySorted(s)
    requires i < j < |s|
    ensures s[i] != s[j]
  {
    LessIrreflexive(s[i]);
  }

  /** The first element of a strictly sorted sequence is its least element. */
  lemma FirstIsLeast(s: seq<string>)
    requires StrictlySorted(s) && |s| > 0
    ensures forall x :: x in s ==> !Less(x, s[0])
  {
    forall x | x in s
      ensures !Less(x, s[0])
    {
      if x == s[0] {
        LessIrreflexive(x);
      } else {
        var j :| 0 <= j < |s| && s[j] == x;
        LessAsymmetric(s[0], s[j]);
      }
    }
  }

  /** At most one element of a collection is not above any other: the least element is unique. */
  lemma LeastIsUnique(s: seq<string>, m1: string, m2: string)
    requires m1 in s && m2 in s
    requires forall x :: x in s ==> !Less(x, m1)
    requires forall x :: x in s ==> !Less(x, m2)
    ensures m1 == m2
  {
    if m1 != m2 {
      LessTotal(m1, m2);
    }
  }
}
