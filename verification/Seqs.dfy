/** Sequence facts shared by the codecs: streams arrive as chunks, and every
    statement about a stream is made about its flattened bytes. */
module Seqs {
  type byte = x: int | 0 <= x < 256

  function Flatten<T>(chunks: seq<seq<T>>): seq<T>
  {
    if chunks == [] then [] else chunks[0] + Flatten(chunks[1..])
  }

  lemma {:induction false} FlattenConcat<T>(a: seq<seq<T>>, b: seq<seq<T>>)
    ensures Flatten(a + b) == Flatten(a) + Flatten(b)
  {
    if a == [] {
      assert a + b == b;
    } else {
      FlattenConcat(a[1..], b);
      assert (a + b)[0] == a[0] && (a + b)[1..] == a[1..] + b;
      Assoc(a[0], Flatten(a[1..]), Flatten(b));
    }
  }

  lemma FlattenOne<T>(c: seq<T>)
    ensures Flatten([c]) == c
  {
    assert [c][1..] == [];
  }

  lemma FlattenSnoc<T>(a: seq<seq<T>>, c: seq<T>)
    ensures Flatten(a + [c]) == Flatten(a) + c
  {
    FlattenConcat(a, [c]);
    FlattenOne(c);
  }

  lemma SplitAt<T>(s: seq<T>, k: nat)
    requires k < |s|
    ensures s[..k + 1] == s[..k] + [s[k]]
    ensures s[..k + 1] + s[k + 1..] == s
  {
  }

  lemma Assoc<T>(a: seq<T>, b: seq<T>, c: seq<T>)
    ensures (a + b) + c == a + (b + c)
  {
  }

  /** What is left of a buffer, in front of what comes later, with its next part set apart. */
  lemma NextPart<T>(buffer: seq<T>, offset: nat, length: nat, later: seq<T>)
    requires offset + length <= |buffer|
    ensures buffer[offset..] + later == buffer[offset..offset + length] + (buffer[offset + length..] + later)
  {
    assert buffer[offset..] == buffer[offset..offset + length] + buffer[offset + length..];
    Assoc(buffer[offset..offset + length], buffer[offset + length..], later);
  }

  lemma Halves<T>(a: seq<T>, b: seq<T>)
    ensures (a + b)[..|a|] == a && (a + b)[|a|..] == b
  {
  }

  lemma FlattenNone<T>()
    ensures Flatten<T>([]) == []
  {
  }

  /** A stream seen so far, one chunk more, and what is still to come. */
  lemma FlattenSplit<T>(chunks: seq<seq<T>>, k: nat)
    requires k < |chunks|
    ensures Flatten(chunks[..k + 1]) == Flatten(chunks[..k]) + chunks[k]
    ensures Flatten(chunks) == Flatten(chunks[..k + 1]) + Flatten(chunks[k + 1..])
  {
    SplitAt(chunks, k);
    FlattenSnoc(chunks[..k], chunks[k]);
    FlattenConcat(chunks[..k + 1], chunks[k + 1..]);
  }

  function Repeat<T>(x: T, n: nat): (s: seq<T>)
    ensures |s| == n && forall i :: 0 <= i < n ==> s[i] == x
  {
    seq(n, i => x)
  }

  ghost predicate Distinct<T(!new)>(s: seq<T>) {
    forall i, j :: 0 <= i < j < |s| ==> s[i] != s[j]
  }

  ghost function Elements<T>(s: seq<T>): set<T> {
    set x | x in s
  }

  /** As many elements as places when nothing repeats. */
  lemma {:induction false} DistinctCardinality<T(!new)>(s: seq<T>)
    requires Distinct(s)
    ensures |Elements(s)| == |s|
  {
    if s != [] {
      DistinctCardinality(s[1..]);
      assert Elements(s) == Elements(s[1..]) + {s[0]};
      assert s[0] !in s[1..];
    } else {
      assert Elements(s) == {};
    }
  }

  /** And only then. */
  lemma {:induction false} CardinalityDistinct<T(!new)>(s: seq<T>)
    ensures |Elements(s)| <= |s|
    ensures |Elements(s)| == |s| ==> Distinct(s)
  {
    if s != [] {
      CardinalityDistinct(s[1..]);
      assert Elements(s) == Elements(s[1..]) + {s[0]};
      if |Elements(s)| == |s| {
        assert s[0] !in Elements(s[1..]);
        assert forall j :: 0 < j < |s| ==> s[j] in s[1..];
        assert forall i, j :: 0 < i < j < |s| ==> s[i] == s[1..][i - 1] && s[j] == s[1..][j - 1];
      }
    } else {
      assert Elements(s) == {};
    }
  }

  /** The pigeonhole principle: a sequence longer than the set it draws from repeats itself. */
  lemma Pigeonhole<T(!new)>(s: seq<T>, pool: set<T>) returns (i: nat, j: nat)
    requires |s| > |pool|
    requires forall k :: 0 <= k < |s| ==> s[k] in pool
    ensures i < j < |s| && s[i] == s[j]
  {
    if Distinct(s) {
      DistinctCardinality(s);
      SubsetCardinality(Elements(s), pool);
      assert false;
    } else {
      i, j :| 0 <= i < j < |s| && s[i] == s[j];
    }
  }

  lemma {:induction false} SubsetCardinality<T>(a: set<T>, b: set<T>)
    requires a <= b
    ensures |a| <= |b|
    ensures |a| == |b| ==> a == b
  {
    assert |b| == |a| + |b - a| by { assert b == a + (b - a); }
    if |a| == |b| {
      assert b - a == {};
    }
  }

  /** However many identifiers were used, there is one beyond them. */
  lemma {:induction false} Unused(used: set<nat>) returns (n: nat)
    ensures forall x :: x in used ==> x < n
    decreases |used|
  {
    n := 0;
    if used != {} {
      var x :| x in used;
      var top := Unused(used - {x});
      n := if top <= x then x + 1 else top;
      forall y | y in used ensures y < n {
        assert y == x || y in used - {x};
      }
    }
  }
}
