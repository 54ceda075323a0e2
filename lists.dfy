/** Sequence helpers shared by the result builders and the mutable lists. */
module Lists {

  /** Concatenation of a list of lists in their order (Swift's `flatMap { $0 }`). */
  function Flatten<T>(xss: seq<seq<T>>): seq<T>
  {
    if |xss| == 0 then [] else Flatten(xss[..|xss| - 1]) + xss[|xss| - 1]
  }

  /** Where the elements of `xss[k]` start inside `Flatten(xss)`. */
  function Offset<T>(xss: seq<seq<T>>, k: nat): nat
    requires k <= |xss|
  {
    |Flatten(xss[..k])|
  }

  /** Swift's `Array.remove(at:)`. */
  function RemoveAt<T>(s: seq<T>, i: nat): (r: seq<T>)
    requires i < |s|
    ensures |r| == |s| - 1
    ensures forall k :: 0 <= k < i ==> r[k] == s[k]
    ensures forall k :: i <= k < |r| ==> r[k] == s[k + 1]
  {
    s[..i] + s[i + 1..]
  }

  /** Swift's `Array.insert(_:at:)`. */
  function InsertAt<T>(s: seq<T>, i: nat, x: T): (r: seq<T>)
    requires i <= |s|
    ensures |r| == |s| + 1 && r[i] == x
    ensures forall k :: 0 <= k < i ==> r[k] == s[k]
    ensures forall k :: i < k < |r| ==> r[k] == s[k - 1]
  {
    s[..i] + [x] + s[i..]
  }

  /** Flattening distributes over concatenation of the outer list. */
  lemma {:induction false} FlattenAppend<T>(a: seq<seq<T>>, b: seq<seq<T>>)
    ensures Flatten(a + b) == Flatten(a) + Flatten(b)
    decreases |b|
  {
    if |b| == 0 {
      assert a + b == a;
    } else {
      var b' := b[..|b| - 1];
      assert (a + b)[..|a + b| - 1] == a + b';
      FlattenAppend(a, b');
    }
  }

  lemma FlattenSingle<T>(x: seq<T>)
    ensures Flatten([x]) == x
  {
    assert [x][..0] == [];
  }

  /** Flattening around one list in the middle. */
  lemma FlattenAround<T>(before: seq<seq<T>>, x: seq<T>, after: seq<seq<T>>)
    ensures Flatten(before + [x] + after) == Flatten(before) + x + Flatten(after)
  {
    assert (before + [x])[..|before|] == before;
    FlattenAppend(before + [x], after);
  }

  /** `Flatten(xss)` is what comes before list `i`, then list `i`, then what comes after it. */
  lemma FlattenSplit<T>(xss: seq<seq<T>>, i: nat)
    requires i < |xss|
    ensures Flatten(xss) == Flatten(xss[..i]) + xss[i] + Flatten(xss[i + 1..])
  {
    SplitAt(xss, i);
    FlattenAround(xss[..i], xss[i], xss[i + 1..]);
  }

  /** A list is what comes before position `i`, the element there, and what comes after it. */
  lemma SplitAt<T>(s: seq<T>, i: nat)
    requires i < |s|
    ensures s == s[..i] + [s[i]] + s[i + 1..]
  {
    assert s == s[..i] + s[i..];
    assert s[i..] == [s[i]] + s[i + 1..];
  }

  /** The `i`-th list appears, unchanged, as the slice of `Flatten(xss)` starting at `Offset(xss, i)`. */
  lemma FlattenAt<T>(xss: seq<seq<T>>, i: nat)
    requires i < |xss|
    ensures Offset(xss, i) + |xss[i]| <= |Flatten(xss)|
    ensures Flatten(xss)[Offset(xss, i)..Offset(xss, i) + |xss[i]|] == xss[i]
  {
    FlattenSplit(xss, i);
  }

  /** Every list appears in the flattened list, in order, and nothing else does. */
  lemma FlattenSlices<T>(xss: seq<seq<T>>)
    ensures |Flatten(xss)| == Offset(xss, |xss|)
    ensures forall i :: 0 <= i < |xss| ==>
      Offset(xss, i) + |xss[i]| <= |Flatten(xss)| &&
      Flatten(xss)[Offset(xss, i)..Offset(xss, i) + |xss[i]|] == xss[i]
  {
    assert xss[..|xss|] == xss;
    forall i | 0 <= i < |xss|
      ensures Offset(xss, i) + |xss[i]| <= |Flatten(xss)|
      ensures Flatten(xss)[Offset(xss, i)..Offset(xss, i) + |xss[i]|] == xss[i]
    {
      FlattenAt(xss, i);
    }
  }

  /** An element occurs in the flattened list exactly when it occurs in one of the lists. */
  lemma {:induction false} FlattenMember<T>(xss: seq<seq<T>>, x: T)
    ensures x in Flatten(xss) <==> exists i :: 0 <= i < |xss| && x in xss[i]
  {
    if |xss| > 0 {
      var front := xss[..|xss| - 1];
      FlattenMember(front, x);
      if x in Flatten(front) {
        var i :| 0 <= i < |front| && x in front[i];
        assert x in xss[i];
      }
      if exists i :: 0 <= i < |xss| && x in xss[i] {
        var i :| 0 <= i < |xss| && x in xss[i];
        if i < |xss| - 1 { assert x in front[i]; }
      }
    }
  }

  /**
   * Moving one element `x` out of a collection and into `rows`: if `after` plus `rows` is
   * `middle` plus `rows` with `x`, and `middle` plus `x` is `before`, then `after` is `before`.
   */
  lemma MultisetMoveOne<T>(after: multiset<T>, middle: multiset<T>, rows: multiset<T>, before: multiset<T>, x: T)
    requires after + rows == middle + (rows + multiset{x})
    requires middle + multiset{x} == before
    ensures after == before
  {
    forall y ensures after[y] == before[y] {
      assert (after + rows)[y] == (middle + (rows + multiset{x}))[y];
      assert (middle + multiset{x})[y] == before[y];
    }
  }

  /** Removing an element loses that one occurrence and nothing else. */
  lemma RemoveAtMultiset<T>(s: seq<T>, i: nat)
    requires i < |s|
    ensures multiset(RemoveAt(s, i)) + multiset{s[i]} == multiset(s)
  {
    assert s == s[..i] + [s[i]] + s[i + 1..];
  }

  /** Inserting an element adds that one occurrence and nothing else. */
  lemma InsertAtMultiset<T>(s: seq<T>, i: nat, x: T)
    requires i <= |s|
    ensures multiset(InsertAt(s, i, x)) == multiset(s) + multiset{x}
  {
    assert s == s[..i] + s[i..];
  }
}
