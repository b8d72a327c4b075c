/**
 * The callback registry that both input-channel variants keep: an ordered
 * list of callbacks that admits duplicates. Registering appends (Python's
 * list.append); deregistering removes the first entry equal to the callback
 * (Python's list.remove) and is an error when there is none.
 */
module Registry {

  /** What deregistering reports: success, or the GpioError the channel
      raises when the callback is not registered. */
  datatype Outcome = Ok | GpioError

  /** The position of the first entry of s equal to x. */
  function FirstIndex<T(==)>(s: seq<T>, x: T): (i: nat)
    requires x in s
    ensures i < |s| && s[i] == x
    ensures forall j :: 0 <= j < i ==> s[j] != x
  {
    if s[0] == x then 0
    else
      assert x in s[1..] by { var k :| 0 <= k < |s| && s[k] == x; assert s[1..][k - 1] == x; }
      1 + FirstIndex(s[1..], x)
  }

  /** s with its first entry equal to x deleted; everything else keeps its
      relative order. */
  function RemoveFirst<T(==)>(s: seq<T>, x: T): (r: seq<T>)
    requires x in s
    ensures |r| == |s| - 1
    ensures r == s[..FirstIndex(s, x)] + s[FirstIndex(s, x) + 1..]
  {
    if s[0] == x then s[1..]
    else
      assert x in s[1..] by { var k :| 0 <= k < |s| && s[k] == x; assert s[1..][k - 1] == x; }
      [s[0]] + RemoveFirst(s[1..], x)
  }

  /** Deregistering removes exactly one occurrence of x and no other entry. */
  lemma {:induction false} RemoveFirstRemovesOne<T>(s: seq<T>, x: T)
    requires x in s
    ensures multiset(RemoveFirst(s, x)) == multiset(s) - multiset{x}
    ensures multiset(RemoveFirst(s, x))[x] == multiset(s)[x] - 1
  {
    var i := FirstIndex(s, x);
    var before, after := s[..i], s[i + 1..];
    assert s == before + [x] + after;
    assert multiset(s) == multiset(before) + multiset{x} + multiset(after);
    assert RemoveFirst(s, x) == before + after;
    assert multiset(RemoveFirst(s, x)) == multiset(before) + multiset(after);
  }

  /** Deregistering a callback that was registered once, last, restores the
      registry exactly. */
  lemma {:induction false} DeregisterUndoesRegister<T>(s: seq<T>, x: T)
    requires x !in s
    ensures RemoveFirst(s + [x], x) == s
  {
    var t := s + [x];
    assert t[|s|] == x;
    var i := FirstIndex(t, x);
    assert i == |s|;
    assert t[..i] == s;
  }

  /** Registering then deregistering the same callback leaves the same
      callbacks, each as often as before, whether or not it was already
      registered (the order changes when an earlier copy was present). */
  lemma {:induction false} RegisterDeregisterSameMembers<T>(s: seq<T>, x: T)
    ensures multiset(RemoveFirst(s + [x], x)) == multiset(s)
  {
    assert (s + [x])[|s|] == x;
    RemoveFirstRemovesOne(s + [x], x);
  }

  /** Deregistering when the callback is registered twice removes the earlier
      copy and keeps the later one. */
  lemma {:induction false} DuplicateSurvivesOneDeregister<T>(s: seq<T>, x: T)
    requires x in s
    requires multiset(s)[x] >= 2
    ensures x in RemoveFirst(s, x)
  {
    RemoveFirstRemovesOne(s, x);
  }
}
