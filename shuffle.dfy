/** `random.shuffle`: the in-place Fisher-Yates shuffle the playlister applies to
    the combined track list.  The random numbers are a parameter: the k-th swap
    uses the k-th draw. */
module Shuffle {
  import opened TrackLists

  /** The k-th random draw; draws past the end of the supply are 0. */
  function Draw(draws: seq<nat>, k: nat): nat
  {
    if k < |draws| then draws[k] else 0
  }

  /** Walks i from the last index down to 1 and swaps position i with a
      position j in 0..i chosen by the next draw.  Only the order changes:
      the shuffled list holds every track as often as before. */
  method ShuffleTracks(a: array<TrackId>, draws: seq<nat>)
    modifies a
    ensures multiset(a[..]) == multiset(old(a[..]))
  {
    var i := a.Length - 1;
    var k: nat := 0;
    while i >= 1
      invariant -1 <= i < a.Length
      invariant multiset(a[..]) == multiset(old(a[..]))
      decreases i
    {
      var j := Draw(draws, k) % (i + 1);
      ghost var before := a[..];
      a[i], a[j] := a[j], a[i];
      assert a[..] == before[i := before[j]][j := before[i]];
      i := i - 1;
      k := k + 1;
    }
  }

  /** A shuffled list of distinct tracks is still a list of distinct tracks. */
  lemma {:induction false} PermutationKeepsDistinct(s: seq<TrackId>, t: seq<TrackId>)
    requires multiset(s) == multiset(t)
    requires NoDups(s)
    ensures NoDups(t)
    ensures |s| == |t|
    ensures forall x :: x in t <==> x in s
  {
    assert |s| == |multiset(s)| == |multiset(t)| == |t|;
    forall x
      ensures x in t <==> x in s
    {
      assert x in t <==> x in multiset(t);
      assert x in s <==> x in multiset(s);
    }
    forall i, j | 0 <= i < j < |t|
      ensures t[i] != t[j]
    {
      if t[i] == t[j] {
        TwoCopies(t, i, j);
        DistinctCount(s, t[i]);
        assert false;
      }
    }
  }

  /** A value at two distinct positions is counted at least twice. */
  lemma {:induction false} TwoCopies(t: seq<TrackId>, i: nat, j: nat)
    requires i < j < |t| && t[i] == t[j]
    ensures multiset(t)[t[i]] >= 2
  {
    assert t == t[..i] + [t[i]] + t[i+1..j] + [t[j]] + t[j+1..];
    assert multiset(t) == multiset(t[..i]) + multiset{t[i]} + multiset(t[i+1..j]) + multiset{t[j]} + multiset(t[j+1..]);
  }
}
