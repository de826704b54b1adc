/** The list logic that both sync routines apply to track ids: reading ids off a
    page, de-duplication that keeps first occurrences, the "new tracks" filter,
    the combined list, the size cap, the record filter and fixed-size batches. */
module TrackLists {
  import opened Answers

  /** An opaque Spotify track id. */
  type TrackId = string

  /** What the saved record keeps of one track. */
  datatype TrackRecord = TrackRecord(id: TrackId, name: string, artists: seq<string>)

  predicate NoDups(s: seq<TrackId>) {
    forall i, j :: 0 <= i < j < |s| ==> s[i] != s[j]
  }

  /** Position of the first occurrence of x in s. */
  function FirstIndex(s: seq<TrackId>, x: TrackId): (k: nat)
    requires x in s
    ensures k < |s| && s[k] == x && x !in s[..k]
  {
    if s[0] == x then 0
    else
      var k := 1 + FirstIndex(s[1..], x);
      assert s[..k] == [s[0]] + s[1..][..k - 1];
      k
  }

  // ---------------------------------------------------------------------------
  // Ids of a page of playlist items

  /** `[item['track']['id'] for item in items if item['track']]`: an item whose
      track is null (a removed or unavailable track) is skipped. */
  function NonNullIds(items: seq<Option<TrackId>>): (ids: seq<TrackId>)
    ensures |ids| <= |items|
    ensures forall x {:trigger x in ids} :: x in ids <==> Some(x) in items
  {
    if items == [] then []
    else
      var rest := NonNullIds(items[1..]);
      assert forall x :: Some(x) in items <==> items[0] == Some(x) || Some(x) in items[1..];
      match items[0]
      case Some(id) => [id] + rest
      case None => rest
  }

  lemma {:induction false} NonNullIdsAppend(a: seq<Option<TrackId>>, b: seq<Option<TrackId>>)
    ensures NonNullIds(a + b) == NonNullIds(a) + NonNullIds(b)
  {
    if a != [] {
      assert (a + b)[1..] == a[1..] + b;
      NonNullIdsAppend(a[1..], b);
    } else {
      assert a + b == b;
    }
  }

  // ---------------------------------------------------------------------------
  // De-duplication: list(dict.fromkeys(s))

  /** `list(dict.fromkeys(s))`: the keys are inserted from left to right, a key
      that is already present is skipped, and the dictionary keeps insertion
      order. */
  function Dedup(s: seq<TrackId>): seq<TrackId>
  {
    if s == [] then []
    else
      var prefix := Dedup(s[..|s| - 1]);
      if s[|s| - 1] in prefix then prefix else prefix + [s[|s| - 1]]
  }

  /** The de-duplicated list holds exactly the elements of the input. */
  lemma {:induction false} DedupElements(s: seq<TrackId>)
    ensures forall x :: x in Dedup(s) <==> x in s
  {
    if s != [] {
      var init := s[..|s| - 1];
      DedupElements(init);
      assert s == init + [s[|s| - 1]];
    }
  }

  /** The de-duplicated list has no repeated element. */
  lemma {:induction false} DedupNoDups(s: seq<TrackId>)
    ensures NoDups(Dedup(s))
  {
    if s != [] {
      DedupNoDups(s[..|s| - 1]);
    }
  }

  /** Adding x at the end of s does not move the first occurrence of any
      element of s, and x's own first occurrence is at |s| when it is new. */
  lemma FirstIndexAppend(s: seq<TrackId>, x: TrackId, y: TrackId)
    requires y in s
    ensures y in s + [x] && FirstIndex(s + [x], y) == FirstIndex(s, y)
  {
    var k := FirstIndex(s, y);
    var k' := FirstIndex(s + [x], y);
    assert (s + [x])[..k] == s[..k];
    assert (s + [x])[k] == y;
  }

  lemma FirstIndexLast(s: seq<TrackId>, x: TrackId)
    requires x !in s
    ensures FirstIndex(s + [x], x) == |s|
  {
    assert (s + [x])[|s|] == x;
  }

  /** dict.fromkeys keeps first-occurrence order: an element comes before
      another in the result exactly when its first occurrence in the input
      comes first. */
  lemma {:induction false} DedupFirstOccurrenceOrder(s: seq<TrackId>)
    ensures forall i, j :: 0 <= i < j < |Dedup(s)| ==>
      Dedup(s)[i] in s && Dedup(s)[j] in s && FirstIndex(s, Dedup(s)[i]) < FirstIndex(s, Dedup(s)[j])
  {
    if s != [] {
      var init, x := s[..|s| - 1], s[|s| - 1];
      assert s == init + [x];
      var p := Dedup(init);
      var r := Dedup(s);
      assert r == if x in p then p else p + [x];
      DedupFirstOccurrenceOrder(init);
      DedupElements(init);
      forall i, j | 0 <= i < j < |r|
        ensures r[i] in s && r[j] in s && FirstIndex(s, r[i]) < FirstIndex(s, r[j])
      {
        assert r[i] == p[i] && p[i] in p;
        FirstIndexAppend(init, x, p[i]);
        if j < |p| {
          assert p[j] in p;
          FirstIndexAppend(init, x, p[j]);
        } else {
          assert x !in p && r[j] == x;
          FirstIndexLast(init, x);
        }
      }
    } else {
      assert Dedup(s) == [];
    }
  }

  /** A list without repeats is its own de-duplication. */
  lemma {:induction false} DedupOfDistinct(s: seq<TrackId>)
    requires NoDups(s)
    ensures Dedup(s) == s
  {
    if s != [] {
      var init := s[..|s| - 1];
      DedupOfDistinct(init);
      assert s[|s| - 1] !in init;
      assert s == init + [s[|s| - 1]];
    }
  }

  /** `duplicates_removed = original_count - len(result)` is never negative, and
      it is zero exactly when the input had no repeats. */
  lemma {:induction false} DuplicatesRemoved(s: seq<TrackId>)
    ensures |Dedup(s)| <= |s|
    ensures |Dedup(s)| == |s| <==> NoDups(s)
  {
    if s != [] {
      var init, x := s[..|s| - 1], s[|s| - 1];
      DuplicatesRemoved(init);
      DedupElements(init);
      if NoDups(s) {
        DedupOfDistinct(s);
      }
      if |Dedup(s)| == |s| {
        assert x !in Dedup(init) && |Dedup(init)| == |init|;
        assert NoDups(init);
        forall i, j | 0 <= i < j < |s| ensures s[i] != s[j] {
          if j == |s| - 1 {
            assert s[i] == init[i];
          } else {
            assert s[i] == init[i] && s[j] == init[j];
          }
        }
      }
    }
  }

  // ---------------------------------------------------------------------------
  // The "new tracks" filter: [t for t in source if t not in current]

  function Without(source: seq<TrackId>, current: seq<TrackId>): (r: seq<TrackId>)
    ensures forall x {:trigger x in r} :: x in r <==> x in source && x !in current
    ensures |r| <= |source|
  {
    if source == [] then []
    else
      var rest := Without(source[1..], current);
      assert forall x :: x in source <==> x == source[0] || x in source[1..];
      if source[0] in current then rest else [source[0]] + rest
  }

  /** The filter keeps source order: it distributes over concatenation. */
  lemma {:induction false} WithoutAppend(a: seq<TrackId>, b: seq<TrackId>, current: seq<TrackId>)
    ensures Without(a + b, current) == Without(a, current) + Without(b, current)
  {
    if a == [] {
      assert a + b == b;
    } else {
      assert (a + b)[1..] == a[1..] + b;
      WithoutAppend(a[1..], b, current);
    }
  }

  /** Filtering a list without repeats leaves a list without repeats. */
  lemma {:induction false} WithoutNoDups(source: seq<TrackId>, current: seq<TrackId>)
    requires NoDups(source)
    ensures NoDups(Without(source, current))
  {
    if source != [] {
      WithoutNoDups(source[1..], current);
      assert source[0] !in source[1..];
      var rest := Without(source[1..], current);
      assert source[0] !in rest;
    }
  }

  /** Filtering out a then b is filtering out a + b. */
  lemma {:induction false} WithoutWithout(p: seq<TrackId>, a: seq<TrackId>, b: seq<TrackId>)
    ensures Without(Without(p, a), b) == Without(p, a + b)
  {
    if p != [] {
      WithoutWithout(p[1..], a, b);
      assert (p[0] in a + b) == (p[0] in a || p[0] in b);
    }
  }

  /** Removing nothing leaves the list as it is. */
  lemma {:induction false} WithoutNothing(p: seq<TrackId>)
    ensures Without(p, []) == p
  {
    if p != [] {
      WithoutNothing(p[1..]);
    }
  }

  /** Filtering out a list that covers p leaves nothing. */
  lemma {:induction false} WithoutCovered(p: seq<TrackId>, c: seq<TrackId>)
    requires forall x :: x in p ==> x in c
    ensures Without(p, c) == []
  {
    if p != [] {
      assert p[0] in p;
      WithoutCovered(p[1..], c);
    }
  }


  // ---------------------------------------------------------------------------
  // The combined list: dict.fromkeys(priority + current + new)

  /** The priority songs followed by the current and new tracks, de-duplicated. */
  function Combined(priority: seq<TrackId>, current: seq<TrackId>, additions: seq<TrackId>): seq<TrackId>
  {
    Dedup(priority + current + additions)
  }

  lemma DedupMember(s: seq<TrackId>, x: TrackId)
    ensures x in Dedup(s) <==> x in s
  {
    DedupElements(s);
  }

  lemma DedupSnoc(s: seq<TrackId>, x: TrackId)
    ensures Dedup(s + [x]) == if x in Dedup(s) then Dedup(s) else Dedup(s) + [x]
  {
    assert (s + [x])[..|s|] == s;
  }

  /** De-duplicating a + b gives a's de-duplication followed by that of the
      elements of b not already in a: the elements of a keep precedence. */
  lemma {:induction false} DedupAppend(a: seq<TrackId>, b: seq<TrackId>)
    ensures Dedup(a + b) == Dedup(a) + Dedup(Without(b, a))
  {
    if b == [] {
      assert a + b == a;
      assert Without(b, a) == [];
    } else {
      var init, x := b[..|b| - 1], b[|b| - 1];
      assert b == init + [x];
      assert a + b == (a + init) + [x];
      DedupAppend(a, init);
      DedupAppendSnoc(a, init, x);
    }
  }

  /** The inductive step of DedupAppend: one more element at the end of b. */
  lemma DedupAppendSnoc(a: seq<TrackId>, init: seq<TrackId>, x: TrackId)
    requires Dedup(a + init) == Dedup(a) + Dedup(Without(init, a))
    ensures Dedup((a + init) + [x]) == Dedup(a) + Dedup(Without(init + [x], a))
  {
    WithoutAppend(init, [x], a);
    DedupSnoc(a + init, x);
    DedupMember(a + init, x);
    if x in a + init {
      DedupAppendSnocSeen(a, init, x);
    } else {
      DedupAppendSnocFresh(a, init, x);
    }
  }

  /** An element already met adds nothing on either side. */
  lemma DedupAppendSnocSeen(a: seq<TrackId>, init: seq<TrackId>, x: TrackId)
    requires Dedup(a + init) == Dedup(a) + Dedup(Without(init, a))
    requires x in Dedup(a + init)
    requires Without(init + [x], a) == Without(init, a) + Without([x], a)
    ensures Dedup(a + init) == Dedup(a) + Dedup(Without(init + [x], a))
  {
    var w := Without(init, a);
    if x in a {
      assert Without([x], a) == [];
      assert w + [] == w;
    } else {
      DedupMember(a + init, x);
      assert x in init;
      assert x in w;
      DedupMember(w, x);
      DedupSnoc(w, x);
      assert Without([x], a) == [x];
    }
  }

  /** A new element is appended on both sides. */
  lemma DedupAppendSnocFresh(a: seq<TrackId>, init: seq<TrackId>, x: TrackId)
    requires Dedup(a + init) == Dedup(a) + Dedup(Without(init, a))
    requires x !in a + init
    requires Without(init + [x], a) == Without(init, a) + Without([x], a)
    ensures Dedup(a + init) + [x] == Dedup(a) + Dedup(Without(init + [x], a))
  {
    var w := Without(init, a);
    assert x !in a && x !in init;
    assert Without([x], a) == [x];
    assert x !in w;
    DedupMember(w, x);
    DedupSnoc(w, x);
    assert Dedup(a) + (Dedup(w) + [x]) == (Dedup(a) + Dedup(w)) + [x];
  }

  /** Every priority, current and new track appears exactly once in the
      combined list, nothing else appears, and the de-duplicated priority
      songs come first. */
  lemma CombinedEachOnce(priority: seq<TrackId>, current: seq<TrackId>, additions: seq<TrackId>)
    ensures NoDups(Combined(priority, current, additions))
    ensures forall x :: (multiset(Combined(priority, current, additions))[x] ==
      if x in priority + current + additions then 1 else 0)
    ensures |Dedup(priority)| <= |Combined(priority, current, additions)|
    ensures Combined(priority, current, additions)[..|Dedup(priority)|] == Dedup(priority)
    ensures 0 <= |priority + current + additions| - |Combined(priority, current, additions)|
  {
    var all := priority + current + additions;
    var r := Dedup(all);
    DedupNoDups(all);
    DedupElements(all);
    DuplicatesRemoved(all);
    forall x ensures multiset(r)[x] == if x in all then 1 else 0 {
      DistinctCount(r, x);
    }
    assert all == priority + (current + additions);
    DedupAppend(priority, current + additions);
  }

  lemma {:induction false} DistinctCount(s: seq<TrackId>, x: TrackId)
    requires NoDups(s)
    ensures multiset(s)[x] == if x in s then 1 else 0
  {
    if s != [] {
      var init := s[..|s| - 1];
      assert s == init + [s[|s| - 1]];
      DistinctCount(init, x);
      assert s[|s| - 1] !in init;
    }
  }

  // ---------------------------------------------------------------------------
  // The size cap: all_tracks[:max_songs] when len(all_tracks) > max_songs

  /** Python's `s[:k]` for any integer k; a negative k counts from the end. */
  function PyPrefix(s: seq<TrackId>, k: int): (r: seq<TrackId>)
    ensures k >= 0 ==> |r| == if k < |s| then k else |s|
    ensures k < 0 ==> |r| == if |s| + k >= 0 then |s| + k else 0
    ensures r == s[..|r|]
  {
    if k >= |s| then s
    else if k >= 0 then s[..k]
    else if |s| + k >= 0 then s[..|s| + k]
    else []
  }

  /** The trim of a shuffled list to `max_songs` tracks. */
  function Trim(shuffled: seq<TrackId>, maxSongs: int): (r: seq<TrackId>)
    ensures |r| <= |shuffled| && r == shuffled[..|r|]
    ensures |shuffled| <= maxSongs ==> r == shuffled
    ensures maxSongs >= 0 ==> |r| <= maxSongs
    ensures maxSongs >= 0 && |shuffled| > maxSongs ==> |r| == maxSongs
    ensures maxSongs < 0 ==> |r| == if |shuffled| + maxSongs >= 0 then |shuffled| + maxSongs else 0
  {
    if |shuffled| > maxSongs then PyPrefix(shuffled, maxSongs) else shuffled
  }

  /** Trimming keeps a list without repeats free of repeats, and keeps only
      elements of the list it trims. */
  lemma TrimKeepsDistinct(shuffled: seq<TrackId>, maxSongs: int)
    requires NoDups(shuffled)
    ensures NoDups(Trim(shuffled, maxSongs))
    ensures forall x :: x in Trim(shuffled, maxSongs) ==> x in shuffled
  {
    var r := Trim(shuffled, maxSongs);
    assert r == shuffled[..|r|];
  }

  /** `[t for t in s if t in kept]`. */
  function Retained(s: seq<TrackId>, kept: seq<TrackId>): (r: seq<TrackId>)
    ensures forall x {:trigger x in r} :: x in r <==> x in s && x in kept
    ensures |r| <= |s|
  {
    if s == [] then []
    else
      var rest := Retained(s[1..], kept);
      assert forall x :: x in s <==> x == s[0] || x in s[1..];
      if s[0] in kept then [s[0]] + rest else rest
  }

  /** `len([track for track in all_tracks if track in priority_songs])`: at most
      the length of the trimmed list. */
  function CountIn(trimmed: seq<TrackId>, priority: seq<TrackId>): (n: nat)
    ensures n <= |trimmed|
  {
    |Retained(trimmed, priority)|
  }

  // ---------------------------------------------------------------------------
  // The record filter: [item for item in track_data if item.id in all_tracks]

  function FilterRecords(records: seq<TrackRecord>, kept: seq<TrackId>): (r: seq<TrackRecord>)
    ensures forall x {:trigger x in r} :: x in r <==> x in records && x.id in kept
    ensures |r| <= |records|
  {
    if records == [] then []
    else
      var rest := FilterRecords(records[1..], kept);
      assert forall x :: x in records <==> x == records[0] || x in records[1..];
      if records[0].id in kept then [records[0]] + rest else rest
  }

  function Ids(records: seq<TrackRecord>): (ids: seq<TrackId>)
    ensures |ids| == |records|
    ensures forall k :: 0 <= k < |records| ==> ids[k] == records[k].id
  {
    if records == [] then [] else [records[0].id] + Ids(records[1..])
  }

  /** The record filter keeps the records in their original order: their ids
      are the original ids filtered by the kept ids. */
  lemma {:induction false} FilterRecordsIds(records: seq<TrackRecord>, kept: seq<TrackId>)
    ensures Ids(FilterRecords(records, kept)) == Retained(Ids(records), kept)
  {
    if records != [] {
      FilterRecordsIds(records[1..], kept);
      assert Ids(records)[1..] == Ids(records[1..]);
    }
  }

  // ---------------------------------------------------------------------------
  // Fixed-size batches: [s[i:i + step] for i in range(0, len(s), step)]

  function Flatten<T>(ss: seq<seq<T>>): seq<T>
  {
    if ss == [] then [] else ss[0] + Flatten(ss[1..])
  }

  lemma {:induction false} FlattenAppend<T>(a: seq<seq<T>>, b: seq<seq<T>>)
    ensures Flatten(a + b) == Flatten(a) + Flatten(b)
  {
    if a == [] {
      assert a + b == b;
    } else {
      assert (a + b)[1..] == a[1..] + b;
      FlattenAppend(a[1..], b);
    }
  }

  function Min(a: int, b: int): int
  {
    if a < b then a else b
  }

  /** Going round `for i in range(0, len(s), step)` once more: the batches
      from position i on are `s[i:i + step]` followed by the batches from
      position i + step on. */
  lemma BatchesStep<T>(s: seq<T>, i: nat, step: nat)
    requires step > 0 && i < |s|
    ensures Batches(s[i..], step) == [s[i..Min(i + step, |s|)]] + Batches(s[Min(i + step, |s|)..], step)
  {
    var rest := s[i..];
    if |rest| > step {
      assert Min(i + step, |s|) == i + step;
      assert Batches(rest, step) == [rest[..step]] + Batches(rest[step..], step);
      assert rest[..step] == s[i..i + step];
      assert rest[step..] == s[i + step..];
    } else {
      assert Min(i + step, |s|) == |s|;
      assert Batches(rest, step) == [rest];
      assert s[|s|..] == [];
      assert Batches(s[|s|..], step) == [];
      assert s[i..|s|] == rest;
      assert [rest] + [] == [rest];
    }
  }

  /** The batches of `step` ids that the loop `for i in range(0, len(s), step)`
      sends with `s[i:i + step]`: together they are s, none is empty, none is
      larger than `step`, and all but the last are full. */
  function Batches<T>(s: seq<T>, step: nat): (bs: seq<seq<T>>)
    requires step > 0
    ensures Flatten(bs) == s
    ensures forall b :: b in bs ==> 0 < |b| <= step
    ensures forall k :: 0 <= k < |bs| - 1 ==> |bs[k]| == step
    decreases |s|
  {
    if |s| == 0 then []
    else if |s| <= step then [s]
    else
      var rest := Batches(s[step..], step);
      assert s == s[..step] + s[step..];
      [s[..step]] + rest
  }

  lemma MulSucc(n: nat, step: nat)
    ensures (n + 1) * step == n * step + step
  {
  }

  /** There are ceil(|s| / step) batches: enough to hold s, and one fewer
      would not. */
  lemma {:induction false} BatchCount<T>(s: seq<T>, step: nat)
    requires step > 0
    ensures |s| <= |Batches(s, step)| * step
    ensures Batches(s, step) != [] ==> (|Batches(s, step)| - 1) * step < |s|
    decreases |s|
  {
    var bs := Batches(s, step);
    if |s| == 0 {
      assert bs == [];
    } else if |s| <= step {
      assert bs == [s];
      assert |bs| * step == step;
    } else {
      var rest := Batches(s[step..], step);
      BatchCount(s[step..], step);
      var n := |rest|;
      assert |bs| == n + 1;
      MulSucc(n, step);
      assert |s| - step <= n * step;
      assert n > 0;
      MulSucc(n - 1, step);
    }
  }
}
