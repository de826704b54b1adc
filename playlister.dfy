/** The playlist update of spotify_playlister.py: gather the sources, read the
    target, combine, shuffle and trim, clear and refill the target in batches,
    then rewrite its description and cover. */
module Playlister {
  import opened Answers
  import opened TrackLists
  import opened Retrying
  import opened Paging
  import opened Describe
  import opened Remote
  import opened Shuffle
  import opened Calendar

  /** Ids per add or remove call. */
  const WriteBatch: nat := 100
  /** Ids per metadata call. */
  const MetadataBatch: nat := 50

  /** Every call of a sequence of retried calls went through. */
  predicate AllSucceeded<T>(runs: seq<RetryRun<T>>)
  {
    forall k :: 0 <= k < |runs| ==> runs[k].result.Some?
  }

  // ---------------------------------------------------------------------------
  // fetch_tracks_from_sources: the first page of each source, one retried call
  // per source, then duplicates removed

  /** The ids of the first page of every source whose call went through, source
      after source. */
  function SourceIds(runs: seq<RetryRun<Page>>): seq<TrackId>
  {
    if runs == [] then []
    else (if runs[0].result.Some? then NonNullIds(runs[0].result.value.items) else []) + SourceIds(runs[1..])
  }

  lemma {:induction false} SourceIdsAppend(a: seq<RetryRun<Page>>, b: seq<RetryRun<Page>>)
    ensures SourceIds(a + b) == SourceIds(a) + SourceIds(b)
  {
    if a == [] {
      assert a + b == b;
    } else {
      assert (a + b)[1..] == a[1..] + b;
      SourceIdsAppend(a[1..], b);
    }
  }

  /** A track is gathered exactly when some source's call went through and its
      first page holds the track. */
  lemma {:induction false} SourceIdsMembers(runs: seq<RetryRun<Page>>, x: TrackId)
    ensures x in SourceIds(runs) <==>
      exists k :: 0 <= k < |runs| && runs[k].result.Some? && Some(x) in runs[k].result.value.items
  {
    if runs != [] {
      SourceIdsMembers(runs[1..], x);
      if x in SourceIds(runs[1..]) {
        var k :| 0 <= k < |runs[1..]| && runs[1..][k].result.Some? && Some(x) in runs[1..][k].result.value.items;
        assert runs[k + 1] == runs[1..][k];
      }
      if exists k :: 0 <= k < |runs| && runs[k].result.Some? && Some(x) in runs[k].result.value.items {
        var k :| 0 <= k < |runs| && runs[k].result.Some? && Some(x) in runs[k].result.value.items;
        if k > 0 {
          assert runs[1..][k - 1] == runs[k];
        }
      }
    }
  }

  /** A source whose call failed or ran out of retries adds no track. */
  lemma FailedSourceAddsNothing(runs: seq<RetryRun<Page>>, k: nat)
    requires k < |runs| && runs[k].result.None?
    ensures SourceIds(runs) == SourceIds(runs[..k]) + SourceIds(runs[k + 1..])
  {
    var before, after := runs[..k], runs[k + 1..];
    var failed := [runs[k]];
    assert runs == before + (failed + after);
    SourceIdsAppend(before, failed + after);
    SourceIdsAppend(failed, after);
    assert failed[1..] == [];
    assert SourceIds(failed) == [] + SourceIds([]) == [];
    assert SourceIds(failed + after) == SourceIds(after);
  }

  /** The gathered source tracks: each once, in order of first appearance, and
      exactly the tracks of the sources that answered. */
  lemma GatheredSourceTracks(runs: seq<RetryRun<Page>>, x: TrackId)
    ensures NoDups(Dedup(SourceIds(runs)))
    ensures x in Dedup(SourceIds(runs)) <==>
      exists k :: 0 <= k < |runs| && runs[k].result.Some? && Some(x) in runs[k].result.value.items
  {
    DedupNoDups(SourceIds(runs));
    DedupElements(SourceIds(runs));
    SourceIdsMembers(runs, x);
  }

  /** One more source: its ids, then those of the sources after it. */
  lemma SourceIdsStep(stream: seq<Outcome<Page>>, n: nat, maxRetries: int)
    requires n > 0
    ensures var run := Retry(stream, maxRetries);
      SourceIds(RetryEach(stream, n, maxRetries))
      == (if run.result.Some? then NonNullIds(run.result.value.items) else [])
         + SourceIds(RetryEach(Drop(stream, run.attempts), n - 1, maxRetries))
  {
    var run := Retry(stream, maxRetries);
    var rest := RetryEach(Drop(stream, run.attempts), n - 1, maxRetries);
    assert RetryEach(stream, n, maxRetries) == [run] + rest;
    assert ([run] + rest)[1..] == rest;
  }

  method FetchTracksFromSources(answers: seq<Outcome<Page>>, sources: seq<string>, maxRetries: int)
    returns (tracks: seq<TrackId>)
    ensures tracks == Dedup(SourceIds(RetryEach(answers, |sources|, maxRetries)))
  {
    var all: seq<TrackId> := [];
    var stream := answers;
    var k := 0;
    while k < |sources|
      invariant k <= |sources|
      invariant all + SourceIds(RetryEach(stream, |sources| - k, maxRetries))
             == SourceIds(RetryEach(answers, |sources|, maxRetries))
    {
      var run := CallWithRetries(stream, maxRetries);
      SourceIdsStep(stream, |sources| - k, maxRetries);
      ghost var piece := if run.result.Some? then NonNullIds(run.result.value.items) else [];
      ghost var tail := SourceIds(RetryEach(Drop(stream, run.attempts), |sources| - k - 1, maxRetries));
      assert all + (piece + tail) == (all + piece) + tail;
      if run.result.Some? {
        all := all + NonNullIds(run.result.value.items);
      } else {
        assert all + [] == all;
      }
      stream := Drop(stream, run.attempts);
      k := k + 1;
    }
    assert all + [] == all;
    tracks := Dedup(all);
  }

  // ---------------------------------------------------------------------------
  // fetch_track_metadata: batches of 50 ids, one retried call per batch

  /** `sp.tracks(batch)` against a catalog of what the service knows: the
      record of every known id of the batch, in batch order; unknown ids come
      back as null entries, which are skipped. */
  function Lookup(catalog: map<TrackId, TrackRecord>, batch: seq<TrackId>): (r: seq<TrackRecord>)
    ensures |r| <= |batch|
  {
    if batch == [] then []
    else (if batch[0] in catalog then [catalog[batch[0]]] else []) + Lookup(catalog, batch[1..])
  }

  lemma {:induction false} LookupAppend(catalog: map<TrackId, TrackRecord>, a: seq<TrackId>, b: seq<TrackId>)
    ensures Lookup(catalog, a + b) == Lookup(catalog, a) + Lookup(catalog, b)
  {
    if a == [] {
      assert a + b == b;
    } else {
      assert (a + b)[1..] == a[1..] + b;
      LookupAppend(catalog, a[1..], b);
    }
  }

  /** `done` followed by the records of the batches whose call went through,
      batch after batch. */
  function FetchedRecords(catalog: map<TrackId, TrackRecord>, done: seq<TrackRecord>,
                          batches: seq<seq<TrackId>>, runs: seq<RetryRun<()>>): seq<TrackRecord>
    requires |runs| == |batches|
    decreases |batches|
  {
    if batches == [] then done
    else FetchedRecords(catalog, if runs[0].result.Some? then done + Lookup(catalog, batches[0]) else done,
                        batches[1..], runs[1..])
  }

  /** When every batch goes through, batching changes nothing: the records are
      those of the whole list looked up at once. */
  lemma {:induction false} AllBatchesFetched(catalog: map<TrackId, TrackRecord>, done: seq<TrackRecord>,
                                             batches: seq<seq<TrackId>>, runs: seq<RetryRun<()>>)
    requires |runs| == |batches| && AllSucceeded(runs)
    ensures FetchedRecords(catalog, done, batches, runs) == done + Lookup(catalog, Flatten(batches))
    decreases |batches|
  {
    if batches == [] {
      assert done + [] == done;
    } else {
      AllBatchesFetched(catalog, done + Lookup(catalog, batches[0]), batches[1..], runs[1..]);
      LookupAppend(catalog, batches[0], Flatten(batches[1..]));
      assert (done + Lookup(catalog, batches[0])) + Lookup(catalog, Flatten(batches[1..]))
          == done + (Lookup(catalog, batches[0]) + Lookup(catalog, Flatten(batches[1..])));
    }
  }

  /** One turn of the metadata loop: the next batch of 50 and its retried
      call, then the batches after it on the answers that call left. */
  lemma FetchedRecordsStep(catalog: map<TrackId, TrackRecord>, records: seq<TrackRecord>, trackIds: seq<TrackId>,
                           i: nat, stream: seq<Outcome<()>>, maxRetries: int)
    requires i < |trackIds|
    ensures var next := Min(i + MetadataBatch, |trackIds|);
      var run := Retry(stream, maxRetries);
      var later := Batches(trackIds[next..], MetadataBatch);
      FetchedRecords(catalog, records, Batches(trackIds[i..], MetadataBatch),
                     RetryEach(stream, |Batches(trackIds[i..], MetadataBatch)|, maxRetries))
      == FetchedRecords(catalog, if run.result.Some? then records + Lookup(catalog, trackIds[i..next]) else records,
                        later, RetryEach(Drop(stream, run.attempts), |later|, maxRetries))
  {
    var next := Min(i + MetadataBatch, |trackIds|);
    var batch := trackIds[i..next];
    BatchesStep(trackIds, i, MetadataBatch);
    var run := Retry(stream, maxRetries);
    var later := Batches(trackIds[next..], MetadataBatch);
    var rest := RetryEach(Drop(stream, run.attempts), |later|, maxRetries);
    assert RetryEach(stream, |later| + 1, maxRetries) == [run] + rest;
    assert ([batch] + later)[1..] == later && ([run] + rest)[1..] == rest;
  }

  method FetchTrackMetadata(trackIds: seq<TrackId>, catalog: map<TrackId, TrackRecord>,
                            answers: seq<Outcome<()>>, maxRetries: int)
    returns (records: seq<TrackRecord>)
    ensures records == FetchedRecords(catalog, [], Batches(trackIds, MetadataBatch),
                                      RetryEach(answers, |Batches(trackIds, MetadataBatch)|, maxRetries))
  {
    ghost var final := FetchedRecords(catalog, [], Batches(trackIds, MetadataBatch),
                                      RetryEach(answers, |Batches(trackIds, MetadataBatch)|, maxRetries));
    records := [];
    var stream := answers;
    var i := 0;
    assert trackIds[0..] == trackIds;
    while i < |trackIds|
      invariant i <= |trackIds|
      invariant FetchedRecords(catalog, records, Batches(trackIds[i..], MetadataBatch),
                  RetryEach(stream, |Batches(trackIds[i..], MetadataBatch)|, maxRetries)) == final
      decreases |trackIds| - i
    {
      var next := Min(i + MetadataBatch, |trackIds|);
      var batch := trackIds[i..next];
      var run := CallWithRetries(stream, maxRetries);
      FetchedRecordsStep(catalog, records, trackIds, i, stream, maxRetries);
      if run.result.Some? {
        records := records + Lookup(catalog, batch);
      }
      stream := Drop(stream, run.attempts);
      i := next;
    }
    assert trackIds[|trackIds|..] == [];
  }

  // ---------------------------------------------------------------------------
  // Clearing and refilling the target in batches of 100

  /** The target's tracks after each batch whose removal call went through has
      had all its occurrences removed. */
  function ApplyRemovals(p: seq<TrackId>, batches: seq<seq<TrackId>>, runs: seq<RetryRun<()>>): seq<TrackId>
    requires |runs| == |batches|
    decreases |batches|
  {
    if batches == [] then p
    else ApplyRemovals(if runs[0].result.Some? then Without(p, batches[0]) else p, batches[1..], runs[1..])
  }

  /** The target's tracks after each batch whose add call went through has been
      appended. */
  function ApplyAdditions(p: seq<TrackId>, batches: seq<seq<TrackId>>, runs: seq<RetryRun<()>>): seq<TrackId>
    requires |runs| == |batches|
    decreases |batches|
  {
    if batches == [] then p
    else ApplyAdditions(if runs[0].result.Some? then p + batches[0] else p, batches[1..], runs[1..])
  }

  lemma {:induction false} RemovalsAllSucceed(p: seq<TrackId>, batches: seq<seq<TrackId>>, runs: seq<RetryRun<()>>)
    requires |runs| == |batches| && AllSucceeded(runs)
    ensures ApplyRemovals(p, batches, runs) == Without(p, Flatten(batches))
    decreases |batches|
  {
    if batches == [] {
      WithoutNothing(p);
    } else {
      RemovalsAllSucceed(Without(p, batches[0]), batches[1..], runs[1..]);
      WithoutWithout(p, batches[0], Flatten(batches[1..]));
    }
  }

  lemma {:induction false} AdditionsAllSucceed(p: seq<TrackId>, batches: seq<seq<TrackId>>, runs: seq<RetryRun<()>>)
    requires |runs| == |batches| && AllSucceeded(runs)
    ensures ApplyAdditions(p, batches, runs) == p + Flatten(batches)
    decreases |batches|
  {
    if batches == [] {
      assert p + [] == p;
    } else {
      AdditionsAllSucceed(p + batches[0], batches[1..], runs[1..]);
      assert (p + batches[0]) + Flatten(batches[1..]) == p + (batches[0] + Flatten(batches[1..]));
    }
  }

  /** Clear-then-add: when every removal and every add call goes through, the
      target ends up as its tracks not among `current`, followed by `tracks`;
      when `current` covers the target's old tracks, it ends up as exactly
      `tracks`. */
  lemma ClearThenAdd(p: seq<TrackId>, current: seq<TrackId>, tracks: seq<TrackId>,
                     removals: seq<RetryRun<()>>, additions: seq<RetryRun<()>>)
    requires |removals| == |Batches(current, WriteBatch)| && AllSucceeded(removals)
    requires |additions| == |Batches(tracks, WriteBatch)| && AllSucceeded(additions)
    ensures ApplyAdditions(ApplyRemovals(p, Batches(current, WriteBatch), removals), Batches(tracks, WriteBatch), additions)
         == Without(p, current) + tracks
    ensures (forall x :: x in p ==> x in current) ==>
      ApplyAdditions(ApplyRemovals(p, Batches(current, WriteBatch), removals), Batches(tracks, WriteBatch), additions) == tracks
  {
    RemovalsAllSucceed(p, Batches(current, WriteBatch), removals);
    AdditionsAllSucceed(Without(p, current), Batches(tracks, WriteBatch), additions);
    if forall x :: x in p ==> x in current {
      WithoutCovered(p, current);
      assert [] + tracks == tracks;
    }
  }

  /** One turn of the removal loop: the next batch of 100 and its retried call,
      then the batches after it on the answers that call left. */
  lemma RemovalStep(tracks: seq<TrackId>, ids: seq<TrackId>, i: nat, stream: seq<Outcome<()>>, maxRetries: int)
    requires i < |ids|
    ensures var next := Min(i + WriteBatch, |ids|);
      var run := Retry(stream, maxRetries);
      var later := Batches(ids[next..], WriteBatch);
      ApplyRemovals(tracks, Batches(ids[i..], WriteBatch), RetryEach(stream, |Batches(ids[i..], WriteBatch)|, maxRetries))
      == ApplyRemovals(if run.result.Some? then Without(tracks, ids[i..next]) else tracks,
                        later, RetryEach(Drop(stream, run.attempts), |later|, maxRetries))
  {
    var next := Min(i + WriteBatch, |ids|);
    var batch := ids[i..next];
    BatchesStep(ids, i, WriteBatch);
    var run := Retry(stream, maxRetries);
    var later := Batches(ids[next..], WriteBatch);
    var rest := RetryEach(Drop(stream, run.attempts), |later|, maxRetries);
    assert RetryEach(stream, |later| + 1, maxRetries) == [run] + rest;
    assert ([batch] + later)[1..] == later && ([run] + rest)[1..] == rest;
  }

  /** One turn of the add loop: the next batch of 100 and its retried call,
      then the batches after it on the answers that call left. */
  lemma AdditionStep(tracks: seq<TrackId>, ids: seq<TrackId>, i: nat, stream: seq<Outcome<()>>, maxRetries: int)
    requires i < |ids|
    ensures var next := Min(i + WriteBatch, |ids|);
      var run := Retry(stream, maxRetries);
      var later := Batches(ids[next..], WriteBatch);
      ApplyAdditions(tracks, Batches(ids[i..], WriteBatch), RetryEach(stream, |Batches(ids[i..], WriteBatch)|, maxRetries))
      == ApplyAdditions(if run.result.Some? then tracks + ids[i..next] else tracks,
                        later, RetryEach(Drop(stream, run.attempts), |later|, maxRetries))
  {
    var next := Min(i + WriteBatch, |ids|);
    var batch := ids[i..next];
    BatchesStep(ids, i, WriteBatch);
    var run := Retry(stream, maxRetries);
    var later := Batches(ids[next..], WriteBatch);
    var rest := RetryEach(Drop(stream, run.attempts), |later|, maxRetries);
    assert RetryEach(stream, |later| + 1, maxRetries) == [run] + rest;
    assert ([batch] + later)[1..] == later && ([run] + rest)[1..] == rest;
  }

  method RemoveInBatches(target: TargetPlaylist, ids: seq<TrackId>, answers: seq<Outcome<()>>, maxRetries: int)
    modifies target
    ensures target.tracks == ApplyRemovals(old(target.tracks), Batches(ids, WriteBatch),
                                           RetryEach(answers, |Batches(ids, WriteBatch)|, maxRetries))
    ensures target.description == old(target.description) && target.cover == old(target.cover)
  {
    ghost var final := ApplyRemovals(target.tracks, Batches(ids, WriteBatch),
                                     RetryEach(answers, |Batches(ids, WriteBatch)|, maxRetries));
    var stream := answers;
    var i := 0;
    assert ids[0..] == ids;
    while i < |ids|
      invariant i <= |ids|
      invariant ApplyRemovals(target.tracks, Batches(ids[i..], WriteBatch),
                  RetryEach(stream, |Batches(ids[i..], WriteBatch)|, maxRetries)) == final
      invariant target.description == old(target.description) && target.cover == old(target.cover)
      decreases |ids| - i
    {
      var next := Min(i + WriteBatch, |ids|);
      var batch := ids[i..next];
      var run := CallWithRetries(stream, maxRetries);
      RemovalStep(target.tracks, ids, i, stream, maxRetries);
      if run.result.Some? {
        target.RemoveAllOccurrences(batch);
      }
      stream := Drop(stream, run.attempts);
      i := next;
    }
    assert ids[|ids|..] == [];
  }

  method AddInBatches(target: TargetPlaylist, ids: seq<TrackId>, answers: seq<Outcome<()>>, maxRetries: int)
    modifies target
    ensures target.tracks == ApplyAdditions(old(target.tracks), Batches(ids, WriteBatch),
                                            RetryEach(answers, |Batches(ids, WriteBatch)|, maxRetries))
    ensures target.description == old(target.description) && target.cover == old(target.cover)
  {
    ghost var final := ApplyAdditions(target.tracks, Batches(ids, WriteBatch),
                                      RetryEach(answers, |Batches(ids, WriteBatch)|, maxRetries));
    var stream := answers;
    var i := 0;
    assert ids[0..] == ids;
    while i < |ids|
      invariant i <= |ids|
      invariant ApplyAdditions(target.tracks, Batches(ids[i..], WriteBatch),
                  RetryEach(stream, |Batches(ids[i..], WriteBatch)|, maxRetries)) == final
      invariant target.description == old(target.description) && target.cover == old(target.cover)
      decreases |ids| - i
    {
      var next := Min(i + WriteBatch, |ids|);
      var batch := ids[i..next];
      var run := CallWithRetries(stream, maxRetries);
      AdditionStep(target.tracks, ids, i, stream, maxRetries);
      if run.result.Some? {
        target.AddTracks(batch);
      }
      stream := Drop(stream, run.attempts);
      i := next;
    }
    assert ids[|ids|..] == [];
  }

  // ---------------------------------------------------------------------------
  // update_playlist_metadata: the top track, the description, the cover

  /** The top track as the retried `playlist_tracks(limit=1, offset=0)` call
      reports it: None when the call never went through or the playlist's first
      item has no track. */
  function TopTrack(answers: seq<Outcome<Option<TrackInfo>>>, maxRetries: int): Option<TrackInfo>
  {
    var run := Retry(answers, maxRetries);
    if run.result.Some? then run.result.value else None
  }

  /** The artist the description credits. */
  function TopArtist(answers: seq<Outcome<Option<TrackInfo>>>, maxRetries: int): (a: string)
    ensures TopTrack(answers, maxRetries).None? ==> a == DefaultArtist
    ensures TopTrack(answers, maxRetries).Some? ==> a == ArtistOf(TopTrack(answers, maxRetries).value)
    ensures var t := TopTrack(answers, maxRetries);
      t.Some? && |t.value.artists| > 0 ==> a == t.value.artists[0]
  {
    var top := TopTrack(answers, maxRetries);
    if top.Some? then ArtistOf(top.value) else DefaultArtist
  }

  /** The description and cover the metadata step leaves on the target, None
      where it leaves the old one. */
  datatype MetadataWrites = MetadataWrites(description: Option<string>, cover: Option<string>)

  function MetadataPlan(top: seq<Outcome<Option<TrackInfo>>>, descriptionWrites: seq<Outcome<()>>,
                        coverUploads: seq<Outcome<()>>, template: string, email: string, maxRetries: int): (w: MetadataWrites)
    ensures w.description.Some? ==>
      Retry(descriptionWrites, maxRetries).result.Some?
      && SubmissionDescription(template, TopArtist(top, maxRetries), email) == Some(w.description.value)
    ensures w.cover.Some? ==>
      var t := TopTrack(top, maxRetries);
      t.Some? && |t.value.images| > 0 && w.cover.value == t.value.images[0]
      && Retry(coverUploads, maxRetries).result.Some?
    ensures SubmissionDescription(template, TopArtist(top, maxRetries), email).None? ==> w == MetadataWrites(None, None)
    ensures (SubmissionDescription(template, TopArtist(top, maxRetries), email).Some?
             && Retry(descriptionWrites, maxRetries).result.Some?) ==>
      w.description == SubmissionDescription(template, TopArtist(top, maxRetries), email)
    ensures var t := TopTrack(top, maxRetries);
      (SubmissionDescription(template, TopArtist(top, maxRetries), email).Some?
       && t.Some? && |t.value.images| > 0 && Retry(coverUploads, maxRetries).result.Some?) ==>
      w.cover == Some(t.value.images[0])
  {
    var t := TopTrack(top, maxRetries);
    var d := SubmissionDescription(template, TopArtist(top, maxRetries), email);
    if d.None? then MetadataWrites(None, None)
    else
      var written := if Retry(descriptionWrites, maxRetries).result.Some? then d else None;
      var uploaded :=
        if t.Some? && |t.value.images| > 0 && Retry(coverUploads, maxRetries).result.Some? then Some(t.value.images[0])
        else None;
      MetadataWrites(written, uploaded)
  }

  method UpdatePlaylistMetadata(target: TargetPlaylist, top: seq<Outcome<Option<TrackInfo>>>,
                                descriptionWrites: seq<Outcome<()>>, coverUploads: seq<Outcome<()>>,
                                template: string, email: string, maxRetries: int)
    modifies target
    ensures var w := MetadataPlan(top, descriptionWrites, coverUploads, template, email, maxRetries);
      && target.tracks == old(target.tracks)
      && target.description == (if w.description.Some? then w.description.value else old(target.description))
      && target.cover == (if w.cover.Some? then w.cover.value else old(target.cover))
  {
    var topRun := CallWithRetries(top, maxRetries);
    var topTrack: Option<TrackInfo> := None;
    var artist := DefaultArtist;
    if topRun.result.Some? && topRun.result.value.Some? {
      topTrack := topRun.result.value;
      artist := ArtistOf(topTrack.value);
    }
    var description := SubmissionDescription(template, artist, email);
    if description.None? {
      return;
    }
    var written := CallWithRetries(descriptionWrites, maxRetries);
    if written.result.Some? {
      target.ChangeDescription(description.value);
    }
    if topTrack.Some? && |topTrack.value.images| > 0 {
      var uploaded := CallWithRetries(coverUploads, maxRetries);
      if uploaded.result.Some? {
        target.UploadCover(topTrack.value.images[0]);
      }
    }
  }

  // ---------------------------------------------------------------------------
  // update_single_playlist

  /** One playlist's configuration: the source playlists, the priority track
      ids, the description template and the size cap. */
  datatype PlaylistConfig = PlaylistConfig(
    sources: seq<string>, priority: seq<TrackId>, template: string, maxSongs: int)

  /** The global settings: attempts per call and the submission contact. */
  datatype Settings = Settings(maxRetries: int, contactEmail: Option<string>)

  /** `config['global_settings'].get('contact_email', 'default@example.com')` */
  function ContactEmail(s: Settings): string
  {
    if s.contactEmail.Some? then s.contactEmail.value else DefaultEmail
  }

  /** The service's answers, call site by call site, and the catalog the
      metadata calls read. */
  datatype Service = Service(
    sourcePages: seq<Outcome<Page>>,
    firstPage: Outcome<Page>,
    nextPages: seq<Outcome<Page>>,
    catalog: map<TrackId, TrackRecord>,
    metadataCalls: seq<Outcome<()>>,
    removals: seq<Outcome<()>>,
    additions: seq<Outcome<()>>,
    topTrack: seq<Outcome<Option<TrackInfo>>>,
    descriptionWrites: seq<Outcome<()>>,
    coverUploads: seq<Outcome<()>>)

  /** What a run leaves behind: nothing when it skips; otherwise the shuffled
      list, the list sent to the target, the records saved and the date saved
      as the last update. */
  datatype Run = Skipped | Updated(shuffled: seq<TrackId>, tracks: seq<TrackId>, records: seq<TrackRecord>, saved: Date)

  /** The tracks read from the target (the corrected read). */
  function CurrentOf(svc: Service, maxRetries: int): seq<TrackId>
  {
    FetchCorrected(svc.firstPage, svc.nextPages, maxRetries).tracks
  }

  /** priority + current + new, duplicates removed. */
  function AllTracksOf(svc: Service, cfg: PlaylistConfig, maxRetries: int): seq<TrackId>
  {
    var current := CurrentOf(svc, maxRetries);
    var sources := Dedup(SourceIds(RetryEach(svc.sourcePages, |cfg.sources|, maxRetries)));
    Combined(cfg.priority, current, Without(sources, current))
  }

  method UpdateSinglePlaylist(target: TargetPlaylist, cfg: PlaylistConfig, settings: Settings, svc: Service,
                              today: Date, lastUpdate: Option<Date>, draws: seq<nat>)
    returns (run: Run)
    modifies target
    ensures run.Skipped? <==> UpdatedOn(lastUpdate, today)
    ensures run.Skipped? ==>
      target.tracks == old(target.tracks) && target.description == old(target.description) && target.cover == old(target.cover)
    ensures run.Updated? ==>
      var m := settings.maxRetries;
      var current := CurrentOf(svc, m);
      var all := AllTracksOf(svc, cfg, m);
      var fetched := FetchedRecords(svc.catalog, [], Batches(all, MetadataBatch),
                                    RetryEach(svc.metadataCalls, |Batches(all, MetadataBatch)|, m));
      && run.saved == today
      && multiset(run.shuffled) == multiset(all)
      && run.tracks == Trim(run.shuffled, cfg.maxSongs)
      && NoDups(run.tracks)
      && (cfg.maxSongs >= 0 ==> |run.tracks| <= cfg.maxSongs)
      && (forall x :: x in run.tracks ==> x in all)
      && run.records == (if |all| > cfg.maxSongs then FilterRecords(fetched, run.tracks) else fetched)
      && target.tracks == ApplyAdditions(
           ApplyRemovals(old(target.tracks), Batches(current, WriteBatch),
                         RetryEach(svc.removals, |Batches(current, WriteBatch)|, m)),
           Batches(run.tracks, WriteBatch),
           RetryEach(svc.additions, |Batches(run.tracks, WriteBatch)|, m))
    ensures run.Updated? ==>
      var w := MetadataPlan(svc.topTrack, svc.descriptionWrites, svc.coverUploads, cfg.template,
                            ContactEmail(settings), settings.maxRetries);
      && target.description == (if w.description.Some? then w.description.value else old(target.description))
      && target.cover == (if w.cover.Some? then w.cover.value else old(target.cover))
  {
    if UpdatedOn(lastUpdate, today) {
      return Skipped;
    }
    var m := settings.maxRetries;
    var sourceTracks := FetchTracksFromSources(svc.sourcePages, cfg.sources, m);
    var fetched := FetchCurrentPlaylistTracks(svc.firstPage, svc.nextPages, m);
    var current := fetched.tracks;
    var newTracks := Without(sourceTracks, current);
    var all := Combined(cfg.priority, current, newTracks);
    CombinedEachOnce(cfg.priority, current, newTracks);
    var records := FetchTrackMetadata(all, svc.catalog, svc.metadataCalls, m);

    var a := new TrackId[|all|](i requires 0 <= i < |all| => all[i]);
    assert a[..] == all;
    ShuffleTracks(a, draws);
    var shuffled := a[..];
    PermutationKeepsDistinct(all, shuffled);
    var tracks := shuffled;
    if |shuffled| > cfg.maxSongs {
      tracks := Trim(shuffled, cfg.maxSongs);
      records := FilterRecords(records, tracks);
    }
    TrimKeepsDistinct(shuffled, cfg.maxSongs);

    ghost var before := target.tracks;
    if current != [] {
      RemoveInBatches(target, current, svc.removals, m);
    } else {
      assert Batches(current, WriteBatch) == [];
    }
    AddInBatches(target, tracks, svc.additions, m);
    UpdatePlaylistMetadata(target, svc.topTrack, svc.descriptionWrites, svc.coverUploads, cfg.template, ContactEmail(settings), m);
    return Updated(shuffled, tracks, records, today);
  }

  /** The size cap is applied after the shuffle, not by priority: a priority
      track can be left out of the playlist. */
  lemma PriorityTrackCanBeTrimmed()
    ensures var all := Combined(["p"], [], ["a"]);
      multiset(all) == multiset(["a", "p"]) && "p" !in Trim(["a", "p"], 1)
  {
    var all := Combined(["p"], [], ["a"]);
    assert ["p"] + [] + ["a"] == ["p", "a"];
    assert Dedup(["p"]) == ["p"];
    assert ["p", "a"][..1] == ["p"];
    assert all == ["p", "a"];
  }
}
