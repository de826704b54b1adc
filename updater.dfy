/** main.py: the single-playlist updater run once a week.  It loads the
    priority songs, passes its run gates (Saturday, not yet updated today,
    online, a client, its settings), reads the target and the source playlist,
    rebuilds the target with one remove call and one add call, and rewrites the
    description and cover from the playlist's top track. */
module Updater {
  import opened Answers
  import opened TrackLists
  import opened Paging
  import opened Describe
  import opened Remote
  import opened Shuffle
  import opened Calendar

  /** MAX_RETRIES: connectivity probes and description attempts. */
  const MaxRetries: nat := 3
  /** MAX_SONGS: the size cap of the target playlist. */
  const MaxSongs: nat := 70
  /** Seconds slept after a failed connectivity probe or description attempt. */
  const RetryDelay: nat := 2
  /** How many leading positions of the target are tried for a top track. */
  const Offsets: nat := 3

  // ---------------------------------------------------------------------------
  // load_priority_songs

  /** One entry of the priority songs file: the keys it carries, with their
      values. */
  datatype SongEntry = SongEntry(fields: map<string, string>)

  /** The parsed priority songs file: the list under "priority_songs", None
      when the key is missing. */
  datatype PriorityFile = PriorityFile(songs: Option<seq<SongEntry>>)

  /** An entry counts when it names the track id, the song and the artist. */
  predicate ValidEntry(e: SongEntry)
  {
    "track_id" in e.fields && "song_name" in e.fields && "artist_name" in e.fields
  }

  /** The track ids of the valid entries, in file order. */
  function ValidIds(entries: seq<SongEntry>): (ids: seq<TrackId>)
    ensures |ids| <= |entries|
  {
    if entries == [] then []
    else (if ValidEntry(entries[0]) then [entries[0].fields["track_id"]] else []) + ValidIds(entries[1..])
  }

  /** The priority track ids: none when the file is missing or not JSON (None)
      or has no "priority_songs" list. */
  function LoadPrioritySongs(file: Option<PriorityFile>): seq<TrackId>
  {
    if file.Some? && file.value.songs.Some? then ValidIds(file.value.songs.value) else []
  }

  /** The filter keeps file order: it distributes over concatenation. */
  lemma {:induction false} ValidIdsAppend(a: seq<SongEntry>, b: seq<SongEntry>)
    ensures ValidIds(a + b) == ValidIds(a) + ValidIds(b)
  {
    if a == [] {
      assert a + b == b;
    } else {
      var head := if ValidEntry(a[0]) then [a[0].fields["track_id"]] else [];
      assert (a + b)[0] == a[0];
      assert (a + b)[1..] == a[1..] + b;
      assert ValidIds(a + b) == head + ValidIds(a[1..] + b);
      ValidIdsAppend(a[1..], b);
      assert head + (ValidIds(a[1..]) + ValidIds(b)) == (head + ValidIds(a[1..])) + ValidIds(b);
    }
  }

  /** An id is loaded exactly when some valid entry carries it. */
  lemma {:induction false} ValidIdsMembers(entries: seq<SongEntry>, x: TrackId)
    ensures x in ValidIds(entries) <==>
      exists i :: 0 <= i < |entries| && ValidEntry(entries[i]) && entries[i].fields["track_id"] == x
  {
    if entries != [] {
      ValidIdsMembers(entries[1..], x);
      if x in ValidIds(entries[1..]) {
        var i :| 0 <= i < |entries[1..]| && ValidEntry(entries[1..][i]) && entries[1..][i].fields["track_id"] == x;
        assert entries[i + 1] == entries[1..][i];
      }
      if exists i :: 0 <= i < |entries| && ValidEntry(entries[i]) && entries[i].fields["track_id"] == x {
        var i :| 0 <= i < |entries| && ValidEntry(entries[i]) && entries[i].fields["track_id"] == x;
        if i > 0 {
          assert entries[1..][i - 1] == entries[i];
        }
      }
    }
  }

  /** A file of valid entries only loads every id, one per entry, in order. */
  lemma {:induction false} AllEntriesValid(entries: seq<SongEntry>)
    requires forall i :: 0 <= i < |entries| ==> ValidEntry(entries[i])
    ensures |ValidIds(entries)| == |entries|
    ensures forall i :: 0 <= i < |entries| ==>
      "track_id" in entries[i].fields && ValidIds(entries)[i] == entries[i].fields["track_id"]
  {
    if entries != [] {
      AllEntriesValid(entries[1..]);
    }
  }

  /** An entry that lacks one of the three keys is skipped without a trace. */
  lemma InvalidEntrySkipped(before: seq<SongEntry>, e: SongEntry, after: seq<SongEntry>)
    requires !ValidEntry(e)
    ensures ValidIds(before + [e] + after) == ValidIds(before + after)
  {
    ValidIdsAppend(before + [e], after);
    ValidIdsAppend(before, [e]);
    ValidIdsAppend(before, after);
    assert [e][1..] == [];
    assert ValidIds(before) + [] == ValidIds(before);
  }

  // ---------------------------------------------------------------------------
  // is_connected

  /** The answer to the k-th probe: true when it reached the network; a probe
      past the end of the recorded answers fails. */
  function ProbeAt(probes: seq<bool>, k: nat): bool
  {
    k < |probes| && probes[k]
  }

  /** The verdict, the probes made and the seconds slept. */
  datatype Connectivity = Connectivity(connected: bool, attempts: nat, sleeps: seq<nat>)

  /** The probes from `attempt` on. */
  function ConnectivityFrom(probes: seq<bool>, attempt: nat): Connectivity
    decreases MaxRetries - attempt
  {
    if attempt >= MaxRetries then Connectivity(false, attempt, [])
    else if ProbeAt(probes, attempt) then Connectivity(true, attempt + 1, [])
    else
      var rest := ConnectivityFrom(probes, attempt + 1);
      rest.(sleeps := [RetryDelay] + rest.sleeps)
  }

  function ConnectionCheck(probes: seq<bool>): Connectivity
  {
    ConnectivityFrom(probes, 0)
  }

  /** A check that had already slept `slept` before going on as `rest`. */
  function AfterDelays(slept: seq<nat>, rest: Connectivity): Connectivity
  {
    rest.(sleeps := slept + rest.sleeps)
  }

  lemma {:induction false} ConnectivityFromFacts(probes: seq<bool>, attempt: nat)
    requires attempt <= MaxRetries
    ensures var c := ConnectivityFrom(probes, attempt);
      && attempt <= c.attempts <= MaxRetries
      && (c.connected <==> exists k :: attempt <= k < MaxRetries && ProbeAt(probes, k))
      && (c.connected ==> ProbeAt(probes, c.attempts - 1))
      && (forall k :: attempt <= k < c.attempts - 1 ==> !ProbeAt(probes, k))
      && (!c.connected ==> c.attempts == MaxRetries)
      && |c.sleeps| == c.attempts - attempt - (if c.connected then 1 else 0)
      && (forall k :: 0 <= k < |c.sleeps| ==> c.sleeps[k] == RetryDelay)
    decreases MaxRetries - attempt
  {
    if attempt < MaxRetries && !ProbeAt(probes, attempt) {
      ConnectivityFromFacts(probes, attempt + 1);
    }
  }

  /** At most MAX_RETRIES probes; connected exactly when one of them reaches
      the network, and then the first such probe ends the check; two seconds
      are slept after every probe that fails, the last one included. */
  lemma ConnectionCheckContract(probes: seq<bool>)
    ensures var c := ConnectionCheck(probes);
      && 1 <= c.attempts <= MaxRetries
      && (c.connected <==> exists k :: 0 <= k < MaxRetries && ProbeAt(probes, k))
      && (c.connected ==> ProbeAt(probes, c.attempts - 1))
      && (forall k :: 0 <= k < c.attempts - 1 ==> !ProbeAt(probes, k))
      && (!c.connected ==> c.attempts == MaxRetries && |c.sleeps| == MaxRetries)
      && (c.connected ==> |c.sleeps| == c.attempts - 1)
      && (forall k :: 0 <= k < |c.sleeps| ==> c.sleeps[k] == RetryDelay)
  {
    ConnectivityFromFacts(probes, 0);
  }

  method IsConnected(probes: seq<bool>) returns (c: Connectivity)
    ensures c == ConnectionCheck(probes)
  {
    var slept: seq<nat> := [];
    var attempt: nat := 0;
    while attempt < MaxRetries
      invariant attempt <= MaxRetries
      invariant ConnectionCheck(probes) == AfterDelays(slept, ConnectivityFrom(probes, attempt))
      decreases MaxRetries - attempt
    {
      if ProbeAt(probes, attempt) {
        assert slept + [] == slept;
        return Connectivity(true, attempt + 1, slept);
      }
      var rest := ConnectivityFrom(probes, attempt + 1);
      assert ConnectivityFrom(probes, attempt) == rest.(sleeps := [RetryDelay] + rest.sleeps);
      assert slept + ([RetryDelay] + rest.sleeps) == (slept + [RetryDelay]) + rest.sleeps;
      assert AfterDelays(slept, ConnectivityFrom(probes, attempt)) == AfterDelays(slept + [RetryDelay], rest);
      slept := slept + [RetryDelay];
      attempt := attempt + 1;
    }
    assert slept + [] == slept;
    return Connectivity(false, attempt, slept);
  }

  // ---------------------------------------------------------------------------
  // update_playlist_metadata: the description from the top track, then the
  // cover

  /** The service's answers to the metadata calls, each kind in call order:
      `playlist_tracks(limit=1, offset=...)` (the track at that position, None
      when there is no valid track there), `track(id)`, `playlist_change_details`
      and the cover upload (the image download included). */
  datatype MetadataService = MetadataService(
    listings: seq<Outcome<Option<TrackInfo>>>,
    lookups: seq<Outcome<TrackInfo>>,
    detailWrites: seq<Outcome<()>>,
    uploads: seq<Outcome<()>>)

  /** How many answers of each kind have been used. */
  datatype Used = Used(listings: nat, lookups: nat, writes: nat, uploads: nat)

  const NoCalls: Used := Used(0, 0, 0, 0)

  /** Where one description attempt leaves things: the text written (None when
      the attempt raised), the artist name in hand and the answers used. */
  datatype Attempt = Attempt(written: Option<string>, artist: string, used: Used)

  /** `description_template.format(artist_name)` and `playlist_change_details`;
      the artist is taken before formatting, so it is kept even when either
      step raises. */
  function WriteDescription(template: string, artist: string, svc: MetadataService, used: Used): Attempt
  {
    var text := Format(template, artist);
    if text.None? then Attempt(None, artist, used)
    else
      var after := used.(writes := used.writes + 1);
      if Answer(svc.detailWrites, used.writes).Ok? then Attempt(Some(text.value), artist, after)
      else Attempt(None, artist, after)
  }

  /** The offset loop from `offset` on: the first position holding a valid
      track names the artist; a call that raises ends the attempt; when no
      position does, the fallback. */
  function ScanForArtist(template: string, allTracks: seq<TrackId>, svc: MetadataService,
                         offset: nat, artist: string, used: Used): Attempt
    decreases Offsets - offset
  {
    if offset >= Offsets then Fallback(template, allTracks, svc, artist, used)
    else
      var after := used.(listings := used.listings + 1);
      var answer: Outcome<Option<TrackInfo>> := Answer(svc.listings, used.listings);
      match answer
      case Ok(None) => ScanForArtist(template, allTracks, svc, offset + 1, artist, after)
      case Ok(Some(t)) => WriteDescription(template, ArtistOf(t), svc, after)
      case _ => Attempt(None, artist, after)
  }

  /** The `else` of the offset loop: the artist of the first track to be
      added, looked up by id, or the artist name in hand when there is none. */
  function Fallback(template: string, allTracks: seq<TrackId>, svc: MetadataService, artist: string, used: Used): Attempt
  {
    if allTracks == [] then WriteDescription(template, artist, svc, used)
    else
      var after := used.(lookups := used.lookups + 1);
      match Answer(svc.lookups, used.lookups)
      case Ok(t) => WriteDescription(template, ArtistOf(t), svc, after)
      case _ => Attempt(None, artist, after)
  }

  /** How the description step ends: a text written, or an exception that
      leaves `update_playlist_metadata`. */
  datatype DescriptionOutcome = Written(text: string) | Raised

  datatype DescriptionRun = DescriptionRun(outcome: DescriptionOutcome, artist: string, sleeps: seq<nat>, used: Used)

  /** The attempts from `attempt` on: an attempt that writes ends the step; a
      failed attempt sleeps two seconds before the next; after the last one
      fails, the template is formatted with the artist name in hand and
      written once more, and an exception there is not caught. */
  function DescribeFrom(template: string, allTracks: seq<TrackId>, svc: MetadataService,
                        attempt: nat, artist: string, sleeps: seq<nat>, used: Used): DescriptionRun
    requires attempt < MaxRetries
    decreases MaxRetries - attempt
  {
    var a := ScanForArtist(template, allTracks, svc, 0, artist, used);
    if a.written.Some? then DescriptionRun(Written(a.written.value), a.artist, sleeps, a.used)
    else if attempt < MaxRetries - 1 then
      DescribeFrom(template, allTracks, svc, attempt + 1, a.artist, sleeps + [RetryDelay], a.used)
    else
      var last := WriteDescription(template, a.artist, svc, a.used);
      DescriptionRun(if last.written.Some? then Written(last.written.value) else Raised, last.artist, sleeps, last.used)
  }

  function Description(template: string, allTracks: seq<TrackId>, svc: MetadataService): DescriptionRun
  {
    DescribeFrom(template, allTracks, svc, 0, DefaultArtist, [], NoCalls)
  }

  /** The cover loop from `offset` on: the first position holding a valid
      track with album images has its first image uploaded; a valid track
      without images moves on to the next position; when no position yields
      an upload, the first track to be added is looked up instead.  None when
      no cover is uploaded (every exception here is swallowed). */
  function CoverFrom(allTracks: seq<TrackId>, svc: MetadataService, offset: nat, used: Used): Option<string>
    decreases Offsets - offset
  {
    if offset >= Offsets then CoverFallback(allTracks, svc, used)
    else
      var after := used.(listings := used.listings + 1);
      var answer: Outcome<Option<TrackInfo>> := Answer(svc.listings, used.listings);
      match answer
      case Ok(None) => CoverFrom(allTracks, svc, offset + 1, after)
      case Ok(Some(t)) =>
        if |t.images| > 0 then UploadImage(t, svc, after)
        else CoverFrom(allTracks, svc, offset + 1, after)
      case _ => None
  }

  /** The `else` of the cover loop. */
  function CoverFallback(allTracks: seq<TrackId>, svc: MetadataService, used: Used): Option<string>
  {
    if allTracks == [] then None
    else match Answer(svc.lookups, used.lookups)
      case Ok(t) =>
        if |t.images| > 0 then UploadImage(t, svc, used.(lookups := used.lookups + 1)) else None
      case _ => None
  }

  /** Downloading the track's first album image and uploading it. */
  function UploadImage(t: TrackInfo, svc: MetadataService, used: Used): Option<string>
    requires |t.images| > 0
  {
    if Answer(svc.uploads, used.uploads).Ok? then Some(t.images[0]) else None
  }

  /** What the metadata step does to the target: the description and cover it
      leaves (None where it leaves the old one), whether it raised, the
      artist it settled on and the seconds it slept. */
  datatype MetadataRun = MetadataRun(description: Option<string>, cover: Option<string>, raised: bool,
                                     artist: string, sleeps: seq<nat>)

  /** `update_playlist_metadata(sp, target, all_tracks)` with the
      PLAYLIST_DESCRIPTION setting `template` (None when unset). */
  function MetadataPlan(template: Option<string>, allTracks: seq<TrackId>, svc: MetadataService): MetadataRun
  {
    if template.None? || !ContainsSlot(template.value) then MetadataRun(None, None, false, DefaultArtist, [])
    else
      var d := Description(template.value, allTracks, svc);
      if d.outcome.Raised? then MetadataRun(None, None, true, d.artist, d.sleeps)
      else MetadataRun(Some(d.outcome.text), CoverFrom(allTracks, svc, 0, d.used), false, d.artist, d.sleeps)
  }

  /** Formats the description and sends it. */
  method SendDescription(target: TargetPlaylist, template: string, artist: string, svc: MetadataService, used: Used)
    returns (a: Attempt)
    modifies target
    ensures a == WriteDescription(template, artist, svc, used)
    ensures target.tracks == old(target.tracks) && target.cover == old(target.cover)
    ensures target.description == if a.written.Some? then a.written.value else old(target.description)
  {
    var text := Format(template, artist);
    if text.None? {
      return Attempt(None, artist, used);
    }
    var answer := Answer(svc.detailWrites, used.writes);
    if answer.Ok? {
      target.ChangeDescription(text.value);
      return Attempt(Some(text.value), artist, used.(writes := used.writes + 1));
    }
    return Attempt(None, artist, used.(writes := used.writes + 1));
  }

  /** The body of one description attempt: `for offset in range(3)` with its
      `else`; an exception ends the attempt. */
  method TryDescription(target: TargetPlaylist, template: string, allTracks: seq<TrackId>, svc: MetadataService,
                        artist: string, used0: Used)
    returns (a: Attempt)
    modifies target
    ensures a == ScanForArtist(template, allTracks, svc, 0, artist, used0)
    ensures target.tracks == old(target.tracks) && target.cover == old(target.cover)
    ensures target.description == if a.written.Some? then a.written.value else old(target.description)
  {
    var used := used0;
    var offset: nat := 0;
    while offset < Offsets
      invariant offset <= Offsets
      invariant ScanForArtist(template, allTracks, svc, 0, artist, used0) == ScanForArtist(template, allTracks, svc, offset, artist, used)
      invariant target.tracks == old(target.tracks) && target.description == old(target.description)
      invariant target.cover == old(target.cover)
      decreases Offsets - offset
    {
      var answer := Answer(svc.listings, used.listings);
      used := used.(listings := used.listings + 1);
      if !answer.Ok? {
        return Attempt(None, artist, used);
      }
      if answer.value.Some? {
        a := SendDescription(target, template, ArtistOf(answer.value.value), svc, used);
        return;
      }
      offset := offset + 1;
    }
    if allTracks == [] {
      a := SendDescription(target, template, artist, svc, used);
      return;
    }
    var found := Answer(svc.lookups, used.lookups);
    used := used.(lookups := used.lookups + 1);
    if !found.Ok? {
      return Attempt(None, artist, used);
    }
    a := SendDescription(target, template, ArtistOf(found.value), svc, used);
  }

  /** The description step: `for attempt in range(MAX_RETRIES)` around the
      attempt, with the final write of the `except` branch. */
  method DescribeTopArtist(target: TargetPlaylist, template: string, allTracks: seq<TrackId>, svc: MetadataService)
    returns (d: DescriptionRun)
    modifies target
    ensures d == Description(template, allTracks, svc)
    ensures target.tracks == old(target.tracks) && target.cover == old(target.cover)
    ensures target.description == if d.outcome.Written? then d.outcome.text else old(target.description)
  {
    var artist := DefaultArtist;
    var used := NoCalls;
    var slept: seq<nat> := [];
    var attempt: nat := 0;
    while true
      invariant attempt < MaxRetries
      invariant Description(template, allTracks, svc) == DescribeFrom(template, allTracks, svc, attempt, artist, slept, used)
      invariant target.tracks == old(target.tracks) && target.description == old(target.description)
      invariant target.cover == old(target.cover)
      decreases MaxRetries - attempt
    {
      var a := TryDescription(target, template, allTracks, svc, artist, used);
      if a.written.Some? {
        return DescriptionRun(Written(a.written.value), a.artist, slept, a.used);
      }
      artist := a.artist;
      used := a.used;
      if attempt < MaxRetries - 1 {
        slept := slept + [RetryDelay];
        attempt := attempt + 1;
      } else {
        var last := SendDescription(target, template, artist, svc, used);
        return DescriptionRun(if last.written.Some? then Written(last.written.value) else Raised, last.artist, slept, last.used);
      }
    }
  }

  /** Downloads the track's first album image and uploads it as the cover. */
  method SendCover(target: TargetPlaylist, t: TrackInfo, svc: MetadataService, used: Used) returns (cover: Option<string>)
    requires |t.images| > 0
    modifies target
    ensures cover == UploadImage(t, svc, used)
    ensures target.tracks == old(target.tracks) && target.description == old(target.description)
    ensures target.cover == if cover.Some? then cover.value else old(target.cover)
  {
    if Answer(svc.uploads, used.uploads).Ok? {
      target.UploadCover(t.images[0]);
      return Some(t.images[0]);
    }
    return None;
  }

  /** The cover step: `for offset in range(3)` with its `else`, inside a
      `try` that swallows every exception. */
  method UpdateCover(target: TargetPlaylist, allTracks: seq<TrackId>, svc: MetadataService, used0: Used)
    returns (cover: Option<string>)
    modifies target
    ensures cover == CoverFrom(allTracks, svc, 0, used0)
    ensures target.tracks == old(target.tracks) && target.description == old(target.description)
    ensures target.cover == if cover.Some? then cover.value else old(target.cover)
  {
    var used := used0;
    var offset: nat := 0;
    while offset < Offsets
      invariant offset <= Offsets
      invariant CoverFrom(allTracks, svc, 0, used0) == CoverFrom(allTracks, svc, offset, used)
      invariant target.tracks == old(target.tracks) && target.description == old(target.description)
      invariant target.cover == old(target.cover)
      decreases Offsets - offset
    {
      var answer := Answer(svc.listings, used.listings);
      used := used.(listings := used.listings + 1);
      if !answer.Ok? {
        return None;
      }
      if answer.value.Some? && |answer.value.value.images| > 0 {
        cover := SendCover(target, answer.value.value, svc, used);
        return;
      }
      offset := offset + 1;
    }
    if allTracks == [] {
      return None;
    }
    var found := Answer(svc.lookups, used.lookups);
    if !found.Ok? || |found.value.images| == 0 {
      return None;
    }
    cover := SendCover(target, found.value, svc, used.(lookups := used.lookups + 1));
  }

  method UpdatePlaylistMetadata(target: TargetPlaylist, template: Option<string>, allTracks: seq<TrackId>,
                                svc: MetadataService)
    returns (run: MetadataRun)
    modifies target
    ensures run == MetadataPlan(template, allTracks, svc)
    ensures target.tracks == old(target.tracks)
    ensures target.description == if run.description.Some? then run.description.value else old(target.description)
    ensures target.cover == if run.cover.Some? then run.cover.value else old(target.cover)
  {
    if template.None? || !ContainsSlot(template.value) {
      return MetadataRun(None, None, false, DefaultArtist, []);
    }
    var d := DescribeTopArtist(target, template.value, allTracks, svc);
    if d.outcome.Raised? {
      return MetadataRun(None, None, true, d.artist, d.sleeps);
    }
    var cover := UpdateCover(target, allTracks, svc, d.used);
    return MetadataRun(Some(d.outcome.text), cover, false, d.artist, d.sleeps);
  }

  // ---------------------------------------------------------------------------
  // What the metadata step promises

  /** A missing template, or one without "{}", returns before any call: the
      service's answers do not matter and nothing is written. */
  lemma InvalidTemplateMakesNoCalls(template: Option<string>, allTracks: seq<TrackId>,
                                    svc: MetadataService, other: MetadataService)
    requires template.None? || !ContainsSlot(template.value)
    ensures MetadataPlan(template, allTracks, svc) == MetadataPlan(template, allTracks, other)
    ensures MetadataPlan(template, allTracks, svc) == MetadataRun(None, None, false, DefaultArtist, [])
  {
  }

  /** Positions without a valid track are passed over, one listing call each. */
  lemma {:induction false} ScanPastEmpty(template: string, allTracks: seq<TrackId>, svc: MetadataService,
                                         offset: nat, k: nat, artist: string, used: Used)
    requires offset <= k <= Offsets
    requires forall j :: used.listings <= j < used.listings + (k - offset) ==> Answer(svc.listings, j) == Ok(None)
    ensures ScanForArtist(template, allTracks, svc, offset, artist, used)
         == ScanForArtist(template, allTracks, svc, k, artist, used.(listings := used.listings + (k - offset)))
    decreases k - offset
  {
    if offset < k {
      assert Answer(svc.listings, used.listings) == Ok(None);
      ScanPastEmpty(template, allTracks, svc, offset + 1, k, artist, used.(listings := used.listings + 1));
    }
  }

  /** Offsets are tried in order and the first one holding a valid track names
      the artist of the description. */
  lemma FirstValidOffsetDescribes(template: string, allTracks: seq<TrackId>, svc: MetadataService, k: nat, t: TrackInfo)
    requires ContainsSlot(template) && Format(template, ArtistOf(t)).Some?
    requires k < Offsets
    requires forall j :: 0 <= j < k ==> Answer(svc.listings, j) == Ok(None)
    requires Answer(svc.listings, k) == Ok(Some(t))
    requires Answer(svc.detailWrites, 0).Ok?
    ensures var run := MetadataPlan(Some(template), allTracks, svc);
      run.description == Format(template, ArtistOf(t)) && run.artist == ArtistOf(t) && run.sleeps == [] && !run.raised
  {
    ScanPastEmpty(template, allTracks, svc, 0, k, DefaultArtist, NoCalls);
  }

  /** When none of the three positions holds a valid track, the artist of the
      first track to be added names the description. */
  lemma FallbackDescribes(template: string, allTracks: seq<TrackId>, svc: MetadataService, t: TrackInfo)
    requires ContainsSlot(template) && Format(template, ArtistOf(t)).Some?
    requires forall j :: 0 <= j < Offsets ==> Answer(svc.listings, j) == Ok(None)
    requires allTracks != [] && Answer(svc.lookups, 0) == Ok(t)
    requires Answer(svc.detailWrites, 0).Ok?
    ensures var run := MetadataPlan(Some(template), allTracks, svc);
      run.description == Format(template, ArtistOf(t)) && run.artist == ArtistOf(t) && run.sleeps == []
  {
    ScanPastEmpty(template, allTracks, svc, 0, Offsets, DefaultArtist, NoCalls);
  }

  /** With no valid track and nothing to add, the description credits
      "Unknown Artist". */
  lemma DefaultArtistDescribes(template: string, svc: MetadataService)
    requires ContainsSlot(template) && Format(template, DefaultArtist).Some?
    requires forall j :: 0 <= j < Offsets ==> Answer(svc.listings, j) == Ok(None)
    requires Answer(svc.detailWrites, 0).Ok?
    ensures var run := MetadataPlan(Some(template), [], svc);
      run.description == Format(template, DefaultArtist) && run.artist == DefaultArtist
  {
    ScanPastEmpty(template, [], svc, 0, Offsets, DefaultArtist, NoCalls);
  }

  /** The artist name found by an attempt whose write then fails is kept:
      when the later attempts raise, the final write of the `except` branch
      still credits it, after two sleeps of two seconds. */
  lemma ArtistSurvivesFailedAttempts(template: string, allTracks: seq<TrackId>, svc: MetadataService, t: TrackInfo)
    requires ContainsSlot(template) && Format(template, ArtistOf(t)).Some?
    requires Answer(svc.listings, 0) == Ok(Some(t)) && !Answer(svc.detailWrites, 0).Ok?
    requires !Answer(svc.listings, 1).Ok? && !Answer(svc.listings, 2).Ok?
    requires Answer(svc.detailWrites, 1).Ok?
    ensures var run := MetadataPlan(Some(template), allTracks, svc);
      run.description == Format(template, ArtistOf(t)) && run.sleeps == [RetryDelay, RetryDelay]
  {
    var artist := ArtistOf(t);
    var first := ScanForArtist(template, allTracks, svc, 0, DefaultArtist, NoCalls);
    assert first == Attempt(None, artist, Used(1, 0, 1, 0));
    var second := ScanForArtist(template, allTracks, svc, 0, artist, Used(1, 0, 1, 0));
    assert second == Attempt(None, artist, Used(2, 0, 1, 0));
    var third := ScanForArtist(template, allTracks, svc, 0, artist, Used(2, 0, 1, 0));
    assert third == Attempt(None, artist, Used(3, 0, 1, 0));
    assert [] + [RetryDelay] + [RetryDelay] == [RetryDelay, RetryDelay];
  }

  /** An attempt that writes, writes the template formatted with the artist
      it settled on. */
  lemma {:induction false} AttemptWritesFormatted(template: string, allTracks: seq<TrackId>, svc: MetadataService,
                                                  offset: nat, artist: string, used: Used)
    ensures var a := ScanForArtist(template, allTracks, svc, offset, artist, used);
      a.written.Some? ==> Format(template, a.artist) == a.written
    decreases Offsets - offset
  {
    if offset < Offsets && Answer(svc.listings, used.listings) == Ok(None) {
      AttemptWritesFormatted(template, allTracks, svc, offset + 1, artist, used.(listings := used.listings + 1));
    }
  }

  lemma {:induction false} DescribeFromFacts(template: string, allTracks: seq<TrackId>, svc: MetadataService,
                                             attempt: nat, artist: string, sleeps: seq<nat>, used: Used)
    requires attempt < MaxRetries
    requires |sleeps| == attempt && forall k :: 0 <= k < |sleeps| ==> sleeps[k] == RetryDelay
    ensures var d := DescribeFrom(template, allTracks, svc, attempt, artist, sleeps, used);
      && |d.sleeps| <= MaxRetries - 1
      && (forall k :: 0 <= k < |d.sleeps| ==> d.sleeps[k] == RetryDelay)
      && (d.outcome.Written? ==> Format(template, d.artist) == Some(d.outcome.text))
    decreases MaxRetries - attempt
  {
    AttemptWritesFormatted(template, allTracks, svc, 0, artist, used);
    var a := ScanForArtist(template, allTracks, svc, 0, artist, used);
    if a.written.None? && attempt < MaxRetries - 1 {
      DescribeFromFacts(template, allTracks, svc, attempt + 1, a.artist, sleeps + [RetryDelay], a.used);
    }
  }

  /** Whatever the service answers, the description written is the template
      formatted with the artist the step settled on, and the step sleeps at
      most twice, two seconds each time. */
  lemma DescriptionIsFormatted(template: Option<string>, allTracks: seq<TrackId>, svc: MetadataService)
    requires template.Some?
    ensures var run := MetadataPlan(template, allTracks, svc);
      && (run.description.Some? ==> Format(template.value, run.artist) == run.description)
      && |run.sleeps| <= MaxRetries - 1
      && (forall k :: 0 <= k < |run.sleeps| ==> run.sleeps[k] == RetryDelay)
      && (run.cover.Some? ==> run.description.Some?)
  {
    DescribeFromFacts(template.value, allTracks, svc, 0, DefaultArtist, [], NoCalls);
  }

  /** A template with two "{}" passes the "{}" check but every format call
      raises, the last one out of the metadata step. */
  lemma TwoFieldTemplateRaises(template: string, i: int, j: int, allTracks: seq<TrackId>, svc: MetadataService)
    requires SlotAt(template, i) && SlotAt(template, j) && i + 2 <= j
    ensures MetadataPlan(Some(template), allTracks, svc).raised
  {
    assert ContainsSlot(template);
    DescribeFromFacts(template, allTracks, svc, 0, DefaultArtist, [], NoCalls);
    var d := Description(template, allTracks, svc);
    FormatTwoSlots(template, i, j, d.artist);
  }

  /** A listing answer the cover loop passes over: no valid track, or a valid
      track without album images. */
  predicate PassedOver(o: Outcome<Option<TrackInfo>>)
  {
    o.Ok? && (o.value.None? || |o.value.value.images| == 0)
  }

  lemma {:induction false} CoverPastImageless(allTracks: seq<TrackId>, svc: MetadataService, offset: nat, k: nat, used: Used)
    requires offset <= k <= Offsets
    requires forall j :: used.listings <= j < used.listings + (k - offset) ==> PassedOver(Answer(svc.listings, j))
    ensures CoverFrom(allTracks, svc, offset, used)
         == CoverFrom(allTracks, svc, k, used.(listings := used.listings + (k - offset)))
    decreases k - offset
  {
    if offset < k {
      assert PassedOver(Answer(svc.listings, used.listings));
      CoverPastImageless(allTracks, svc, offset + 1, k, used.(listings := used.listings + 1));
    }
  }

  /** The cover is the first album image of the first position holding a
      valid track with images. */
  lemma FirstImageBecomesCover(allTracks: seq<TrackId>, svc: MetadataService, used: Used, k: nat, t: TrackInfo)
    requires k < Offsets
    requires forall j :: used.listings <= j < used.listings + k ==> PassedOver(Answer(svc.listings, j))
    requires Answer(svc.listings, used.listings + k) == Ok(Some(t)) && |t.images| > 0
    requires Answer(svc.uploads, used.uploads).Ok?
    ensures CoverFrom(allTracks, svc, 0, used) == Some(t.images[0])
  {
    CoverPastImageless(allTracks, svc, 0, k, used);
  }

  /** When all three positions are passed over, the first track to be added
      provides the cover. */
  lemma FallbackImageBecomesCover(allTracks: seq<TrackId>, svc: MetadataService, used: Used, t: TrackInfo)
    requires forall j :: used.listings <= j < used.listings + Offsets ==> PassedOver(Answer(svc.listings, j))
    requires allTracks != [] && Answer(svc.lookups, used.lookups) == Ok(t) && |t.images| > 0
    requires Answer(svc.uploads, used.uploads).Ok?
    ensures CoverFrom(allTracks, svc, 0, used) == Some(t.images[0])
  {
    CoverPastImageless(allTracks, svc, 0, Offsets, used);
  }

  // ---------------------------------------------------------------------------
  // update_playlist

  /** What the environment and the service answer during one run: the
      connectivity probes, whether a client could be made, whether the
      SOURCE_PLAYLIST, TARGET_PLAYLIST and SPOTIFY_USERNAME settings are all
      present, the priority songs file, the target's first page and its `next`
      pages, the source's single page, the one remove and the one add call,
      the PLAYLIST_DESCRIPTION setting and the metadata calls. */
  datatype UpdaterService = UpdaterService(
    probes: seq<bool>,
    clientReady: bool,
    settingsSet: bool,
    priorityFile: Option<PriorityFile>,
    firstPage: Outcome<Page>,
    nextPages: seq<Outcome<Page>>,
    sourcePage: Outcome<Page>,
    removal: Outcome<()>,
    addition: Outcome<()>,
    template: Option<string>,
    metadata: MetadataService)

  /** The call that raised into the "Update failed" handler. */
  datatype Failure = TargetUnreadable | SourceUnreadable | ClearRaised | AddRaised | MetadataRaised

  /** The body of the `try` block: the shuffled list, the list sent to the
      target (and saved as the record), and the failure that cut it short. */
  datatype Rewrite = Rewrite(shuffled: seq<TrackId>, tracks: seq<TrackId>, failure: Option<Failure>)

  /** How `update_playlist` ends: at one of its gates, or after trying the
      rewrite; `saved` is the date written as the last update. */
  datatype UpdateRun =
    | NotSaturday
    | AlreadyUpdated
    | Offline
    | NoClient
    | MissingSettings
    | Attempted(rewrite: Rewrite, saved: Option<Date>)

  /** The target's state: its tracks, description and cover. */
  datatype PlaylistState = PlaylistState(tracks: seq<TrackId>, description: string, cover: string)

  /** The target's tracks as read page by page, None when a read raises. */
  function CurrentTracks(svc: UpdaterService): Option<seq<TrackId>>
  {
    MainCurrentTracks(svc.firstPage, svc.nextPages)
  }

  /** priority + current + new songs, duplicates removed. */
  function AllSongs(svc: UpdaterService, current: seq<TrackId>): seq<TrackId>
    requires svc.sourcePage.Ok?
  {
    var newSongs := Without(NonNullIds(svc.sourcePage.value.items), current);
    Combined(LoadPrioritySongs(svc.priorityFile), current, newSongs)
  }

  /** What the `try` block of `update_playlist` does, from the target's state
      `before` to its state `after`: a failed read changes nothing; otherwise
      the list sent is the shuffled combined list cut to MAX_SONGS; a raising
      remove call changes nothing, a raising add call leaves the target
      cleared, and otherwise the target holds the list after its remaining
      old tracks, with the description and cover of the metadata step. */
  ghost predicate RewriteEffect(svc: UpdaterService, r: Rewrite, before: PlaylistState, after: PlaylistState)
  {
    var current := CurrentTracks(svc);
    if current.None? then r.failure == Some(TargetUnreadable) && after == before
    else if !svc.sourcePage.Ok? then r.failure == Some(SourceUnreadable) && after == before
    else
      var priority := LoadPrioritySongs(svc.priorityFile);
      && multiset(r.shuffled) == multiset(AllSongs(svc, current.value))
      && r.tracks == Trim(r.shuffled, MaxSongs)
      && NoDups(r.tracks)
      && |r.tracks| <= MaxSongs
      && CountIn(r.tracks, priority) <= MaxSongs
      && if current.value != [] && !svc.removal.Ok? then
           r.failure == Some(ClearRaised) && after == before
         else if !svc.addition.Ok? then
           r.failure == Some(AddRaised) && after == before.(tracks := Without(before.tracks, current.value))
         else
           var plan := MetadataPlan(svc.template, r.tracks, svc.metadata);
           && r.failure == (if plan.raised then Some(MetadataRaised) else None)
           && after.tracks == Without(before.tracks, current.value) + r.tracks
           && after.description == (if plan.description.Some? then plan.description.value else before.description)
           && after.cover == (if plan.cover.Some? then plan.cover.value else before.cover)
  }

  /** The `try` block of `update_playlist`. */
  method RewritePlaylist(target: TargetPlaylist, svc: UpdaterService, draws: seq<nat>) returns (r: Rewrite)
    modifies target
    ensures RewriteEffect(svc, r, PlaylistState(old(target.tracks), old(target.description), old(target.cover)),
                          PlaylistState(target.tracks, target.description, target.cover))
  {
    var priority := LoadPrioritySongs(svc.priorityFile);
    var read := CollectPlaylistTracks(svc.firstPage, svc.nextPages);
    if read.None? {
      return Rewrite([], [], Some(TargetUnreadable));
    }
    var current := read.value;
    if !svc.sourcePage.Ok? {
      return Rewrite([], [], Some(SourceUnreadable));
    }
    var sourceSongs := NonNullIds(svc.sourcePage.value.items);
    var newSongs := Without(sourceSongs, current);
    var all := Combined(priority, current, newSongs);
    CombinedEachOnce(priority, current, newSongs);

    var a := new TrackId[|all|](i requires 0 <= i < |all| => all[i]);
    assert a[..] == all;
    ShuffleTracks(a, draws);
    var shuffled := a[..];
    PermutationKeepsDistinct(all, shuffled);
    var tracks := shuffled;
    if |tracks| > MaxSongs {
      tracks := tracks[..MaxSongs];
    }
    TrimKeepsDistinct(shuffled, MaxSongs);
    assert tracks == Trim(shuffled, MaxSongs);

    if current != [] {
      if !svc.removal.Ok? {
        return Rewrite(shuffled, tracks, Some(ClearRaised));
      }
      target.RemoveAllOccurrences(current);
    } else {
      WithoutNothing(target.tracks);
    }
    if !svc.addition.Ok? {
      return Rewrite(shuffled, tracks, Some(AddRaised));
    }
    target.AddTracks(tracks);
    var plan := UpdatePlaylistMetadata(target, svc.template, tracks, svc.metadata);
    return Rewrite(shuffled, tracks, if plan.raised then Some(MetadataRaised) else None);
  }

  /** The gates come first, in source order, and each returns before anything
      else happens: not Saturday, then already updated today, then offline,
      then no client, then missing settings.  Only a rewrite that went through
      saves today's date. */
  method UpdatePlaylist(target: TargetPlaylist, today: Date, lastUpdate: Option<Date>, svc: UpdaterService,
                        draws: seq<nat>)
    returns (run: UpdateRun)
    modifies target
    ensures run == NotSaturday <==> Weekday(today) != Saturday
    ensures run == AlreadyUpdated <==> Weekday(today) == Saturday && UpdatedOn(lastUpdate, today)
    ensures run == Offline <==>
      Weekday(today) == Saturday && !UpdatedOn(lastUpdate, today) && !ConnectionCheck(svc.probes).connected
    ensures run == NoClient <==>
      Weekday(today) == Saturday && !UpdatedOn(lastUpdate, today) && ConnectionCheck(svc.probes).connected
      && !svc.clientReady
    ensures run == MissingSettings <==>
      Weekday(today) == Saturday && !UpdatedOn(lastUpdate, today) && ConnectionCheck(svc.probes).connected
      && svc.clientReady && !svc.settingsSet
    ensures !run.Attempted? ==>
      target.tracks == old(target.tracks) && target.description == old(target.description) && target.cover == old(target.cover)
    ensures run.Attempted? ==>
      && RewriteEffect(svc, run.rewrite, PlaylistState(old(target.tracks), old(target.description), old(target.cover)),
                       PlaylistState(target.tracks, target.description, target.cover))
      && run.saved == (if run.rewrite.failure.None? then Some(today) else None)
  {
    if Weekday(today) != Saturday {
      return NotSaturday;
    }
    if UpdatedOn(lastUpdate, today) {
      return AlreadyUpdated;
    }
    var online := IsConnected(svc.probes);
    if !online.connected {
      return Offline;
    }
    if !svc.clientReady {
      return NoClient;
    }
    if !svc.settingsSet {
      return MissingSettings;
    }
    var r := RewritePlaylist(target, svc, draws);
    return Attempted(r, if r.failure.None? then Some(today) else None);
  }

  /** Clear-then-add: when the read returned every track of the target and
      both calls went through, the target holds exactly the list sent. */
  lemma RewriteReplacesTarget(svc: UpdaterService, r: Rewrite, before: PlaylistState, after: PlaylistState)
    requires RewriteEffect(svc, r, before, after)
    requires CurrentTracks(svc) == Some(before.tracks) && svc.sourcePage.Ok?
    requires svc.removal.Ok? && svc.addition.Ok?
    ensures after.tracks == r.tracks
  {
    WithoutCovered(before.tracks, before.tracks);
    assert [] + r.tracks == r.tracks;
  }
}
