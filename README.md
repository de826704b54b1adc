# Spotify playlist updater: track lists, batching, retries and gates

This project models the core of a Spotify playlist updater that exists in two
versions:

- `spotify_playlister.py` updates several configured playlists.
- `main.py` updates one playlist, once a week.

Both versions do the same thing:

1. Gather the source tracks.
2. Read the target playlist's current tracks, page by page.
3. Keep the source tracks that are not yet in the target ("new tracks").
4. Combine priority, current and new tracks, removing duplicates and keeping
   first occurrences.
5. Shuffle the combined list and cut it to a size cap.
6. Clear the target and refill it.
7. Rewrite the target's description and cover from its top track.

`spotify_playlister.py` also has these parts:

- It wraps each Spotify API call in a bounded retry loop, except the first
  read of the target playlist (line 183). An error from that read gives no current
  tracks. In the retry loops, an HTTP 429 makes the code sleep `2 ** attempt`
  seconds and try again, and any other error ends the loop.
- It fetches track metadata in batches of 50 ids.
- It adds and removes tracks in batches of 100 ids.
- It keeps a saved record of track metadata, filtered to the tracks that
  survive the size cap.

`main.py` also has these parts:

- Run gates: it runs only on Saturdays, skips a day it has already run,
  checks connectivity, needs a client, and needs its settings.
- Priority songs are loaded from a file, and invalid entries are skipped.
- One remove call and one add call.
- A metadata step that tries the first three positions of the playlist for a
  top track. It falls back to the first track to be added, and then to
  "Unknown Artist".

**How the model is built**

- The remote service is a set of answer streams, one per kind of call. Each
  answer is `Ok(value)`, `RateLimited` (HTTP 429) or `Failed` (any other
  error). A call past the end of a stream fails.
- Sleeps are returned as lists of durations.
- The shuffle is an in-place Fisher-Yates shuffle on an array. Its random
  numbers are a parameter, so the shuffle stands for an arbitrary permutation.
- The target playlist is a class. Its fields are the tracks, the description
  and the cover, and each write call updates them in place.
- The loops of the source are methods. Each method is proved equal to a
  specification function, and the properties are proved about those functions.

**What the code does not do**

- It has no three-way reconciliation.
- It has no reorder engine.
- It has no cap on the back-off delay, which is `2 ** attempt` seconds.
- Its size cap is applied after the shuffle, so a priority track can be
  trimmed away (`Playlister.PriorityTrackCanBeTrimmed`).

Files:

- `answers.dfy`: optional values, call outcomes and answer streams.
- `tracklists.dfy`: the pure list logic.
- `retry.dfy`: the retry loop.
- `shuffle.dfy`: the shuffle.
- `remote.dfy`: the target playlist.
- `describe.dfy`: artist names, `str.format` with `{}` fields, and the
  description text.
- `calendar.dfy`: dates and the day gates.
- `paging.dfy`: reading the target page by page, three ways: as main.py does
  it, as spotify_playlister.py is written, and corrected.
- `playlister.dfy`: the spotify_playlister.py pipeline.
- `updater.dfy`: the main.py pipeline.

## Model

| member | source | states |
|---|---|---|
| TrackLists.NonNullIds | spotify_playlister.py:156 | the page's ids skip null tracks: an id is kept exactly when some item carries it, and there are no more ids than items |
| TrackLists.NonNullIdsAppend | main.py:284 | reading the ids of two runs of items one after the other gives the ids of the concatenation |
| TrackLists.DedupElements | spotify_playlister.py:173 | `dict.fromkeys` keeps exactly the elements of its input |
| TrackLists.DedupNoDups | spotify_playlister.py:173 | the de-duplicated list has no repeated element |
| TrackLists.DedupFirstOccurrenceOrder | spotify_playlister.py:362 | two elements appear in the de-duplicated list in the order of their first occurrences in the input |
| TrackLists.DedupOfDistinct | spotify_playlister.py:362 | a list without repeats is left unchanged |
| TrackLists.DuplicatesRemoved | spotify_playlister.py:361-363 | `duplicates_removed` is never negative, and it is zero exactly when the input had no repeats |
| TrackLists.DedupAppend | main.py:296-298 | de-duplicating a + b gives a de-duplicated, followed by the de-duplicated elements of b that are not in a, so earlier lists take precedence |
| TrackLists.Without | spotify_playlister.py:356 | a track is a new track exactly when it is a source track and not a current track, so new tracks are disjoint from the current ones |
| TrackLists.WithoutAppend | main.py:292 | the new-songs filter keeps source order, because it distributes over concatenation |
| TrackLists.WithoutNoDups | spotify_playlister.py:356 | filtering a list without repeats leaves a list without repeats |
| TrackLists.WithoutWithout | spotify_playlister.py:380-385 | removing the ids of batch a and then of batch b is removing the ids of a + b |
| TrackLists.WithoutNothing | spotify_playlister.py:377-379 | removing no ids leaves the playlist unchanged |
| TrackLists.WithoutCovered | spotify_playlister.py:378-397 | removing every id of a list that covers the playlist leaves it empty |
| TrackLists.CombinedEachOnce | spotify_playlister.py:360-363 | in priority + current + new with duplicates removed, every track of the three lists appears exactly once and no other track appears; the priority songs come first; and `duplicates_removed` is not negative |
| TrackLists.PyPrefix | spotify_playlister.py:372 | Python's `s[:k]` is a prefix of s, of length min(k, len) when k >= 0, and of length len + k (at least 0) when k < 0 |
| TrackLists.Trim | spotify_playlister.py:371-372 | the kept list is a prefix of the shuffled list; it is unchanged when it fits; it holds at most `max_songs` tracks, and exactly `max_songs` when it was longer |
| TrackLists.TrimKeepsDistinct | spotify_playlister.py:370-373 | the trimmed list has no repeats, and every track in it was in the shuffled list |
| TrackLists.Retained | main.py:308 | a track is kept exactly when it is in the trimmed list and in the priority songs |
| TrackLists.CountIn | main.py:308 | `num_priority` is at most the length of the trimmed list |
| TrackLists.FilterRecords | spotify_playlister.py:373 | a record is kept exactly when it was saved and its id survived the trim |
| TrackLists.FilterRecordsIds | spotify_playlister.py:373 | the kept records keep their original order: their ids are the original ids filtered by the kept ids |
| TrackLists.Batches | spotify_playlister.py:211-212 | the batches of `range(0, n, step)` concatenate back to the list; none is empty; none holds more than `step` ids; all but the last are full |
| TrackLists.BatchesStep | spotify_playlister.py:380-381 | one turn of the batch loop takes `s[i:i + step]` and leaves the batches from `i + step` on |
| TrackLists.BatchCount | spotify_playlister.py:401-402 | there are ceil(n / step) batches: enough to hold the list, and one fewer would not |
| TrackLists.FlattenAppend | spotify_playlister.py:401-402 | concatenating two runs of batches concatenates their contents |
| Answers.Backoff | spotify_playlister.py:161-163 | the delays slept after successive 429 answers are 1, 2, 4, ... seconds, one per answer |
| Retrying.RetryFromFacts | spotify_playlister.py:153-170 | from any attempt on: the loop calls at most up to `max_retries`; all calls but the last got a 429; it sleeps `2 ** attempt` after each 429; it yields a value exactly when its last call succeeded |
| Retrying.RetryContract | spotify_playlister.py:152-170 | the loop makes at most `max_retries` calls, and at least one when `max_retries >= 1`; every call but the last got a 429; it stops early only on an answer other than 429; it sleeps 1, 2, 4, ... seconds; it returns a value exactly when its last call succeeded, and that value is the answer |
| Retrying.RetrySuccessUsesAnswers | spotify_playlister.py:154-158 | a success uses at least one answer, and the last answer used was a success |
| Retrying.RetryFirstAnswer | spotify_playlister.py:159-170 | a first answer that is a success or a non-429 error ends the loop after one call, with no sleep |
| Retrying.RetryExhausted | spotify_playlister.py:159-163 | `max_retries` answers of 429 in a row make the loop give up with nothing, after sleeping once after each of them |
| Retrying.CallWithRetries | spotify_playlister.py:152-170 | the retry loop returns exactly the result, the number of calls and the sleeps of the retry specification |
| Retrying.RetryEach | spotify_playlister.py:152-153 | one retried call per source or batch, each using the answers that the earlier calls left |
| Shuffle.ShuffleTracks | spotify_playlister.py:370 | the in-place shuffle only reorders: the array holds every track as often as before |
| Shuffle.PermutationKeepsDistinct | main.py:301 | a shuffled list of distinct tracks is still distinct, with the same length and the same members |
| Remote.TargetPlaylist.constructor | spotify_playlister.py:333 | the target starts with the given tracks, description and cover |
| Remote.TargetPlaylist.RemoveAllOccurrences | spotify_playlister.py:384 | every occurrence of every id of the batch leaves the playlist, the rest keeps its order, and the description and cover are unchanged |
| Remote.TargetPlaylist.AddTracks | spotify_playlister.py:405 | the batch is appended, and nothing else changes |
| Remote.TargetPlaylist.ChangeDescription | spotify_playlister.py:281 | the description becomes the text, and nothing else changes |
| Remote.TargetPlaylist.UploadCover | spotify_playlister.py:308 | the cover becomes the image, and nothing else changes |
| Describe.ArtistOf | spotify_playlister.py:256 | the first artist of the track, or "Unknown Artist" when it lists none |
| Describe.ScanAppend | spotify_playlister.py:276 | formatting two pieces is formatting their concatenation, unless a `{` ending the first meets a `}` starting the second |
| Describe.SubstituteNoSlots | spotify_playlister.py:276 | a template with no field is left as it is |
| Describe.SplitAtSlot | spotify_playlister.py:276 | a field at position i is one of the fields counted and replaced |
| Describe.ContainsSlotIffSlots | main.py:152 | `'{}' in template` holds exactly when `format` meets at least one field |
| Describe.FindSlot | main.py:152 | a template in which `format` meets a field contains `{}` |
| Describe.FormatNoSlot | spotify_playlister.py:276 | `format` leaves a template without `{}` unchanged |
| Describe.FormatOneSlot | spotify_playlister.py:276 | `format` replaces the one `{}` of a template by the artist |
| Describe.FormatTwoSlots | main.py:172 | `format` with one argument raises on a template with two `{}` fields |
| Describe.SubmissionDescriptionText | spotify_playlister.py:276-277 | the description is the formatted template, or "Updated playlist featuring <artist>" when there is no template, followed by " For submissions, contact: <email>. Cover: <artist>" |
| Describe.SubmissionDescriptionFixed | spotify_playlister.py:276-277 | a template without a field is used word for word before the contact and cover credit |
| Describe.SubmissionDescriptionRaises | spotify_playlister.py:276 | a template with two fields makes the description step raise |
| Paging.PagesFrom | main.py:283-285 | the pages reached start with the first page, end with a page that has no next page, and each page's `next` call is answered by the page after it |
| Paging.CollectPlaylistTracks | main.py:281-285 | the `while results` loop returns the ids of every page reached, in page order, or None when a call raises |
| Paging.AttemptsProgress | spotify_playlister.py:183-194 | with at least one attempt, a pass over a page either ends the loop or uses answers from the stream |
| Paging.PagingLoop | spotify_playlister.py:183 | with `max_retries >= 1` and a finite answer stream, the `while results` loop ends, because each pass ends the loop or uses up answers |
| Paging.FetchCurrentPlaylistTracksAsWritten | spotify_playlister.py:177-205 | the nested loops, as written, return the ids and sleeps of the as-written specification |
| Paging.NoAttemptsNoProgress | spotify_playlister.py:183-184 | with `max_retries <= 0` a pass does nothing, so the page in hand stays and the `while results` loop never ends |
| Paging.RateLimitedRepeatsPage | spotify_playlister.py:185-194 | n answers of 429 to `next`, then a success, extend the same page n + 1 times before moving on |
| Paging.RateLimitedKeepsPage | spotify_playlister.py:185-194 | `max_retries` answers of 429 in a row leave the same page in hand, added that many times |
| Paging.RateLimitDuplicatesTracks | spotify_playlister.py:185-194 | a two-page playlist whose first `next` call gets a 429 is read as written as ["a", "a", "b"] |
| Paging.CorrectedReadsEachPageOnce | spotify_playlister.py:183-194 | when no call fails, the corrected read returns exactly what main.py's read returns: each page once, in order |
| Paging.AsWrittenAgreesWithoutRateLimits | spotify_playlister.py:185-198 | without 429 answers, the as-written loop and the corrected loop return the same tracks and sleeps |
| Paging.CorrectedReadsTracksOnce | spotify_playlister.py:185-194 | the corrected read of the same two-page playlist returns ["a", "b"] |
| Paging.CorrectedStep | spotify_playlister.py:185-194 | one page of the corrected read adds the page's ids once; then a `next` call whose retries run out ends the read, and a successful call hands on the next page after using at least one answer |
| Paging.FetchCurrentPlaylistTracks | spotify_playlister.py:177-205 | the corrected loop returns exactly the corrected read: each page extended once, only the `next` call retried, and a call that keeps failing ends the read with what it has |
| Playlister.SourceIdsAppend | spotify_playlister.py:157 | gathering sources one after the other concatenates their ids |
| Playlister.SourceIdsMembers | spotify_playlister.py:152-157 | a track is gathered exactly when a source's call went through and that source's first page holds the track |
| Playlister.FailedSourceAddsNothing | spotify_playlister.py:159-170 | a source whose call failed or ran out of retries adds no track |
| Playlister.GatheredSourceTracks | spotify_playlister.py:147-175 | the gathered source tracks have no repeats, and they are exactly the tracks of the sources that answered |
| Playlister.SourceIdsStep | spotify_playlister.py:152-157 | one more source contributes its ids, followed by the ids of the sources after it |
| Playlister.FetchTracksFromSources | spotify_playlister.py:147-175 | the nested loops return the de-duplicated ids of the sources' retried calls, in order |
| Playlister.Lookup | spotify_playlister.py:214-222 | a batch yields at most one record per id |
| Playlister.LookupAppend | spotify_playlister.py:217 | looking up two runs of ids is looking up their concatenation |
| Playlister.AllBatchesFetched | spotify_playlister.py:207-238 | when every batch goes through, batching changes nothing: the records are those of the whole list, looked up at once |
| Playlister.FetchedRecordsStep | spotify_playlister.py:211-222 | one turn of the metadata loop handles `track_ids[i:i + 50]`: its records are kept only when its retried call went through, and the later batches use the answers that call left |
| Playlister.FetchTrackMetadata | spotify_playlister.py:207-238 | the batch loop returns, batch by batch, the records of the batches whose retried call went through |
| Playlister.RemovalsAllSucceed | spotify_playlister.py:378-397 | when every removal batch goes through, the target has lost every occurrence of every current track |
| Playlister.AdditionsAllSucceed | spotify_playlister.py:400-418 | when every add batch goes through, the whole list is appended, in order |
| Playlister.ClearThenAdd | spotify_playlister.py:378-418 | when every batch goes through, the target becomes its old tracks minus the current ones, followed by the list; when the read covered the old tracks, it becomes exactly the list |
| Playlister.RemovalStep | spotify_playlister.py:380-385 | one turn of the removal loop takes `all_current_tracks[i:i + 100]`; its ids leave the target only when its retried call went through, and the later batches use the answers that call left |
| Playlister.AdditionStep | spotify_playlister.py:401-406 | one turn of the add loop appends `all_tracks[i:i + 100]` only when its retried call went through; the later batches use the answers that call left |
| Playlister.RemoveInBatches | spotify_playlister.py:378-397 | the removal loop removes exactly the batches whose retried call went through, and leaves the description and cover unchanged |
| Playlister.AddInBatches | spotify_playlister.py:400-418 | the add loop appends exactly the batches whose retried call went through, and leaves the description and cover unchanged |
| Playlister.TopArtist | spotify_playlister.py:246-258 | the artist is the first artist of the top track, or "Unknown Artist" when that track lists none; with no top track, it is "Unknown Artist" |
| Playlister.MetadataPlan | spotify_playlister.py:240-328 | the description is written exactly when formatting succeeds and the write call goes through, and it is the submission description for the top artist. The cover is written exactly when formatting succeeds, the top track has images and the upload goes through, and it is the first image. When formatting raises, nothing is written |
| Playlister.UpdatePlaylistMetadata | spotify_playlister.py:240-328 | the metadata calls leave the tracks unchanged, and set the description and cover that the plan gives |
| Playlister.UpdateSinglePlaylist | spotify_playlister.py:330-434 | the run skips exactly when the last update was today, and then changes nothing. Otherwise: the shuffled list is a permutation of priority + current + new without duplicates. The list sent is its cut to `max_songs`, with no repeats and within the cap. The records are filtered to that list when the cut removed tracks. The target's tracks have gone through the removal and add batches, and its description and cover are those of the metadata plan. Today is saved |
| Playlister.PriorityTrackCanBeTrimmed | spotify_playlister.py:360-372 | the cap is applied after the shuffle, so a priority track can be cut |
| Updater.ValidIds | main.py:87 | no more ids than entries |
| Updater.ValidIdsAppend | main.py:87 | the priority filter keeps file order, because it distributes over concatenation |
| Updater.ValidIdsMembers | main.py:82-87 | an id is loaded exactly when an entry with `track_id`, `song_name` and `artist_name` carries it |
| Updater.AllEntriesValid | main.py:87-89 | a file of valid entries loads every id, one per entry, in file order |
| Updater.InvalidEntrySkipped | main.py:83-85 | an entry that lacks one of the three keys is skipped |
| Updater.ConnectivityFromFacts | main.py:96-104 | from any attempt on: connected exactly when a remaining probe reaches the network, and each probe that fails sleeps two seconds |
| Updater.ConnectionCheckContract | main.py:95-105 | at most three probes; connected exactly when one of them reaches the network, and the first such probe ends the check; two seconds are slept after every probe that fails, the last one included |
| Updater.IsConnected | main.py:95-105 | the probe loop returns exactly the verdict, the probe count and the sleeps of the specification |
| Updater.SendDescription | main.py:172-173 | the template is formatted with the artist and sent; the description changes only when the call goes through |
| Updater.TryDescription | main.py:162-192 | one attempt of the offset loop and its `else` matches the specification, and changes only the description |
| Updater.DescribeTopArtist | main.py:159-202 | the attempt loop, with the final write in its `except` branch, matches the specification |
| Updater.SendCover | main.py:213-221 | the track's first album image is uploaded, and the cover changes only when the upload goes through |
| Updater.UpdateCover | main.py:205-241 | the cover loop and its fallback match the specification, and change only the cover |
| Updater.UpdatePlaylistMetadata | main.py:150-241 | the metadata step sets the description and cover of the plan, and leaves the tracks unchanged |
| Updater.InvalidTemplateMakesNoCalls | main.py:151-154 | a missing template, or one without `{}`, returns before any call: the answers do not matter and nothing is written |
| Updater.ScanPastEmpty | main.py:165-167 | positions without a valid track are passed over, one listing call each |
| Updater.FirstValidOffsetDescribes | main.py:162-175 | offsets are tried in order, and the first one that holds a valid track names the artist of the description, with no sleep |
| Updater.FallbackDescribes | main.py:176-186 | when none of the three positions holds a valid track, the artist of the first track to be added names the description |
| Updater.DefaultArtistDescribes | main.py:187-191 | with no valid track and nothing to add, the description credits "Unknown Artist" |
| Updater.ArtistSurvivesFailedAttempts | main.py:157-202 | an artist found by an attempt whose write fails is kept: the final write of the `except` branch still credits it, after two sleeps of two seconds |
| Updater.AttemptWritesFormatted | main.py:169-173 | an attempt that writes, writes the template formatted with the artist it settled on |
| Updater.DescribeFromFacts | main.py:159-202 | from any attempt on: at most two sleeps of two seconds, and a written description is the template formatted with the artist settled on |
| Updater.DescriptionIsFormatted | main.py:159-202 | whatever the service answers, the description written is the template formatted with the artist settled on; there are at most two sleeps of two seconds; a cover is only uploaded after a description was written |
| Updater.TwoFieldTemplateRaises | main.py:152-202 | a template with two `{}` fields passes the `{}` check, but every format call raises, and the last one raises out of the metadata step |
| Updater.CoverPastImageless | main.py:206-213 | positions without a valid track, or whose track has no album images, are passed over |
| Updater.FirstImageBecomesCover | main.py:206-223 | the cover is the first album image of the first position whose valid track has images |
| Updater.FallbackImageBecomesCover | main.py:224-239 | when all three positions are passed over, the first track to be added gives the cover |
| Updater.RewritePlaylist | main.py:275-328 | the `try` block satisfies RewriteEffect. A failed read changes nothing. Otherwise the list sent is the shuffled, de-duplicated priority + current + new list, cut to 70, with no repeats and `num_priority <= 70`. A failed remove call changes nothing; a failed add call leaves the target cleared. Otherwise the target holds the list after its remaining old tracks, with the plan's description and cover |
| Updater.UpdatePlaylist | main.py:244-328 | the gates run in order and each returns before anything else happens: not Saturday, then already updated today, then offline, then no client, then missing settings; today's date is saved only when the rewrite completed |
| Updater.RewriteReplacesTarget | main.py:311-317 | when the read returned every track of the target and both calls went through, the target holds exactly the list sent |

Proof helpers, which have no row: `Shuffle.TwoCopies`,
`TrackLists.DistinctCount`, `Paging.Repeat`, `Paging.PageIdsCons`,
`Paging.LinkedCons`, `Answers.AnswerAfterDrop` and `Calendar.Weekday` (the
weekday behind the Saturday gate of `Updater.UpdatePlaylist`).

## Left out

- Authentication and client creation (`get_spotify_client` in both files)
  are left out: they are OAuth token handling and token-file I/O in a foreign
  library. In main.py a client is a given boolean.
- The HTTP connectivity probes are given as booleans. An exception other
  than `ConnectionError` from the probe in main.py is not modelled; it would
  end the program.
- The `is_connected`, `update_all_playlists`, `load_config`,
  `ensure_directories` and `main` functions of spotify_playlister.py are left
  out. They only orchestrate the per-playlist update, outside its logic.
- JSON persistence is left out. This covers the records, the last-update
  files and the priority songs file. Only the date comparison and the parsed
  priority entries are modelled, and a save is shown as the date it would
  write.
- Updater.LoadPrioritySongs does not model a priority file whose top level or
  entries are not JSON objects. Entry values are taken as strings. In the
  code, such files behave as follows:
  - A top level that is not an object raises out of `load_priority_songs`.
  - A number entry raises at `key in song`.
  - For a string or list entry, `key in song` tests for a substring or an
    element. An entry that lacks one of the three key names is skipped with a
    warning, as an invalid object is.
  - An entry that holds all three key names raises at `song['song_name']`.

  Each of these exceptions reaches the "Update failed" handler.
- TrackLists.NonNullIds does not model a track whose `id` is null, such as
  a local file. The code tests only that `item['track']` is not null
  (spotify_playlister.py:156 and 187, main.py:284), so such a track would add
  `None` to the list. A `TrackId` cannot be null.
- Image download, resizing, JPEG encoding and base64 encoding are left out.
  The download and the upload together are one outcome, and the cover is
  recorded as the image address.
- Sleeps are returned as lists of durations and are not performed. The fixed
  `sleep(5)` before the metadata step of spotify_playlister.py is left out.
- The randomness of `random.shuffle` is a parameter: a list of draws drives
  the Fisher-Yates shuffle.
- Only the `{}` fields of `str.format` are modelled. Numbered or named
  fields, `{{` / `}}` escapes and stray braces are not; a template holding
  them is formatted as if they were plain text.
- Logging, `track_name` (used only in log lines) and the `SPOTIFY_MARKET`
  setting are left out.
- Each kind of remote call has its own answer stream, so answers do not
  depend on the target's contents. For example, the top track read after the
  add calls is not derived from `TargetPlaylist.tracks`.
- Playlister.Lookup does not model the service's metadata fields. The
  metadata call is modelled as a lookup in a catalog of known tracks, and
  unknown ids stand for the null entries the loop skips.
- Paging.PagingLoop cannot express a service that answers 429 forever,
  because every answer stream is finite and a call past its end fails. Against
  such a service the `while results` loop of spotify_playlister.py:183-194, as
  written, would spin without end, adding the same page on every pass.
- Paging.FetchAsWritten and Paging.FetchCurrentPlaylistTracksAsWritten
  require `max_retries >= 1`. With no attempts, the loop as written never
  ends (Paging.NoAttemptsNoProgress), so it has no result to model.
- Playlister.UpdateSinglePlaylist reads the target with the corrected paging
  (see Findings), not with the loop as written.
- Playlister.UpdateSinglePlaylist does not model exceptions raised before its
  `try` block, such as a missing configuration key. They are handled by the
  orchestration loop, which is left out.
- Updater.UpdatePlaylist does not model the 100-id limit the service puts on
  the single remove call and the single add call. Their outcomes are given.

## Findings

| source | as written | input that shows it | evidently intended | confidence | as-written member | corrected member |
|---|---|---|---|---|---|---|
| spotify_playlister.py:185-194 | The `extend` of the page and the `sp.next` call are in the same retried `try`. A 429 from `next` comes after the page was added, and the retry adds the page again. | First page `[a]` with a next page, `next` answered first by a 429 and then by page `[b]`, `max_retries = 3`: the result is `[a, a, b]` | Each page is added once, and only the `next` call is retried, which gives `[a, b]` | not executed | Paging.RateLimitDuplicatesTracks | Paging.CorrectedReadsTracksOnce |
| spotify_playlister.py:183-194 | When the `for attempt` loop ends without a `break`, `results` is left unchanged. With `max_retries <= 0` the loop body never runs, and `while results` never ends. After `max_retries` 429 answers in a row, the same page is read again. | `max_retries = 0` and a first page that exists | The read ends when the retries of a `next` call run out, returning the tracks gathered so far | not executed | Paging.NoAttemptsNoProgress | Paging.FetchCurrentPlaylistTracks |
