/** Reading the tracks of the target playlist page by page, following the
    service's `next` links: once as `fetch_current_playlist_tracks` in
    spotify_playlister.py is written, once as it evidently means to work, and
    once as main.py does it, without retries. */
module Paging {
  import opened Answers
  import opened TrackLists
  import opened Retrying

  /** One page of a playlist: the track of each item (None for an item without
      a track) and whether the service offers a next page. */
  datatype Page = Page(items: seq<Option<TrackId>>, hasNext: bool)

  /** The track ids of a sequence of pages, page after page. */
  function PageIds(pages: seq<Page>): seq<TrackId>
  {
    if pages == [] then [] else NonNullIds(pages[0].items) + PageIds(pages[1..])
  }

  lemma {:induction false} PageIdsCons(page: Page, pages: seq<Page>)
    ensures PageIds([page] + pages) == NonNullIds(page.items) + PageIds(pages)
  {
    assert ([page] + pages)[1..] == pages;
  }

  // ---------------------------------------------------------------------------
  // main.py: every call is made once; an exception ends the whole update

  /** The pages met from `page` on, the k-th `next` call answered by the
      (used + k)-th answer; None when a call raises. */
  function PagesFrom(page: Page, nexts: seq<Outcome<Page>>, used: nat): (pages: Option<seq<Page>>)
    ensures pages.Some? ==> |pages.value| >= 1 && pages.value[0] == page
    ensures pages.Some? ==> !pages.value[|pages.value| - 1].hasNext
    ensures pages.Some? ==> Linked(pages.value, nexts, used)
    decreases |nexts| - used
  {
    if !page.hasNext then Some([page])
    else match Answer(nexts, used)
      case Ok(p) =>
        var rest := PagesFrom(p, nexts, used + 1);
        if rest.None? then None
        else
          LinkedCons(page, rest.value, nexts, used);
          Some([page] + rest.value)
      case _ => None
  }

  /** Each page but the last offers a next page, and the answer to its `next`
      call is the page after it. */
  predicate Linked(pages: seq<Page>, nexts: seq<Outcome<Page>>, used: nat)
  {
    forall k :: 0 <= k < |pages| - 1 ==> LinkAt(pages, nexts, used, k)
  }

  /** Page k leads to page k + 1. */
  predicate LinkAt(pages: seq<Page>, nexts: seq<Outcome<Page>>, used: nat, k: nat)
  {
    k + 1 < |pages| && pages[k].hasNext && Answer(nexts, used + k) == Ok(pages[k + 1])
  }

  lemma LinkedCons(page: Page, rest: seq<Page>, nexts: seq<Outcome<Page>>, used: nat)
    requires page.hasNext && rest != [] && Answer(nexts, used) == Ok(rest[0])
    requires Linked(rest, nexts, used + 1)
    ensures Linked([page] + rest, nexts, used)
  {
    var pages := [page] + rest;
    forall k | 0 <= k < |pages| - 1
      ensures LinkAt(pages, nexts, used, k)
    {
      if k > 0 {
        assert LinkAt(rest, nexts, used + 1, k - 1);
        assert pages[k] == rest[k - 1] && pages[k + 1] == rest[k];
      }
    }
  }

  /** main.py's current tracks: the ids of every page reached, in page order;
      None when the first call or a `next` call raises. */
  function MainCurrentTracks(first: Outcome<Page>, nexts: seq<Outcome<Page>>): Option<seq<TrackId>>
  {
    if !first.Ok? then None
    else
      var pages := PagesFrom(first.value, nexts, 0);
      if pages.None? then None else Some(PageIds(pages.value))
  }

  /** `while results: current_tracks.extend(...); results = sp.next(results) if
      results['next'] else None` with no exception handling of its own. */
  method CollectPlaylistTracks(first: Outcome<Page>, nexts: seq<Outcome<Page>>) returns (tracks: Option<seq<TrackId>>)
    ensures tracks == MainCurrentTracks(first, nexts)
  {
    if !first.Ok? {
      return None;
    }
    var page := first.value;
    var acc: seq<TrackId> := [];
    var used: nat := 0;
    assert forall t: seq<TrackId> :: [] + t == t;
    while page.hasNext
      invariant used <= |nexts|
      invariant MainCurrentTracks(first, nexts) ==
        (var rest := PagesFrom(page, nexts, used); if rest.None? then None else Some(acc + PageIds(rest.value)))
      decreases |nexts| - used
    {
      var answer := Answer(nexts, used);
      if !answer.Ok? {
        return None;
      }
      var rest := PagesFrom(answer.value, nexts, used + 1);
      assert PagesFrom(page, nexts, used) == if rest.None? then None else Some([page] + rest.value);
      if rest.Some? {
        PageIdsCons(page, rest.value);
        assert acc + PageIds([page] + rest.value) == (acc + NonNullIds(page.items)) + PageIds(rest.value);
      }
      acc := acc + NonNullIds(page.items);
      page := answer.value;
      used := used + 1;
    }
    PageIdsCons(page, []);
    assert [page] + [] == [page];
    assert PagesFrom(page, nexts, used) == Some([page]);
    assert PageIds([page]) == NonNullIds(page.items) + [] == NonNullIds(page.items);
    return Some(acc + NonNullIds(page.items));
  }

  // ---------------------------------------------------------------------------
  // spotify_playlister.py as written: the retry loop wraps both the extend and
  // the `next` call, so a 429 from `next` extends the same page again, and a
  // retry loop that runs out leaves the same page to the `while` loop

  /** Where the as-written loop stands: the page in hand (None once the loop
      ends), the ids gathered, the seconds slept and the `next` answers used. */
  datatype PagingState = PagingState(page: Option<Page>, tracks: seq<TrackId>, sleeps: seq<nat>, used: nat)

  /** One pass of `for attempt in range(max_retries)` over the page in hand. */
  function AttemptsOnPage(page: Page, nexts: seq<Outcome<Page>>, maxRetries: int, attempt: nat,
                          tracks: seq<TrackId>, sleeps: seq<nat>, used: nat): PagingState
    decreases maxRetries - attempt
  {
    if attempt >= maxRetries then PagingState(Some(page), tracks, sleeps, used)
    else
      var more := tracks + NonNullIds(page.items);
      if !page.hasNext then PagingState(None, more, sleeps, used)
      else match Answer(nexts, used)
        case Ok(p) => PagingState(Some(p), more, sleeps, used + 1)
        case Failed => PagingState(None, more, sleeps, used + 1)
        case RateLimited =>
          AttemptsOnPage(page, nexts, maxRetries, attempt + 1, more, sleeps + [Pow2(attempt)], used + 1)
  }

  /** With at least one attempt, a pass either ends the loop or uses up answers
      from the stream, each of them one that was not past its end. */
  lemma {:induction false} AttemptsProgress(page: Page, nexts: seq<Outcome<Page>>, maxRetries: int, attempt: nat,
                                            tracks: seq<TrackId>, sleeps: seq<nat>, used: nat)
    requires attempt < maxRetries && used <= |nexts|
    ensures var s := AttemptsOnPage(page, nexts, maxRetries, attempt, tracks, sleeps, used);
      s.page.Some? ==> used < s.used <= |nexts|
    decreases maxRetries - attempt
  {
    if page.hasNext && Answer(nexts, used).RateLimited? && attempt + 1 < maxRetries {
      AttemptsProgress(page, nexts, maxRetries, attempt + 1, tracks + NonNullIds(page.items), sleeps + [Pow2(attempt)], used + 1);
    }
  }

  /** The `while results` loop. */
  function PagingLoop(s: PagingState, nexts: seq<Outcome<Page>>, maxRetries: int): (r: PagingState)
    requires maxRetries >= 1
    requires s.page.Some? ==> s.used <= |nexts|
    ensures r.page.None?
    decreases if s.page.Some? then |nexts| - s.used + 1 else 0
  {
    if s.page.None? then s
    else
      AttemptsProgress(s.page.value, nexts, maxRetries, 0, s.tracks, s.sleeps, s.used);
      PagingLoop(AttemptsOnPage(s.page.value, nexts, maxRetries, 0, s.tracks, s.sleeps, s.used), nexts, maxRetries)
  }

  /** `fetch_current_playlist_tracks` as written, for `max_retries >= 1`: an
      error from the first call gives no tracks. */
  function FetchAsWritten(first: Outcome<Page>, nexts: seq<Outcome<Page>>, maxRetries: int): PagingState
    requires maxRetries >= 1
  {
    if !first.Ok? then PagingState(None, [], [], 0)
    else PagingLoop(PagingState(Some(first.value), [], [], 0), nexts, maxRetries)
  }

  /** The as-written method, its two nested loops kept. */
  method FetchCurrentPlaylistTracksAsWritten(first: Outcome<Page>, nexts: seq<Outcome<Page>>, maxRetries: int)
    returns (tracks: seq<TrackId>, sleeps: seq<nat>)
    requires maxRetries >= 1
    ensures tracks == FetchAsWritten(first, nexts, maxRetries).tracks
    ensures sleeps == FetchAsWritten(first, nexts, maxRetries).sleeps
  {
    if !first.Ok? {
      return [], [];
    }
    ghost var final := FetchAsWritten(first, nexts, maxRetries);
    var page: Option<Page> := Some(first.value);
    var used: nat := 0;
    tracks, sleeps := [], [];
    while page.Some?
      invariant page.Some? ==> used <= |nexts|
      invariant PagingLoop(PagingState(page, tracks, sleeps, used), nexts, maxRetries) == final
      decreases if page.Some? then |nexts| - used + 1 else 0
    {
      var current := page.value;
      ghost var pass := AttemptsOnPage(current, nexts, maxRetries, 0, tracks, sleeps, used);
      AttemptsProgress(current, nexts, maxRetries, 0, tracks, sleeps, used);
      var attempt: nat := 0;
      while attempt < maxRetries
        invariant used <= |nexts|
        invariant page == Some(current)
        invariant AttemptsOnPage(current, nexts, maxRetries, attempt, tracks, sleeps, used) == pass
        decreases maxRetries - attempt
      {
        tracks := tracks + NonNullIds(current.items);
        if !current.hasNext {
          page := None;
          break;
        }
        var answer := Answer(nexts, used);
        used := used + 1;
        if answer.Ok? {
          page := Some(answer.value);
          break;
        } else if answer.Failed? {
          assert PagingState(None, tracks, sleeps, used) == pass;
          return;
        }
        sleeps := sleeps + [Pow2(attempt)];
        attempt := attempt + 1;
      }
      assert PagingState(page, tracks, sleeps, used) == pass;
    }
  }

  /** With no attempts at all the `for` loop does nothing, so a page in hand
      stays in hand and the `while results` loop never ends. */
  lemma NoAttemptsNoProgress(page: Page, nexts: seq<Outcome<Page>>, maxRetries: int,
                             tracks: seq<TrackId>, sleeps: seq<nat>, used: nat)
    requires maxRetries <= 0
    ensures AttemptsOnPage(page, nexts, maxRetries, 0, tracks, sleeps, used) == PagingState(Some(page), tracks, sleeps, used)
  {
  }

  /** `s` repeated n times. */
  function Repeat(s: seq<TrackId>, n: nat): (r: seq<TrackId>)
    ensures |r| == n * |s|
  {
    if n == 0 then [] else s + Repeat(s, n - 1)
  }

  /** n answers of 429 to `next` followed by a success extend the page n + 1
      times before moving on. */
  lemma {:induction false} RateLimitedRepeatsPage(page: Page, nexts: seq<Outcome<Page>>, maxRetries: int, attempt: nat,
                                                  tracks: seq<TrackId>, sleeps: seq<nat>, used: nat, n: nat, p: Page)
    requires page.hasNext && attempt + n < maxRetries
    requires forall k :: used <= k < used + n ==> Answer(nexts, k).RateLimited?
    requires Answer(nexts, used + n) == Ok(p)
    ensures var s := AttemptsOnPage(page, nexts, maxRetries, attempt, tracks, sleeps, used);
      s.page == Some(p) && s.tracks == tracks + Repeat(NonNullIds(page.items), n + 1) && s.used == used + n + 1
    decreases n
  {
    var ids := NonNullIds(page.items);
    if n == 0 {
      assert Repeat(ids, 1) == ids + [];
    } else {
      assert Answer(nexts, used).RateLimited?;
      assert AttemptsOnPage(page, nexts, maxRetries, attempt, tracks, sleeps, used)
        == AttemptsOnPage(page, nexts, maxRetries, attempt + 1, tracks + ids, sleeps + [Pow2(attempt)], used + 1);
      RateLimitedRepeatsPage(page, nexts, maxRetries, attempt + 1, tracks + ids, sleeps + [Pow2(attempt)], used + 1, n - 1, p);
      assert Repeat(ids, n + 1) == ids + Repeat(ids, n);
      assert (tracks + ids) + Repeat(ids, n) == tracks + Repeat(ids, n + 1);
    }
  }

  /** `max_retries` answers of 429 in a row leave the same page in hand, added
      `max_retries` times over. */
  lemma {:induction false} RateLimitedKeepsPage(page: Page, nexts: seq<Outcome<Page>>, maxRetries: nat, attempt: nat,
                                                tracks: seq<TrackId>, sleeps: seq<nat>, used: nat)
    requires page.hasNext && attempt <= maxRetries
    requires forall k :: used <= k < used + (maxRetries - attempt) ==> Answer(nexts, k).RateLimited?
    ensures var s := AttemptsOnPage(page, nexts, maxRetries, attempt, tracks, sleeps, used);
      s.page == Some(page) && s.tracks == tracks + Repeat(NonNullIds(page.items), maxRetries - attempt)
    decreases maxRetries - attempt
  {
    var ids := NonNullIds(page.items);
    if attempt < maxRetries {
      RateLimitedKeepsPage(page, nexts, maxRetries, attempt + 1, tracks + ids, sleeps + [Pow2(attempt)], used + 1);
      assert (tracks + ids) + Repeat(ids, maxRetries - attempt - 1) == tracks + Repeat(ids, maxRetries - attempt);
    } else {
      assert tracks + Repeat(ids, 0) == tracks;
    }
  }

  /** A two-page playlist whose first `next` call is answered by a 429: the
      as-written loop returns the first page's track twice. */
  lemma RateLimitDuplicatesTracks()
    ensures var p1 := Page([Some("a")], true);
      var p2 := Page([Some("b")], false);
      FetchAsWritten(Ok(p1), [RateLimited, Ok(p2)], 3).tracks == ["a", "a", "b"]
  {
    var p1 := Page([Some("a")], true);
    var p2 := Page([Some("b")], false);
    var nexts: seq<Outcome<Page>> := [RateLimited, Ok(p2)];
    assert NonNullIds(p1.items) == ["a"];
    assert NonNullIds(p2.items) == ["b"];
    var s1 := AttemptsOnPage(p1, nexts, 3, 0, [], [], 0);
    assert s1 == AttemptsOnPage(p1, nexts, 3, 1, ["a"], [1], 1);
    assert s1 == PagingState(Some(p2), ["a", "a"], [1], 2);
    var s2 := AttemptsOnPage(p2, nexts, 3, 0, ["a", "a"], [1], 2);
    assert s2 == PagingState(None, ["a", "a", "b"], [1], 2);
  }

  // ---------------------------------------------------------------------------
  // The evidently intended loop: each page is extended once; only the `next`
  // call is retried; a call that keeps failing ends the read with what it has

  /** The ids and sleeps of a read. */
  datatype Fetched = Fetched(tracks: seq<TrackId>, sleeps: seq<nat>)

  function CorrectedFrom(page: Page, nexts: seq<Outcome<Page>>, maxRetries: int, used: nat,
                         tracks: seq<TrackId>, sleeps: seq<nat>): Fetched
    decreases |nexts| - used
  {
    var more := tracks + NonNullIds(page.items);
    if !page.hasNext then Fetched(more, sleeps)
    else
      var run := Retry(Drop(nexts, used), maxRetries);
      if run.result.None? then Fetched(more, sleeps + run.sleeps)
      else
        RetrySuccessUsesAnswers(Drop(nexts, used), maxRetries);
        AnswerAfterDrop(nexts, used, run.attempts - 1);
        assert Answer(nexts, used + run.attempts - 1).Ok?;
        CorrectedFrom(run.result.value, nexts, maxRetries, used + run.attempts, more, sleeps + run.sleeps)
  }

  /** The corrected read of the target playlist's current tracks. */
  function FetchCorrected(first: Outcome<Page>, nexts: seq<Outcome<Page>>, maxRetries: int): Fetched
  {
    if !first.Ok? then Fetched([], [])
    else CorrectedFrom(first.value, nexts, maxRetries, 0, [], [])
  }

  /** Each page of the chain is read once, in order: when no call fails or is
      rate limited, the corrected read returns exactly what main.py's read
      returns. */
  lemma {:induction false} CorrectedReadsEachPageOnce(page: Page, nexts: seq<Outcome<Page>>, maxRetries: int, used: nat,
                                                      tracks: seq<TrackId>, sleeps: seq<nat>)
    requires maxRetries >= 1
    requires PagesFrom(page, nexts, used).Some?
    ensures CorrectedFrom(page, nexts, maxRetries, used, tracks, sleeps)
         == Fetched(tracks + PageIds(PagesFrom(page, nexts, used).value), sleeps)
    decreases |nexts| - used
  {
    var more := tracks + NonNullIds(page.items);
    if !page.hasNext {
      PageIdsCons(page, []);
      assert PagesFrom(page, nexts, used).value == [page] + [];
    } else {
      assert Answer(nexts, used).Ok?;
      var p := Answer(nexts, used).value;
      var rest := PagesFrom(p, nexts, used + 1).value;
      assert PagesFrom(page, nexts, used).value == [page] + rest;
      AnswerAfterDrop(nexts, used, 0);
      RetryFirstAnswer(Drop(nexts, used), maxRetries);
      assert sleeps + [] == sleeps;
      assert CorrectedFrom(page, nexts, maxRetries, used, tracks, sleeps)
          == CorrectedFrom(p, nexts, maxRetries, used + 1, more, sleeps);
      CorrectedReadsEachPageOnce(p, nexts, maxRetries, used + 1, more, sleeps);
      PageIdsCons(page, rest);
      assert more + PageIds(rest) == tracks + (NonNullIds(page.items) + PageIds(rest));
    }
  }

  /** Without 429 answers the as-written loop and the corrected one agree. */
  lemma {:induction false} AsWrittenAgreesWithoutRateLimits(page: Page, nexts: seq<Outcome<Page>>, maxRetries: int, used: nat,
                                                            tracks: seq<TrackId>, sleeps: seq<nat>)
    requires maxRetries >= 1 && used <= |nexts|
    requires forall k :: 0 <= k < |nexts| ==> !nexts[k].RateLimited?
    ensures var r := PagingLoop(PagingState(Some(page), tracks, sleeps, used), nexts, maxRetries);
      Fetched(r.tracks, r.sleeps) == CorrectedFrom(page, nexts, maxRetries, used, tracks, sleeps)
    decreases |nexts| - used
  {
    var more := tracks + NonNullIds(page.items);
    if page.hasNext {
      AnswerAfterDrop(nexts, used, 0);
      RetryFirstAnswer(Drop(nexts, used), maxRetries);
      assert sleeps + [] == sleeps;
      match Answer(nexts, used)
      case Ok(p) =>
        AsWrittenAgreesWithoutRateLimits(p, nexts, maxRetries, used + 1, more, sleeps);
      case Failed =>
    }
  }

  /** The corrected read of the two-page playlist above returns each track once. */
  lemma CorrectedReadsTracksOnce()
    ensures var p1 := Page([Some("a")], true);
      var p2 := Page([Some("b")], false);
      FetchCorrected(Ok(p1), [RateLimited, Ok(p2)], 3).tracks == ["a", "b"]
  {
    var p1 := Page([Some("a")], true);
    var p2 := Page([Some("b")], false);
    var nexts: seq<Outcome<Page>> := [RateLimited, Ok(p2)];
    assert NonNullIds(p1.items) == ["a"];
    assert NonNullIds(p2.items) == ["b"];
    assert Answer(Drop(nexts, 0), 0) == RateLimited;
    assert Answer(Drop(nexts, 0), 1) == Ok(p2);
    assert Retry(Drop(nexts, 0), 3) == RetryRun(Some(p2), 2, [1]);
  }

  /** One page of the corrected read: its ids, then the retried `next` call,
      which either ends the read or hands on the next page and the answers it
      left. */
  lemma CorrectedStep(page: Page, nexts: seq<Outcome<Page>>, maxRetries: int, used: nat,
                      tracks: seq<TrackId>, sleeps: seq<nat>)
    requires page.hasNext
    ensures var run := Retry(Drop(nexts, used), maxRetries);
      var more := tracks + NonNullIds(page.items);
      && (run.result.None? ==>
            CorrectedFrom(page, nexts, maxRetries, used, tracks, sleeps) == Fetched(more, sleeps + run.sleeps))
      && (run.result.Some? ==>
            && 1 <= run.attempts && used + run.attempts <= |nexts|
            && CorrectedFrom(page, nexts, maxRetries, used, tracks, sleeps)
               == CorrectedFrom(run.result.value, nexts, maxRetries, used + run.attempts, more, sleeps + run.sleeps))
  {
    var run := Retry(Drop(nexts, used), maxRetries);
    if run.result.Some? {
      RetrySuccessUsesAnswers(Drop(nexts, used), maxRetries);
      AnswerAfterDrop(nexts, used, run.attempts - 1);
      assert Answer(nexts, used + run.attempts - 1).Ok?;
    }
  }

  /** The corrected read as a loop: one retried `next` call per page. */
  method FetchCurrentPlaylistTracks(first: Outcome<Page>, nexts: seq<Outcome<Page>>, maxRetries: int)
    returns (fetched: Fetched)
    ensures fetched == FetchCorrected(first, nexts, maxRetries)
  {
    if !first.Ok? {
      return Fetched([], []);
    }
    var page := first.value;
    var used: nat := 0;
    var tracks: seq<TrackId> := [];
    var sleeps: seq<nat> := [];
    while true
      invariant CorrectedFrom(page, nexts, maxRetries, used, tracks, sleeps) == FetchCorrected(first, nexts, maxRetries)
      decreases |nexts| - used
    {
      ghost var start := tracks;
      tracks := tracks + NonNullIds(page.items);
      if !page.hasNext {
        return Fetched(tracks, sleeps);
      }
      var run := CallWithRetries(Drop(nexts, used), maxRetries);
      CorrectedStep(page, nexts, maxRetries, used, start, sleeps);
      sleeps := sleeps + run.sleeps;
      if run.result.None? {
        return Fetched(tracks, sleeps);
      }
      page := run.result.value;
      used := used + run.attempts;
    }
  }
}
