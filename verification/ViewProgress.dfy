/**
 What the browser's window gains: a poll that succeeds loads it up to the newest message the poll saw, an
 older page it asked for extends it to that page's own end, and nothing loaded is lost without a reason.
 */
module ViewProgress {
  import opened Options
  import opened ConversationCaches
  import opened ConversationPages
  import opened TranscriptWindows

  /** The pages of a poll share a message with what is loaded of the same session. */
  predicate Meets(cache: Cache, pages: seq<Page>)
    requires pages != []
  {
    && cache.isNewestPageLoaded && cache.sessionId == pages[0].sessionId
    && exists m, n :: m in cache.messages && n in AllMessages(pages) && m.id == n.id
  }

  lemma MeetsMeansOverlaps(cache: Cache, pages: seq<Page>)
    requires pages != []
    ensures Meets(cache, pages) <==>
            cache.isNewestPageLoaded && cache.sessionId == pages[0].sessionId && Overlaps(cache, pages)
  {
    if Overlaps(cache, pages) {
      var k := FindOverlap(AllMessages(pages), MessageIds(cache.messages)).value;
      var m :| m in cache.messages && m.id == AllMessages(pages)[k].id;
      assert AllMessages(pages)[k] in AllMessages(pages);
    } else {
      forall n | n in AllMessages(pages) ensures n.id !in MessageIds(cache.messages) {
      }
    }
  }

  // ---------- polls ----------

  /**
   The window of a merged cache: up to the newest message polled or loaded, from the old lower end if the poll
   met what was loaded and otherwise over the poll's first page.
   */
  ghost predicate IsMergedWindow(t: Transcript, cache: Cache, cache': Cache, pages: seq<Page>, cuts: seq<nat>,
                                 low: nat, high: nat)
    requires pages != [] && |cuts| == |pages| + 1
  {
    && IsWindow(t, cache', low, high) && high >= cuts[0]
    && if Meets(cache, pages) then exists hi: nat :: IsWindow(t, cache, low, hi) && hi <= high
       else low == cuts[1] && high == cuts[0]
  }

  /** The merged cache shows every polled message it holds as it was polled. */
  ghost predicate ShowsPolled(cache': Cache, pages: seq<Page>)
  {
    forall m :: m in AllMessages(pages) && m.id in MessageIds(cache'.messages) ==> m in cache'.messages
  }

  /** Messages whose ids run down a transcript are told apart by them. */
  lemma SlicedOnce(t: Transcript, lo: nat, hi: nat, messages: seq<Message>, i: nat, j: nat)
    requires IsTranscript(t) && lo <= hi <= |t.ids| && IdsOf(messages) == Reversed(t.ids[lo..hi])
    requires i < |messages| && j < |messages| && messages[i].id == messages[j].id
    ensures i == j
  {
    IdsAreDistinct(t);
    assert IdsOf(messages)[i] == t.ids[hi - 1 - i];
    assert IdsOf(messages)[j] == t.ids[hi - 1 - j];
  }

  /** Polled messages have distinct ids, so that a message with a polled id is the polled one. */
  lemma PolledOnce(t: Transcript, pages: seq<Page>, cuts: seq<nat>, m: Message, n: Message)
    requires IsTranscript(t) && IsPoll(t, pages, cuts)
    requires m in AllMessages(pages) && n in AllMessages(pages) && m.id == n.id
    ensures m == n
  {
    var polled := AllMessages(pages);
    var i :| 0 <= i < |polled| && polled[i] == m;
    var j :| 0 <= j < |polled| && polled[j] == n;
    PolledSlice(t, pages, cuts);
    SlicedOnce(t, cuts[|pages|], cuts[0], polled, i, j);
  }

  lemma PolledAreShown(t: Transcript, cache: Cache, pages: seq<Page>, cuts: seq<nat>, m: Message)
    requires IsTranscript(t) && IsPoll(t, pages, cuts)
    requires m in AllMessages(pages) && m.id in MessageIds(MergePolledPages(cache, pages).messages)
    ensures m in MergePolledPages(cache, pages).messages
  {
    var merged := MergePolledPages(cache, pages);
    var n :| n in merged.messages && n.id == m.id;
    var k :| 0 <= k < |merged.messages| && merged.messages[k] == n;
    MergedMessages(cache, pages, k);
    var polled := AllMessages(pages);
    var i :| 0 <= i < |polled| && polled[i] == m;
    assert IdsOf(polled)[i] == m.id;
    PolledOnce(t, pages, cuts, m, n);
  }

  lemma MetWindow(t: Transcript, cache: Cache, pages: seq<Page>, cuts: seq<nat>, lo: nat, hi: nat) returns (high: nat)
    requires IsTranscript(t) && IsPoll(t, pages, cuts) && IsWindow(t, cache, lo, hi)
    requires cache.isNewestPageLoaded && cache.sessionId == pages[0].sessionId && Overlaps(cache, pages)
    ensures IsWindow(t, MergePolledPages(cache, pages), lo, high) && high >= hi && high >= cuts[0]
  {
    MergeKeepsWindow(t, cache, pages, cuts, lo, hi);
    PolledSlice(t, pages, cuts);
    OverlapPlace(t, AllMessages(pages), cuts[|pages|], cuts[0], cache.messages, lo, hi);
    high := if cuts[0] <= hi then hi else cuts[0];
  }

  lemma UnmetWindow(t: Transcript, cache: Cache, pages: seq<Page>, cuts: seq<nat>)
    requires IsPoll(t, pages, cuts)
    requires !(cache.isNewestPageLoaded && cache.sessionId == pages[0].sessionId && Overlaps(cache, pages))
    ensures IsWindow(t, MergePolledPages(cache, pages), cuts[1], cuts[0])
  {
    NewestPageIsWindow(t, pages, cuts);
  }

  lemma PolledWindow(t: Transcript, cache: Cache, pages: seq<Page>, cuts: seq<nat>) returns (low: nat, high: nat)
    requires IsTranscript(t) && IsPoll(t, pages, cuts)
    requires Meets(cache, pages) ==> exists lo, hi :: IsWindow(t, cache, lo, hi)
    ensures IsMergedWindow(t, cache, MergePolledPages(cache, pages), pages, cuts, low, high)
  {
    MeetsMeansOverlaps(cache, pages);
    if Meets(cache, pages) {
      var hi: nat;
      low, hi :| IsWindow(t, cache, low, hi);
      high := MetWindow(t, cache, pages, cuts, low, hi);
    } else {
      UnmetWindow(t, cache, pages, cuts);
      low, high := cuts[1], cuts[0];
    }
  }

  /** Where the merge leaves the cache, whatever was loaded before. */
  lemma MergedIsLoaded(cache: Cache, pages: seq<Page>)
    requires pages != []
    ensures var cache' := MergePolledPages(cache, pages);
            cache'.isNewestPageLoaded && cache'.sessionId == pages[0].sessionId
  {
  }

  /**
   A poll that succeeds loads what it saw: the newest message polled is in the window, nothing loaded that it
   met is lost, and the failure is cleared. A pending request for an older page is left alone.
   */
  lemma PollLoads(worlds: seq<World>, i: nat, view: View, pages: seq<Page>, polledAt: nat)
    returns (cuts: seq<nat>, low: nat, high: nat)
    requires i < |worlds| && IsWorld(worlds[i]) && forall k :: 0 <= k <= i ==> WorldGrows(worlds[k], worlds[i])
    requires IsContiguous(worlds[i], view.cache)
    requires IsGenuine(worlds, i, view, ReceivePoll(Some(pages), polledAt))
    ensures pages != [] && pages[0].sessionId in worlds[i] && |cuts| == |pages| + 1
    ensures polledAt <= i && IsPoll(worlds[polledAt][pages[0].sessionId], pages, cuts)
    ensures var view' := ViewAfter(view, ReceivePoll(Some(pages), polledAt));
            && !view'.hasFailed && view'.olderPageCursor == view.olderPageCursor
            && view'.cache.isNewestPageLoaded && view'.cache.sessionId == pages[0].sessionId
            && IsMergedWindow(worlds[i][pages[0].sessionId], view.cache, view'.cache, pages, cuts, low, high)
            && ShowsPolled(view'.cache, pages)
  {
    var s := pages[0].sessionId;
    cuts :| IsPoll(worlds[polledAt][s], pages, cuts);
    PollIsStable(worlds[polledAt][s], worlds[i][s], pages, cuts);
    low, high := PolledWindow(worlds[i][s], view.cache, pages, cuts);
    MergedIsLoaded(view.cache, pages);
    forall m | m in AllMessages(pages) && m.id in MessageIds(MergePolledPages(view.cache, pages).messages)
      ensures m in MergePolledPages(view.cache, pages).messages
    {
      PolledAreShown(worlds[i][s], view.cache, pages, cuts, m);
    }
  }

  /** A poll that fails says so and changes nothing else. */
  lemma FailedPollKeeps(view: View, polledAt: nat)
    ensures ViewAfter(view, ReceivePoll(None, polledAt)) == View(view.cache, view.olderPageCursor, true)
  {
  }

  // ---------- older pages ----------

  /** The older page is asked for at the lower end of what is loaded, once, and not after a failure. */
  lemma OlderPageIsAsked(view: View)
    ensures var view' := ViewAfter(view, AskOlderPage);
            && view'.cache == view.cache && view'.hasFailed == view.hasFailed
            && (view.olderPageCursor.Some? || view.hasFailed ==> view' == view)
            && (view.olderPageCursor.None? && !view.hasFailed ==> view'.olderPageCursor == view.cache.nextCursor)
  {
  }

  /**
   The page that was asked for extends the window down to that page's own lower end, which becomes the place
   to ask at next; nothing loaded is lost.
   */
  lemma OlderPageLoads(worlds: seq<World>, i: nat, view: View, page: Page, takenAt: nat, lo: nat, hi: nat)
    returns (lower: nat)
    requires i < |worlds| && forall k :: 0 <= k <= i ==> WorldGrows(worlds[k], worlds[i])
    requires view.olderPageCursor.Some? && IsWanted(view, page)
    requires IsGenuine(worlds, i, view, ReceiveOlderPage(Loaded(page), takenAt))
    requires page.sessionId in worlds[i] && IsWindow(worlds[i][page.sessionId], view.cache, lo, hi)
    ensures var t, view' := worlds[i][page.sessionId], ViewAfter(view, ReceiveOlderPage(Loaded(page), takenAt));
            && view'.olderPageCursor.None? && !view'.hasFailed
            && Holds(t, page, lower, lo) && IsWindow(t, view'.cache, lower, hi)
            && view'.cache.nextCursor == page.nextCursor && view'.cache.sessionId == view.cache.sessionId
            && view'.cache.isNewestPageLoaded == view.cache.isNewestPageLoaded
            && view'.cache.messages == Reversed(page.messages) + view.cache.messages
  {
    var s, before := page.sessionId, view.olderPageCursor.value;
    var t := worlds[i][s];
    ServedIsStable(worlds[takenAt][s], t, before, page);
    lower :| Holds(t, page, lower, lo);
    PrependedWindow(t, view.cache, page, before, lower, lo, hi);
  }

  lemma PrependedWindow(t: Transcript, cache: Cache, page: Page, before: nat, lower: nat, lo: nat, hi: nat)
    requires IsWindow(t, cache, lo, hi) && cache.nextCursor == Some(before) && page.sessionId == cache.sessionId
    requires Holds(t, page, lower, lo)
    ensures IsWindow(t, PrependOlderPage(cache, Some(page), before), lower, hi)
  {
    var older := Reversed(page.messages);
    IdsOfReversed(page.messages);
    ReversedTwice(t.ids[lower..lo]);
    assert IdsOf(older + cache.messages) == IdsOf(older) + IdsOf(cache.messages);
    assert t.ids[lower..hi] == t.ids[lower..lo] + t.ids[lo..hi];
  }

  /**
   Any other answer to the request ends it: a failure keeps the cache; one asked at a place the cache has left
   is dropped; and a session that is gone, or another's page, empties the cache for the next poll.
   */
  lemma OtherOlderAnswers(view: View, response: Response, takenAt: nat)
    requires view.olderPageCursor.Some? && (response.Loaded? ==> !IsWanted(view, response.page))
    ensures var view' := ViewAfter(view, ReceiveOlderPage(response, takenAt));
            && view'.olderPageCursor.None? && (view'.hasFailed <==> response.Failed?)
            && view'.cache ==
               if !response.Failed? && view.cache.nextCursor == view.olderPageCursor then NO_CACHE else view.cache
  {
  }

  // ---------- over a history ----------

  /** What was polled last is shown: after the poll of event `i` the window reaches all that poll saw. */
  lemma PolledIsShown(worlds: seq<World>, views: seq<View>, events: seq<Event>, i: nat)
    returns (cuts: seq<nat>, low: nat, high: nat)
    requires IsHistory(worlds, views, events) && i < |events| && events[i].ReceivePoll? && events[i].polled.Some?
    ensures var pages, cache := events[i].polled.value, views[i + 1].cache;
            && pages != [] && |cuts| == |pages| + 1 && pages[0].sessionId in worlds[i]
            && cache.isNewestPageLoaded && cache.sessionId == pages[0].sessionId
            && IsMergedWindow(worlds[i][pages[0].sessionId], views[i].cache, cache, pages, cuts, low, high)
            && ShowsPolled(cache, pages)
  {
    WindowStaysContiguous(worlds, views, events, i);
    assert IsGenuine(worlds, i, views[i], events[i]) && IsWorld(worlds[i]);
    assert forall k :: 0 <= k <= i ==> WorldGrows(worlds[k], worlds[i]);
    cuts, low, high := PollLoads(worlds, i, views[i], events[i].polled.value, events[i].polledAt);
  }

  /** Down to the files: the window then reaches the last line its session's file held when the poll began. */
  lemma PolledLinesAreShown(reader: Reader, states: seq<Files>, views: seq<View>, events: seq<Event>, i: nat,
                            times: seq<nat>)
    returns (cuts: seq<nat>, low: nat, high: nat)
    requires reader.limit >= 1 && IsFileHistory(reader, states, views, events) && i < |events|
    requires events[i].ReceivePoll? && events[i].polled.Some? && events[i].polledAt <= i
    requires IsCutInTurn(reader, states, times, events[i].polledAt, events[i].polled.value)
    ensures var pages, cache := events[i].polled.value, views[i + 1].cache;
            && pages != [] && |cuts| == |pages| + 1 && times[0] < |states|
            && pages[0].sessionId in states[i] && pages[0].sessionId in states[times[0]]
            && cache.isNewestPageLoaded && cache.sessionId == pages[0].sessionId
            && cuts[0] == |SessionTranscript(reader, states[times[0]], pages[0].sessionId).ids|
            && IsMergedWindow(SessionTranscript(reader, states[i], pages[0].sessionId), views[i].cache, cache, pages,
                              cuts, low, high)
            && ShowsPolled(cache, pages)
  {
    var pages, at := events[i].polled.value, events[i].polledAt;
    var s, last := pages[0].sessionId, |pages| - 1;
    cuts := PollFromFiles(reader, states, times, at, pages, last);
    assert pages[..last + 1] == pages;
    CacheIsContiguous(reader, states, views, events, i);
    assert FilesGrow(states[at], states[i]);
    low, high := FilesLoadPoll(reader, states[at], states[i], views[i].cache, pages, cuts);
  }

  lemma FilesLoadPoll(reader: Reader, earlier: Files, files: Files, cache: Cache, pages: seq<Page>, cuts: seq<nat>)
    returns (low: nat, high: nat)
    requires FilesGrow(earlier, files) && IsContiguous(WorldOf(reader, files), cache)
    requires pages != [] && pages[0].sessionId in earlier
    requires IsPoll(SessionTranscript(reader, earlier, pages[0].sessionId), pages, cuts)
    ensures pages[0].sessionId in files
    ensures var cache' := MergePolledPages(cache, pages);
            && cache'.isNewestPageLoaded && cache'.sessionId == pages[0].sessionId && ShowsPolled(cache', pages)
            && IsMergedWindow(SessionTranscript(reader, files, pages[0].sessionId), cache, cache', pages, cuts,
                              low, high)
  {
    var s := pages[0].sessionId;
    var t := SessionTranscript(reader, files, s);
    FilesAreWorld(reader, files);
    GrowingFilesAreGrowingWorld(reader, earlier, files);
    assert WorldOf(reader, earlier)[s] == SessionTranscript(reader, earlier, s) && WorldOf(reader, files)[s] == t;
    PollIsStable(SessionTranscript(reader, earlier, s), t, pages, cuts);
    low, high := PolledWindow(t, cache, pages, cuts);
    MergedIsLoaded(cache, pages);
    forall m | m in AllMessages(pages) && m.id in MessageIds(MergePolledPages(cache, pages).messages)
      ensures m in MergePolledPages(cache, pages).messages
    {
      PolledAreShown(t, cache, pages, cuts, m);
    }
  }
}
