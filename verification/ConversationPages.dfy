/**
 The page requests behind a loaded transcript: polls that go back until they meet what is loaded,
 older pages on demand, and the window over any history of responses, stale ones included.
 */
module ConversationPages {
  import opened Options
  import opened ConversationCaches

  // ---------- one poll ----------

  datatype Response = Failed | Missing | Loaded(page: Page)

  /** The answer to the request made after `n` pages of the poll, for the page before this cursor. */
  type Answers = (nat, Option<nat>) -> Response

  /** Polls older pages until they meet the cache; none when a request fails. */
  function GetPagesUntilOverlap(cache: Cache, pages: seq<Page>, answers: Answers): Option<seq<Page>>
    requires pages != []
    decreases MAX_POLLED_PAGES - |pages|
  {
    var cursor := GetNextPollCursor(cache, pages);
    if cursor.None? then Some(pages)
    else match answers(|pages|, cursor)
         case Missing => Some(pages)
         case Failed => None
         case Loaded(page) => GetPagesUntilOverlap(cache, pages + [page], answers)
  }

  function GetPolledPages(cache: Cache, answers: Answers): Option<seq<Page>>
  {
    match answers(0, None)
    case Loaded(page) => GetPagesUntilOverlap(cache, [page], answers)
    case _ => None
  }

  /** The transcript at each request of the poll; it grows between them. */
  ghost predicate IsGrowing(times: nat -> Transcript)
  {
    forall j, k :: j <= k ==> Grows(times(j), times(k))
  }

  /** Every page comes from one session, cut from its transcript as it was at that request, if the cursor was in it. */
  ghost predicate AnswersFrom(sessionId: string, times: nat -> Transcript, answers: Answers)
  {
    forall n, cursor :: answers(n, cursor).Loaded? ==>
      && answers(n, cursor).page.sessionId == sessionId
      && (cursor.None? || cursor.value in times(n).starts ==> Serves(times(n), cursor, answers(n, cursor).page))
  }

  lemma NextPageAdjoins(t: Transcript, t': Transcript, pages: seq<Page>, cuts: seq<nat>, page: Page)
    returns (cuts': seq<nat>)
    requires Grows(t, t') && IsPoll(t, pages, cuts) && page.sessionId == pages[0].sessionId
    requires pages[|pages| - 1].nextCursor.Some? && Serves(t', pages[|pages| - 1].nextCursor, page)
    ensures IsPoll(t', pages + [page], cuts') && cuts'[0] == cuts[0]
  {
    PollIsStable(t, t', pages, cuts);
    var last := pages[|pages| - 1];
    assert Holds(t', last, cuts[|pages|], cuts[|pages| - 1]);
    var lo :| Holds(t', page, lo, CutAt(t'.ids, last.nextCursor.value));
    cuts' := cuts + [lo];
    forall i | 0 <= i < |pages + [page]|
      ensures (pages + [page])[i].sessionId == pages[0].sessionId
              && Holds(t', (pages + [page])[i], cuts'[i + 1], cuts'[i])
    {
      if i < |pages| {
        assert Holds(t', pages[i], cuts[i + 1], cuts[i]);
      }
    }
  }

  /** The pages polled so far adjoin each other from the newest message at the first request on. */
  ghost predicate Adjoins(sessionId: string, times: nat -> Transcript, pages: seq<Page>)
  {
    && 0 < |pages| <= MAX_POLLED_PAGES && pages[0].sessionId == sessionId
    && exists cuts :: IsPoll(times(|pages| - 1), pages, cuts) && cuts[0] == |times(0).ids|
  }

  lemma AnsweredPageAdjoins(pages: seq<Page>, answers: Answers, sessionId: string, times: nat -> Transcript)
    requires IsGrowing(times) && AnswersFrom(sessionId, times, answers) && Adjoins(sessionId, times, pages)
    requires |pages| < MAX_POLLED_PAGES && pages[|pages| - 1].nextCursor.Some?
    requires answers(|pages|, pages[|pages| - 1].nextCursor).Loaded?
    ensures Adjoins(sessionId, times, pages + [answers(|pages|, pages[|pages| - 1].nextCursor).page])
  {
    var n, cursor := |pages|, pages[|pages| - 1].nextCursor;
    var page := answers(n, cursor).page;
    var cuts :| IsPoll(times(n - 1), pages, cuts) && cuts[0] == |times(0).ids|;
    assert Grows(times(n - 1), times(n));
    assert Holds(times(n - 1), pages[n - 1], cuts[n], cuts[n - 1]);
    assert Serves(times(n), cursor, page);
    var cuts' := NextPageAdjoins(times(n - 1), times(n), pages, cuts, page);
    assert IsPoll(times(|pages + [page]| - 1), pages + [page], cuts');
  }

  lemma {:induction false} PagesAdjoin(cache: Cache, pages: seq<Page>, answers: Answers,
                                       sessionId: string, times: nat -> Transcript)
    requires IsGrowing(times) && AnswersFrom(sessionId, times, answers) && Adjoins(sessionId, times, pages)
    ensures var polled := GetPagesUntilOverlap(cache, pages, answers);
            polled.Some? ==> Adjoins(sessionId, times, polled.value)
    decreases MAX_POLLED_PAGES - |pages|
  {
    var cursor := GetNextPollCursor(cache, pages);
    if cursor.Some? && answers(|pages|, cursor).Loaded? {
      AnsweredPageAdjoins(pages, answers, sessionId, times);
      PagesAdjoin(cache, pages + [answers(|pages|, cursor).page], answers, sessionId, times);
    }
  }

  /**
   The pages a poll collects adjoin each other, at most ten of them, although the transcript grows
   from one request to the next; they hold its newest messages as of the first request.
   */
  lemma PollAdjoins(cache: Cache, answers: Answers, sessionId: string, times: nat -> Transcript)
    returns (cuts: seq<nat>)
    requires IsGrowing(times) && AnswersFrom(sessionId, times, answers)
    requires GetPolledPages(cache, answers).Some?
    ensures var polled := GetPolledPages(cache, answers).value;
            && 0 < |polled| <= 10 && polled[0].sessionId == sessionId
            && IsPoll(times(|polled| - 1), polled, cuts) && cuts[0] == |times(0).ids|
  {
    FirstPageAdjoins(answers, sessionId, times);
    PagesAdjoin(cache, [answers(0, None).page], answers, sessionId, times);
    var polled := GetPolledPages(cache, answers).value;
    cuts :| IsPoll(times(|polled| - 1), polled, cuts) && cuts[0] == |times(0).ids|;
  }

  lemma FirstPageAdjoins(answers: Answers, sessionId: string, times: nat -> Transcript)
    requires AnswersFrom(sessionId, times, answers) && answers(0, None).Loaded?
    ensures Adjoins(sessionId, times, [answers(0, None).page])
  {
    var page := answers(0, None).page;
    assert Serves(times(0), None, page);
    var lo :| Holds(times(0), page, lo, |times(0).ids|);
    var pages, cuts := [page], [|times(0).ids|, lo];
    assert IsPoll(times(|pages| - 1), pages, cuts) && cuts[0] == |times(0).ids|;
  }

  /** Whether a list of pages shares a message with the cache. */
  predicate Overlaps(cache: Cache, pages: seq<Page>)
  {
    FindOverlap(AllMessages(pages), MessageIds(cache.messages)).Some?
  }

  /** The request after these pages, for the page before the oldest of them, found the node missing. */
  predicate EndsMissing(pages: seq<Page>, answers: Answers)
    requires pages != []
  {
    answers(|pages|, pages[|pages| - 1].nextCursor).Missing?
  }

  lemma {:induction false} PollStops(cache: Cache, pages: seq<Page>, answers: Answers)
    requires pages != [] && GetPagesUntilOverlap(cache, pages, answers).Some?
    ensures var polled := GetPagesUntilOverlap(cache, pages, answers).value;
            && polled != [] && polled[0] == pages[0]
            && (GetNextPollCursor(cache, polled).None? || EndsMissing(polled, answers))
    decreases MAX_POLLED_PAGES - |pages|
  {
    var cursor := GetNextPollCursor(cache, pages);
    if cursor.Some? && answers(|pages|, cursor).Loaded? {
      PollStops(cache, pages + [answers(|pages|, cursor).page], answers);
    }
  }

  /**
   A poll of the loaded session finds the loaded messages again, unless ten pages do not reach back to them
   or the node goes missing on the way; so no shorter poll makes the merge drop what is loaded.
   */
  lemma PollReachesWindow(cache: Cache, answers: Answers, sessionId: string, times: nat -> Transcript, lo: nat, hi: nat)
    requires IsGrowing(times) && AnswersFrom(sessionId, times, answers)
    requires GetPolledPages(cache, answers).Some?
    requires IsTranscript(times(0)) && cache.sessionId == sessionId && IsWindow(times(0), cache, lo, hi) && lo < hi
    requires forall n :: IsTranscript(times(n))
    ensures var polled := GetPolledPages(cache, answers).value;
            && polled != []
            && (Overlaps(cache, polled) || |polled| == MAX_POLLED_PAGES || EndsMissing(polled, answers))
  {
    var polled := GetPolledPages(cache, answers).value;
    var cuts := PollAdjoins(cache, answers, sessionId, times);
    PollStops(cache, [answers(0, None).page], answers);
    var n := |polled|;
    var t := times(n - 1);
    assert Grows(times(0), t);
    WindowIsStable(times(0), t, cache, lo, hi);
    PolledSlice(t, polled, cuts);
    OverlapPlace(t, AllMessages(polled), cuts[n], cuts[0], cache.messages, lo, hi);
    assert Holds(t, polled[n - 1], cuts[n], cuts[n - 1]);
    assert |cache.messages| == |IdsOf(cache.messages)| == hi - lo;
  }

  // ---------- the hook ----------

  datatype View = View(cache: Cache, olderPageCursor: Option<nat>, hasFailed: bool)

  const NEW_VIEW := View(NO_CACHE, None, false)

  /** The user asks for the page before the oldest loaded message. */
  function OlderPageAsked(view: View): View
  {
    if view.olderPageCursor.Some? || view.hasFailed then view
    else view.(olderPageCursor := view.cache.nextCursor)
  }

  /** A poll comes back, with its pages or failed. */
  function PollReceived(view: View, polled: Option<seq<Page>>): View
    requires polled.Some? ==> polled.value != []
  {
    if polled.None? then view.(hasFailed := true)
    else view.(hasFailed := false, cache := MergePolledPages(view.cache, polled.value))
  }

  /** The requested older page comes back. */
  function OlderPageReceived(view: View, response: Response): View
  {
    if view.olderPageCursor.None? then view
    else
      var before := view.olderPageCursor.value;
      match response
      case Failed => view.(olderPageCursor := None, hasFailed := true)
      case Missing =>
        View(PrependOlderPage(view.cache, None, before), None, false)
      case Loaded(page) =>
        View(PrependOlderPage(view.cache, Some(page), before), None, false)
  }

  class ConversationPagesHook {
    var cache: Cache
    var olderPageCursor: Option<nat>
    var hasFailed: bool

    ghost function State(): View
      reads this
    {
      View(cache, olderPageCursor, hasFailed)
    }

    constructor ()
      ensures State() == NEW_VIEW
    {
      cache, olderPageCursor, hasFailed := NO_CACHE, None, false;
    }

    method LoadOlderPage()
      modifies this
      ensures State() == OlderPageAsked(old(State()))
    {
      if olderPageCursor.Some? || hasFailed {
        return;
      }
      olderPageCursor := cache.nextCursor;
    }

    method RefreshNewestPage(polled: Option<seq<Page>>)
      requires polled.Some? ==> polled.value != []
      modifies this
      ensures State() == PollReceived(old(State()), polled)
    {
      hasFailed := polled.None?;
      if polled.None? {
        return;
      }
      cache := MergePolledPages(cache, polled.value);
    }

    method ReceiveOlderPage(response: Response)
      modifies this
      ensures State() == OlderPageReceived(old(State()), response)
    {
      if olderPageCursor.None? {
        return;
      }
      var before := olderPageCursor.value;
      olderPageCursor := None;
      hasFailed := response.Failed?;
      if hasFailed {
        return;
      }
      cache := PrependOlderPage(cache, if response.Loaded? then Some(response.page) else None, before);
    }
  }

  // ---------- histories ----------

  /** The transcripts of all sessions; a node without one has the empty transcript of the empty session. */
  type World = map<string, Transcript>

  ghost predicate WorldGrows(world: World, world': World)
  {
    forall s :: s in world ==> s in world' && Grows(world[s], world'[s])
  }

  ghost predicate IsWorld(world: World)
  {
    forall s :: s in world ==> IsTranscript(world[s])
  }

  /** Empty, or a window of its session's transcript. */
  ghost predicate IsContiguous(world: World, cache: Cache)
  {
    || cache == NO_CACHE
    || (&& cache.isNewestPageLoaded && cache.sessionId in world
        && exists lo, hi :: IsWindow(world[cache.sessionId], cache, lo, hi))
  }

  /** What can happen; `takenAt` is when the server cut the pages, as late or as long ago as it may be. */
  datatype Event =
    | TranscriptsGrow
    | AskOlderPage
    | ReceivePoll(polled: Option<seq<Page>>, polledAt: nat)
    | ReceiveOlderPage(response: Response, takenAt: nat)

  function ViewAfter(view: View, event: Event): View
    requires event.ReceivePoll? && event.polled.Some? ==> event.polled.value != []
  {
    match event
    case TranscriptsGrow => view
    case AskOlderPage => OlderPageAsked(view)
    case ReceivePoll(polled, _) => PollReceived(view, polled)
    case ReceiveOlderPage(response, _) => OlderPageReceived(view, response)
  }

  /** The older page is one the cache will take: of its own session, and asked for at its present cursor. */
  predicate IsWanted(view: View, page: Page)
  {
    page.sessionId == view.cache.sessionId && view.cache.nextCursor == view.olderPageCursor
  }

  /**
   The event hands over pages the server cut from one session's transcript at some time up to now. Of
   an older page the cache will not take nothing is known: after a change of session its cursor may lie
   anywhere in the other transcript.
   */
  ghost predicate IsGenuine(worlds: seq<World>, i: nat, view: View, event: Event)
    requires i < |worlds|
  {
    match event
    case TranscriptsGrow => true
    case AskOlderPage => true
    case ReceivePoll(polled, k) =>
      polled.Some? ==>
        && k <= i && polled.value != [] && polled.value[0].sessionId in worlds[k]
        && exists cuts :: IsPoll(worlds[k][polled.value[0].sessionId], polled.value, cuts)
    case ReceiveOlderPage(response, k) =>
      response.Loaded? && view.olderPageCursor.Some? && IsWanted(view, response.page) ==>
        && k <= i && response.page.sessionId in worlds[k]
        && Serves(worlds[k][response.page.sessionId], view.olderPageCursor, response.page)
  }

  /** Worlds that only grow, views that start empty, one event at a time. */
  ghost predicate IsHistory(worlds: seq<World>, views: seq<View>, events: seq<Event>)
  {
    && |worlds| == |views| == |events| + 1 && views[0] == NEW_VIEW
    && (forall i :: 0 <= i < |worlds| ==> IsWorld(worlds[i]))
    && (forall i, j :: 0 <= i <= j < |worlds| ==> WorldGrows(worlds[i], worlds[j]))
    && forall i :: 0 <= i < |events| ==>
         IsGenuine(worlds, i, views[i], events[i]) && views[i + 1] == ViewAfter(views[i], events[i])
  }

  lemma ContiguousIsStable(world: World, world': World, cache: Cache)
    requires WorldGrows(world, world') && IsContiguous(world, cache)
    ensures IsContiguous(world', cache)
  {
    if cache != NO_CACHE {
      var s := cache.sessionId;
      var lo, hi :| IsWindow(world[s], cache, lo, hi);
      WindowIsStable(world[s], world'[s], cache, lo, hi);
    }
  }

  lemma ServedIsStable(t: Transcript, t': Transcript, before: nat, page: Page)
    requires Grows(t, t') && Serves(t, Some(before), page)
    ensures Serves(t', Some(before), page)
  {
    var lo :| Holds(t, page, lo, CutAt(t.ids, before));
    BoundaryIsStable(t, t', Some(before), CutAt(t.ids, before));
    HeldSliceIsStable(t, t', page, lo, CutAt(t.ids, before));
  }

  lemma PollKeepsContiguous(past: World, world: World, cache: Cache, pages: seq<Page>, cuts: seq<nat>)
    requires WorldGrows(past, world) && IsWorld(world) && IsContiguous(world, cache)
    requires pages != [] && pages[0].sessionId in past && IsPoll(past[pages[0].sessionId], pages, cuts)
    ensures IsContiguous(world, MergePolledPages(cache, pages))
  {
    var s := pages[0].sessionId;
    var merged := MergePolledPages(cache, pages);
    PollIsStable(past[s], world[s], pages, cuts);
    if cache.isNewestPageLoaded && cache.sessionId == s {
      var lo, hi :| IsWindow(world[s], cache, lo, hi);
      MergeKeepsWindow(world[s], cache, pages, cuts, lo, hi);
    } else {
      NewestPageIsWindow(world[s], pages, cuts);
      assert IsWindow(world[s], merged, cuts[1], cuts[0]);
    }
  }

  lemma OlderPageKeepsContiguous(past: World, world: World, cache: Cache, page: Page, before: nat)
    requires WorldGrows(past, world) && IsContiguous(world, cache)
    requires page.sessionId in past && Serves(past[page.sessionId], Some(before), page)
    ensures IsContiguous(world, PrependOlderPage(cache, Some(page), before))
  {
    var s := page.sessionId;
    ServedIsStable(past[s], world[s], before, page);
    if cache != NO_CACHE && cache.nextCursor == Some(before) && s == cache.sessionId {
      var lo, hi :| IsWindow(world[s], cache, lo, hi);
      var lower := PrependKeepsWindow(world[s], cache, page, before, lo, hi);
    }
  }

  lemma EventKeepsContiguous(worlds: seq<World>, i: nat, view: View, event: Event)
    requires i < |worlds| && IsWorld(worlds[i]) && forall k :: 0 <= k <= i ==> WorldGrows(worlds[k], worlds[i])
    requires IsContiguous(worlds[i], view.cache) && IsGenuine(worlds, i, view, event)
    ensures IsContiguous(worlds[i], ViewAfter(view, event).cache)
  {
    match event
    case ReceivePoll(polled, k) =>
      if polled.Some? {
        var cuts :| IsPoll(worlds[k][polled.value[0].sessionId], polled.value, cuts);
        PollKeepsContiguous(worlds[k], worlds[i], view.cache, polled.value, cuts);
      }
    case ReceiveOlderPage(response, k) =>
      if response.Loaded? && view.olderPageCursor.Some? && IsWanted(view, response.page) {
        OlderPageKeepsContiguous(worlds[k], worlds[i], view.cache, response.page, view.olderPageCursor.value);
      }
    case _ =>
  }

  /**
   Whatever the interleaving of growth, polls and older pages, however stale: the loaded messages
   are a gap-free window of one transcript and the cursor is exactly its lower boundary.
   */
  lemma {:induction false} WindowStaysContiguous(worlds: seq<World>, views: seq<View>, events: seq<Event>, i: nat)
    requires IsHistory(worlds, views, events) && i <= |events|
    ensures IsContiguous(worlds[i], views[i].cache)
  {
    if i > 0 {
      WindowStaysContiguous(worlds, views, events, i - 1);
      assert IsGenuine(worlds, i - 1, views[i - 1], events[i - 1]) && IsWorld(worlds[i - 1]);
      assert forall k :: 0 <= k <= i - 1 ==> WorldGrows(worlds[k], worlds[i - 1]);
      EventKeepsContiguous(worlds, i - 1, views[i - 1], events[i - 1]);
      assert WorldGrows(worlds[i - 1], worlds[i]);
      ContiguousIsStable(worlds[i - 1], worlds[i], views[i].cache);
    }
  }

  /** So no message is shown twice or out of order. */
  lemma ShownInOrder(worlds: seq<World>, views: seq<View>, events: seq<Event>, i: nat)
    requires IsHistory(worlds, views, events) && i <= |events|
    ensures var shown := views[i].cache.messages;
            forall j, k :: 0 <= j < k < |shown| ==> IsBefore(shown[j].id, shown[k].id)
  {
    WindowStaysContiguous(worlds, views, events, i);
    var cache := views[i].cache;
    if cache != NO_CACHE {
      var lo, hi :| IsWindow(worlds[i][cache.sessionId], cache, lo, hi);
      assert IsWorld(worlds[i]);
      WindowIsSorted(worlds[i][cache.sessionId], cache, lo, hi);
    }
  }

  // ---------- a poll during which the session changes ----------

  lemma {:induction false} AllMessagesSplit(pages: seq<Page>, more: seq<Page>)
    ensures AllMessages(pages + more) == AllMessages(pages) + AllMessages(more)
    decreases |more|
  {
    if more == [] {
      assert pages + more == pages;
    } else {
      var front, last := more[..|more| - 1], more[|more| - 1];
      AllMessagesSplit(pages, front);
      assert (pages + more)[..|pages + more| - 1] == pages + front;
      assert AllMessages(pages) + (AllMessages(front) + last.messages)
          == AllMessages(pages) + AllMessages(front) + last.messages;
    }
  }

  lemma {:induction false} OverlapInSum(a: seq<Message>, b: seq<Message>, ids: set<MessageId>)
    ensures FindOverlap(a + b, ids) ==
            match FindOverlap(a, ids)
            case Some(k) => Some(k)
            case None => if FindOverlap(b, ids).None? then None else Some(|a| + FindOverlap(b, ids).value)
  {
    if a == [] {
      assert a + b == b;
    } else {
      assert (a + b)[1..] == a[1..] + b;
      OverlapInSum(a[1..], b, ids);
    }
  }

  /** These ids are, by chance, those between the window and the slice from `m` to `n`, if that is not empty. */
  ghost predicate FillsGap(t: Transcript, ids: seq<MessageId>, hi: nat, m: nat, n: nat)
  {
    hi + |ids| <= |t.ids| && ids == t.ids[hi..hi + |ids|] && (m < n ==> m == hi + |ids|)
  }

  lemma SliceOfSlice<T>(s: seq<T>, start: nat, end: nat, i: nat, j: nat)
    requires start <= end <= |s| && i <= j <= end - start
    ensures s[start..end][i..j] == s[start + i..start + j]
  {
    var inner, direct := s[start..end][i..j], s[start + i..start + j];
    assert |inner| == |direct| && forall k :: 0 <= k < |inner| ==> inner[k] == direct[k];
  }

  lemma PartsOfSum<T>(a: seq<T>, b: seq<T>, c: seq<T>)
    ensures (a + (b + c))[|a|..|a| + |b|] == b && (a + (b + c))[|a| + |b|..] == c
  {
    assert (a + (b + c))[|a|..] == b + c;
  }

  lemma FilledIsSlice(t: Transcript, ids: seq<MessageId>, lo: nat, hi: nat, m: nat, n: nat)
    requires lo <= hi <= |t.ids| && m <= n <= |t.ids| && FillsGap(t, ids, hi, m, n)
    ensures var end := hi + |ids| + (n - m);
            end <= |t.ids| && t.ids[lo..hi] + (ids + t.ids[m..n]) == t.ids[lo..end]
  {
  }

  lemma SliceIsFilled(t: Transcript, ids: seq<MessageId>, lo: nat, hi: nat, m: nat, n: nat, end: nat)
    requires IsTranscript(t) && lo <= hi <= |t.ids| && m <= n <= |t.ids| && lo <= end <= |t.ids|
    requires t.ids[lo..hi] + (ids + t.ids[m..n]) == t.ids[lo..end]
    ensures FillsGap(t, ids, hi, m, n)
  {
    var split := hi - lo + |ids|;
    assert |t.ids[lo..end]| == end - lo == split + (n - m);
    PartsOfSum(t.ids[lo..hi], ids, t.ids[m..n]);
    SliceOfSlice(t.ids, lo, end, hi - lo, split);
    SliceOfSlice(t.ids, lo, end, split, end - lo);
    if m < n {
      assert t.ids[m..n][0] == t.ids[m] && t.ids[hi + |ids|..end][0] == t.ids[hi + |ids|];
      IdsAreDistinct(t);
    }
  }

  /** The ids a merge leaves when the first polled message that is cached is message `k`. */
  lemma {:induction false} MergedIds(cache: Cache, pages: seq<Page>, k: nat, taken: seq<MessageId>)
    requires pages != [] && cache.isNewestPageLoaded && cache.sessionId == pages[0].sessionId
    requires FindOverlap(AllMessages(pages), MessageIds(cache.messages)) == Some(k)
    requires k <= |AllMessages(pages)| && IdsOf(Reversed(AllMessages(pages)[..k])) == taken
    ensures var merged := MergePolledPages(cache, pages);
            merged.nextCursor == cache.nextCursor && IdsOf(merged.messages) == IdsOf(cache.messages) + taken
  {
    var polled := AllMessages(pages);
    var refreshed := Refreshed(cache.messages, polled);
    assert IdsOf(refreshed) == IdsOf(cache.messages);
    assert IdsOf(refreshed + Reversed(polled[..k])) == IdsOf(refreshed) + IdsOf(Reversed(polled[..k]));
  }

  lemma ReversedSum<T>(a: seq<T>, b: seq<T>)
    ensures Reversed(a + b) == Reversed(b) + Reversed(a)
  {
  }

  lemma IdsOfSum(a: seq<Message>, b: seq<Message>)
    ensures IdsOf(a + b) == IdsOf(a) + IdsOf(b)
  {
  }

  /** The polled messages down to one of another session, oldest first, when the own ones hold this slice. */
  lemma PolledPastOwn(mine: seq<Message>, others: seq<Message>, f: nat, slice: seq<MessageId>)
    requires f <= |others| && IdsOf(mine) == Reversed(slice)
    ensures IdsOf(Reversed((mine + others)[..|mine| + f])) == IdsOf(Reversed(others[..f])) + slice
  {
    assert (mine + others)[..|mine| + f] == mine + others[..f];
    ReversedSum(mine, others[..f]);
    IdsOfSum(Reversed(others[..f]), Reversed(mine));
    IdsOfReversed(mine);
    ReversedTwice(slice);
  }

  ghost predicate IsSomeWindow(t: Transcript, cache: Cache)
  {
    exists low, high :: IsWindow(t, cache, low, high)
  }

  lemma JoinedWindowIff(t: Transcript, merged: Cache, ids: seq<MessageId>, lo: nat, hi: nat,
                        m: nat, n: nat)
    requires IsTranscript(t) && lo <= hi <= |t.ids| && m <= n <= |t.ids| && IsBoundary(t, merged.nextCursor, lo)
    requires IdsOf(merged.messages) == t.ids[lo..hi] + (ids + t.ids[m..n])
    ensures IsSomeWindow(t, merged) <==> FillsGap(t, ids, hi, m, n)
  {
    if FillsGap(t, ids, hi, m, n) {
      FilledIsSlice(t, ids, lo, hi, m, n);
      assert IsWindow(t, merged, lo, hi + |ids| + (n - m));
    }
    if low, high :| IsWindow(t, merged, low, high) {
      SliceIsFilled(t, ids, lo, hi, m, n, high);
    }
  }

  lemma ForeignTaken(t: Transcript, ids: set<MessageId>, polled: seq<Message>, mine: seq<Message>,
                     others: seq<Message>, f: nat, m: nat, n: nat) returns (k: nat)
    requires m <= n <= |t.ids| && IdsOf(mine) == Reversed(t.ids[m..n]) && polled == mine + others
    requires FindOverlap(mine, ids).None? && f < |others| && FindOverlap(others, ids) == Some(f)
    ensures k <= |polled| && FindOverlap(polled, ids) == Some(k)
    ensures IdsOf(Reversed(polled[..k])) == IdsOf(Reversed(others[..f])) + t.ids[m..n]
  {
    k := |mine| + f;
    OverlapInSum(mine, others, ids);
    PolledPastOwn(mine, others, f, t.ids[m..n]);
  }

  /** A merge that takes these ids and then a slice of the transcript. */
  lemma {:induction false} MeetingAt(t: Transcript, cache: Cache, pages: seq<Page>, polled: seq<Message>, k: nat,
                                     ids: seq<MessageId>, lo: nat, hi: nat, m: nat, n: nat)
    requires IsTranscript(t) && IsWindow(t, cache, lo, hi) && m <= n <= |t.ids| && AllMessages(pages) == polled
    requires pages != [] && cache.isNewestPageLoaded && cache.sessionId == pages[0].sessionId
    requires FindOverlap(polled, MessageIds(cache.messages)) == Some(k) && k <= |polled|
    requires IdsOf(Reversed(polled[..k])) == ids + t.ids[m..n]
    ensures IsSomeWindow(t, MergePolledPages(cache, pages)) <==> FillsGap(t, ids, hi, m, n)
  {
    MergedIds(cache, pages, k, ids + t.ids[m..n]);
    JoinedWindowIff(t, MergePolledPages(cache, pages), ids, lo, hi, m, n);
  }

  /** A merge that meets the cache among the messages of another session. */
  lemma {:induction false} ForeignMeeting(t: Transcript, cache: Cache, pages: seq<Page>, mine: seq<Message>,
                                          others: seq<Message>, f: nat, lo: nat, hi: nat, m: nat, n: nat)
    requires IsTranscript(t) && IsWindow(t, cache, lo, hi) && m <= n <= |t.ids| && IdsOf(mine) == Reversed(t.ids[m..n])
    requires pages != [] && cache.isNewestPageLoaded && cache.sessionId == pages[0].sessionId
    requires AllMessages(pages) == mine + others && FindOverlap(mine, MessageIds(cache.messages)).None?
    requires f < |others| && FindOverlap(others, MessageIds(cache.messages)) == Some(f)
    ensures IsSomeWindow(t, MergePolledPages(cache, pages)) <==>
            FillsGap(t, IdsOf(Reversed(others[..f])), hi, m, n)
  {
    var polled, taken := AllMessages(pages), IdsOf(Reversed(others[..f]));
    var k := ForeignTaken(t, MessageIds(cache.messages), polled, mine, others, f, m, n);
    MeetingAt(t, cache, pages, polled, k, taken, lo, hi, m, n);
  }

  lemma OwnTaken(t: Transcript, cached: seq<Message>, mine: seq<Message>, others: seq<Message>,
                 k: nat, lo: nat, hi: nat, m: nat, n: nat)
    requires IsTranscript(t) && m <= n <= |t.ids| && lo <= hi <= |t.ids| && k < |mine|
    requires IdsOf(mine) == Reversed(t.ids[m..n]) && IdsOf(cached) == t.ids[lo..hi]
    requires FindOverlap(mine, MessageIds(cached)) == Some(k)
    ensures FindOverlap(mine + others, MessageIds(cached)) == Some(k)
    ensures lo < n && k == (if n <= hi then 0 else n - hi) && k <= n
    ensures IdsOf(Reversed((mine + others)[..k])) == t.ids[n - k..n]
  {
    OverlapInSum(mine, others, MessageIds(cached));
    OverlapPlace(t, mine, m, n, cached, lo, hi);
    NewestPolled(t, mine, m, n, k);
    assert (mine + others)[..k] == mine[..k];
  }

  lemma GrownIsWindow(t: Transcript, merged: Cache, lo: nat, hi: nat, n: nat, k: nat)
    requires lo <= hi <= |t.ids| && lo < n <= |t.ids| && k == (if n <= hi then 0 else n - hi) && k <= n
    requires IsBoundary(t, merged.nextCursor, lo) && IdsOf(merged.messages) == t.ids[lo..hi] + t.ids[n - k..n]
    ensures IsSomeWindow(t, merged)
  {
    var end := if n <= hi then hi else n;
    assert t.ids[lo..hi] + t.ids[n - k..n] == t.ids[lo..end];
    assert IsWindow(t, merged, lo, end);
  }

  /** A merge that meets the cache in its own pages. */
  lemma OwnMeeting(t: Transcript, cache: Cache, pages: seq<Page>, mine: seq<Message>,
                   others: seq<Message>, k: nat, lo: nat, hi: nat, m: nat, n: nat)
    requires IsTranscript(t) && IsWindow(t, cache, lo, hi) && m <= n <= |t.ids| && IdsOf(mine) == Reversed(t.ids[m..n])
    requires pages != [] && cache.isNewestPageLoaded && cache.sessionId == pages[0].sessionId
    requires AllMessages(pages) == mine + others && k < |mine|
    requires FindOverlap(mine, MessageIds(cache.messages)) == Some(k)
    ensures IsSomeWindow(t, MergePolledPages(cache, pages))
  {
    OwnTaken(t, cache.messages, mine, others, k, lo, hi, m, n);
    MergedIds(cache, pages, k, t.ids[n - k..n]);
    GrownIsWindow(t, MergePolledPages(cache, pages), lo, hi, n, k);
  }

  lemma NoMeeting(cache: Cache, pages: seq<Page>, mine: seq<Message>, others: seq<Message>)
    requires pages != [] && AllMessages(pages) == mine + others
    requires FindOverlap(mine, MessageIds(cache.messages)).None?
    requires FindOverlap(others, MessageIds(cache.messages)).None?
    ensures MergePolledPages(cache, pages) == CreateConversationCache(pages[0])
  {
    OverlapInSum(mine, others, MessageIds(cache.messages));
  }

  lemma {:induction false} MixedMerge(t: Transcript, cache: Cache, pages: seq<Page>, mine: seq<Message>,
                                      others: seq<Message>, lo: nat, hi: nat, m: nat, n: nat)
    requires IsTranscript(t) && IsWindow(t, cache, lo, hi) && m <= n <= |t.ids| && IdsOf(mine) == Reversed(t.ids[m..n])
    requires pages != [] && cache.isNewestPageLoaded && cache.sessionId == pages[0].sessionId
    requires AllMessages(pages) == mine + others && IsSomeWindow(t, CreateConversationCache(pages[0]))
    ensures var met := FindOverlap(others, MessageIds(cache.messages));
            IsSomeWindow(t, MergePolledPages(cache, pages)) <==>
            (|| FindOverlap(mine, MessageIds(cache.messages)).Some? || met.None?
             || FillsGap(t, IdsOf(Reversed(others[..met.value])), hi, m, n))
  {
    var own, met := FindOverlap(mine, MessageIds(cache.messages)), FindOverlap(others, MessageIds(cache.messages));
    if own.Some? {
      OwnMeeting(t, cache, pages, mine, others, own.value, lo, hi, m, n);
    } else if met.None? {
      NoMeeting(cache, pages, mine, others);
    } else {
      ForeignMeeting(t, cache, pages, mine, others, met.value, lo, hi, m, n);
    }
  }

  /**
   Ids repeat from one session to the next, so a poll whose later pages come from another session can meet
   the cache by chance. The merge leaves a window just when it meets it in its own pages, or not at all, or
   when the foreign ids before the meeting are exactly those of the gap.
   */
  lemma MixedMergeIff(t: Transcript, cache: Cache, own: seq<Page>, cuts: seq<nat>,
                      foreign: seq<Page>, lo: nat, hi: nat)
    requires IsTranscript(t) && IsPoll(t, own, cuts) && IsWindow(t, cache, lo, hi)
    requires cache.isNewestPageLoaded && cache.sessionId == own[0].sessionId
    ensures var others := AllMessages(foreign);
            var met := FindOverlap(others, MessageIds(cache.messages));
            IsSomeWindow(t, MergePolledPages(cache, own + foreign)) <==>
            (|| Overlaps(cache, own) || met.None?
             || FillsGap(t, IdsOf(Reversed(others[..met.value])), hi, cuts[|own|], cuts[0]))
  {
    AllMessagesSplit(own, foreign);
    PolledSlice(t, own, cuts);
    NewestPageIsWindow(t, own, cuts);
    MixedMerge(t, cache, own + foreign, AllMessages(own), AllMessages(foreign), lo, hi, cuts[|own|], cuts[0]);
  }

  const FIRST := MessageId(0, 0)
  const SECOND := MessageId(1, 0)
  const THIRD := MessageId(2, 0)

  const THREE := Transcript([FIRST, SECOND, THIRD], {0, 1, 2})

  function OldCache(body: string): Cache
  {
    Cache("old", [Message(FIRST, body)], None, true)
  }

  function NewestPage(body: string): Page
  {
    Page("old", [Message(THIRD, body)], Some(2))
  }

  function ForeignPage(body: string): Page
  {
    Page("new", [Message(FIRST, body)], None)
  }

  /** One such poll: the message between the cached one and the newest page is skipped. */
  lemma MixedSessionsLeaveGap(body: string)
    ensures IsTranscript(THREE) && IsWindow(THREE, OldCache(body), 0, 1) && Serves(THREE, None, NewestPage(body))
    ensures var merged := MergePolledPages(OldCache(body), [NewestPage(body), ForeignPage(body)]);
            forall lo, hi :: !IsWindow(THREE, merged, lo, hi)
  {
    CutBeforeThird();
    assert THREE.ids[..3] == THREE.ids;
    assert Holds(THREE, NewestPage(body), 2, 3);
    MergedWithForeign(body);
    var ids := IdsOf(MergePolledPages(OldCache(body), [NewestPage(body), ForeignPage(body)]).messages);
    forall lo: nat, hi: nat | lo <= hi <= 3 ensures ids != THREE.ids[lo..hi] {
      if hi == lo + 2 {
        assert THREE.ids[lo..hi][1] == THREE.ids[lo + 1];
      }
    }
  }

  lemma MergedWithForeign(body: string)
    ensures IdsOf(MergePolledPages(OldCache(body), [NewestPage(body), ForeignPage(body)]).messages) == [FIRST, THIRD]
  {
    var cache, newest, foreign := OldCache(body), NewestPage(body), ForeignPage(body);
    TwoPages(newest, foreign);
    var polled := newest.messages + foreign.messages;
    assert polled[1..] == foreign.messages && polled[..1] == newest.messages;
    assert cache.messages[0] in cache.messages;
    MergedIds(cache, [newest, foreign], 1, [THIRD]);
  }

  lemma CutBeforeThird()
    ensures CutAt([FIRST, SECOND, THIRD], 2) == 2
  {
    var ids := [FIRST, SECOND, THIRD];
    assert ids[..2] == [FIRST, SECOND] && ids[..2][..1] == [FIRST] && [FIRST][..0] == [];
    assert CutAt(ids[..2], 2) == 2;
  }

  lemma TwoPages(a: Page, b: Page)
    ensures AllMessages([a, b]) == a.messages + b.messages
  {
    assert [a, b][..1] == [a] && [a][..0] == [];
    assert AllMessages([a]) == AllMessages([]) + a.messages;
  }
}
