/**
 The browser's window over an agent transcript that only grows: merging polls, prepending older
 pages, and what keeps the window contiguous however stale the responses are.
 */
module ConversationCaches {
  import opened Options

  // ---------- messages and pages ----------

  /** The byte offset of the transcript line a message comes from, and its place within that line. */
  datatype MessageId = MessageId(offset: nat, index: nat)

  datatype Message = Message(id: MessageId, body: string)

  /** One page as the server sends it, newest message first. */
  datatype Page = Page(sessionId: string, messages: seq<Message>, nextCursor: Option<nat>)

  /** The loaded part of a transcript, oldest message first. */
  datatype Cache = Cache(
    sessionId: string,
    messages: seq<Message>,
    nextCursor: Option<nat>,
    isNewestPageLoaded: bool)

  const NO_CACHE := Cache("", [], None, false)

  const MAX_POLLED_PAGES := 10

  function Reversed<T>(s: seq<T>): (r: seq<T>)
    ensures |r| == |s| && forall k :: 0 <= k < |s| ==> r[k] == s[|s| - 1 - k]
  {
    seq(|s|, k requires 0 <= k < |s| => s[|s| - 1 - k])
  }

  function IdsOf(messages: seq<Message>): (r: seq<MessageId>)
    ensures |r| == |messages| && forall k :: 0 <= k < |r| ==> r[k] == messages[k].id
  {
    seq(|messages|, k requires 0 <= k < |messages| => messages[k].id)
  }

  function MessageIds(messages: seq<Message>): set<MessageId>
  {
    set m | m in messages :: m.id
  }

  function AllMessages(pages: seq<Page>): seq<Message>
  {
    if pages == [] then [] else AllMessages(pages[..|pages| - 1]) + pages[|pages| - 1].messages
  }

  // ---------- the cache functions ----------

  function CreateConversationCache(newestPage: Page): Cache
  {
    Cache(newestPage.sessionId, Reversed(newestPage.messages), newestPage.nextCursor, true)
  }

  /** The place of the first message with one of these ids. */
  function FindOverlap(messages: seq<Message>, ids: set<MessageId>): (r: Option<nat>)
    ensures r.None? <==> forall k :: 0 <= k < |messages| ==> messages[k].id !in ids
    ensures r.Some? ==> r.value < |messages| && messages[r.value].id in ids
                        && forall k :: 0 <= k < r.value ==> messages[k].id !in ids
  {
    if messages == [] then None
    else if messages[0].id in ids then Some(0)
    else match FindOverlap(messages[1..], ids)
         case None => None
         case Some(k) => Some(k + 1)
  }

  /** The last of these messages with this id. */
  function PolledMessage(messages: seq<Message>, id: MessageId): (r: Option<Message>)
    ensures r.None? <==> id !in IdsOf(messages)
    ensures r.Some? ==> r.value in messages && r.value.id == id
  {
    if messages == [] then None
    else
      var last := messages[|messages| - 1];
      assert messages == messages[..|messages| - 1] + [last];
      assert IdsOf(messages) == IdsOf(messages[..|messages| - 1]) + [last.id];
      if last.id == id then Some(last) else PolledMessage(messages[..|messages| - 1], id)
  }

  function GetLatestMessage(cached: Message, polled: seq<Message>): (r: Message)
    ensures r.id == cached.id
  {
    match PolledMessage(polled, cached.id)
    case None => cached
    case Some(message) => message
  }

  function Refreshed(cached: seq<Message>, polled: seq<Message>): (r: seq<Message>)
    ensures |r| == |cached| && forall k :: 0 <= k < |r| ==> r[k] == GetLatestMessage(cached[k], polled)
  {
    seq(|cached|, k requires 0 <= k < |cached| => GetLatestMessage(cached[k], polled))
  }

  /** The cache with the polled messages merged in, or a cache of the newest polled page when the two do not overlap. */
  function MergePolledPages(cache: Cache, pages: seq<Page>): Cache
    requires pages != []
  {
    var polled := AllMessages(pages);
    var overlap := FindOverlap(polled, MessageIds(cache.messages));
    var isSameSession := cache.isNewestPageLoaded && cache.sessionId == pages[0].sessionId;
    if !isSameSession || overlap.None? then CreateConversationCache(pages[0])
    else cache.(messages := Refreshed(cache.messages, polled) + Reversed(polled[..overlap.value]))
  }

  /** The cache with the older page prepended; unchanged when `before` is no longer its cursor. */
  function PrependOlderPage(cache: Cache, olderPage: Option<Page>, before: nat): Cache
  {
    if cache.nextCursor != Some(before) then cache
    else if olderPage.None? || olderPage.value.sessionId != cache.sessionId then NO_CACHE
    else cache.(messages := Reversed(olderPage.value.messages) + cache.messages,
                nextCursor := olderPage.value.nextCursor)
  }

  /** The cursor of the next older page to poll, or none when the poll needs no more pages. */
  function GetNextPollCursor(cache: Cache, pages: seq<Page>): (r: Option<nat>)
    requires pages != []
    ensures r.Some? ==> |pages| < MAX_POLLED_PAGES && r == pages[|pages| - 1].nextCursor
  {
    var hasOverlap := FindOverlap(AllMessages(pages), MessageIds(cache.messages)).Some?;
    var canOverlap := cache.messages != [] && cache.sessionId == pages[0].sessionId;
    if hasOverlap || !canOverlap || |pages| >= MAX_POLLED_PAGES then None
    else pages[|pages| - 1].nextCursor
  }

  // ---------- transcripts ----------

  predicate IsBefore(a: MessageId, b: MessageId)
  {
    a.offset < b.offset || (a.offset == b.offset && a.index < b.index)
  }

  /** The messages recorded in a transcript file, oldest first, and the offsets at which lines start or may start. */
  datatype Transcript = Transcript(ids: seq<MessageId>, starts: set<nat>)

  ghost predicate IsTranscript(t: Transcript)
  {
    && (forall i, j :: 0 <= i < j < |t.ids| ==> IsBefore(t.ids[i], t.ids[j]))
    && (forall k :: 0 <= k < |t.ids| ==> t.ids[k].offset in t.starts)
  }

  /** The transcript was only appended to. */
  ghost predicate Grows(t: Transcript, t': Transcript)
  {
    && t.ids <= t'.ids && t.starts <= t'.starts
    && forall k, c :: |t.ids| <= k < |t'.ids| && c in t.starts ==> t'.ids[k].offset >= c
  }

  /** How many messages lie before a byte offset. */
  ghost function CutAt(ids: seq<MessageId>, cursor: nat): (r: nat)
    ensures r <= |ids|
  {
    if ids == [] then 0
    else CutAt(ids[..|ids| - 1], cursor) + if ids[|ids| - 1].offset < cursor then 1 else 0
  }

  /** The messages before the cut are those before the offset. */
  lemma {:induction false} CutSplits(t: Transcript, n: nat, cursor: nat)
    requires IsTranscript(t) && n <= |t.ids|
    ensures forall k :: 0 <= k < n ==> (t.ids[k].offset < cursor <==> k < CutAt(t.ids[..n], cursor))
  {
    if n > 0 {
      CutSplits(t, n - 1, cursor);
      assert t.ids[..n][..n - 1] == t.ids[..n - 1];
      var k := CutAt(t.ids[..n - 1], cursor);
      if k < n - 1 {
        assert IsBefore(t.ids[k], t.ids[n - 1]);
      }
    }
  }

  lemma {:induction false} CutIsStable(ids: seq<MessageId>, more: seq<MessageId>, cursor: nat)
    requires forall k :: 0 <= k < |more| ==> more[k].offset >= cursor
    ensures CutAt(ids + more, cursor) == CutAt(ids, cursor)
    decreases |more|
  {
    if more == [] {
      assert ids + more == ids;
    } else {
      var front := more[..|more| - 1];
      assert (ids + more)[..|ids + more| - 1] == ids + front;
      CutIsStable(ids, front, cursor);
    }
  }

  /** The cursor names the boundary below message `lo`, and none is left only at the start. */
  ghost predicate IsBoundary(t: Transcript, cursor: Option<nat>, lo: nat)
  {
    match cursor
    case None => lo == 0
    case Some(c) => c in t.starts && CutAt(t.ids, c) == lo
  }

  lemma BoundaryIsStable(t: Transcript, t': Transcript, cursor: Option<nat>, lo: nat)
    requires Grows(t, t') && IsBoundary(t, cursor, lo)
    ensures IsBoundary(t', cursor, lo)
  {
    if cursor.Some? {
      var more := t'.ids[|t.ids|..];
      assert t'.ids == t.ids + more;
      CutIsStable(t.ids, more, cursor.value);
    }
  }

  // ---------- what pages and windows hold ----------

  /** The page holds the messages from `lo` up to `hi`, and its cursor names the boundary below them. */
  ghost predicate Holds(t: Transcript, page: Page, lo: nat, hi: nat)
  {
    && lo <= hi <= |t.ids|
    && IdsOf(page.messages) == Reversed(t.ids[lo..hi])
    && IsBoundary(t, page.nextCursor, lo)
  }

  /** What the server answers: the newest messages, or those just before a cursor that is the start of a line. */
  ghost predicate Serves(t: Transcript, before: Option<nat>, page: Page)
  {
    match before
    case None => exists lo :: Holds(t, page, lo, |t.ids|)
    case Some(c) => c in t.starts && exists lo :: Holds(t, page, lo, CutAt(t.ids, c))
  }

  /** The cache is a gap-free window, oldest message first, and its cursor is exactly its lower boundary. */
  ghost predicate IsWindow(t: Transcript, cache: Cache, lo: nat, hi: nat)
  {
    && lo <= hi <= |t.ids|
    && IdsOf(cache.messages) == t.ids[lo..hi]
    && IsBoundary(t, cache.nextCursor, lo)
  }

  lemma HeldSliceIsStable(t: Transcript, t': Transcript, page: Page, lo: nat, hi: nat)
    requires Grows(t, t') && Holds(t, page, lo, hi)
    ensures Holds(t', page, lo, hi)
  {
    BoundaryIsStable(t, t', page.nextCursor, lo);
    assert t'.ids[lo..hi] == t.ids[lo..hi];
  }

  lemma WindowIsStable(t: Transcript, t': Transcript, cache: Cache, lo: nat, hi: nat)
    requires Grows(t, t') && IsWindow(t, cache, lo, hi)
    ensures IsWindow(t', cache, lo, hi)
  {
    BoundaryIsStable(t, t', cache.nextCursor, lo);
    assert t'.ids[lo..hi] == t.ids[lo..hi];
  }

  /** A window of a transcript has no duplicates and is sorted. */
  lemma WindowIsSorted(t: Transcript, cache: Cache, lo: nat, hi: nat)
    requires IsTranscript(t) && IsWindow(t, cache, lo, hi)
    ensures forall i, j :: 0 <= i < j < |cache.messages| ==> IsBefore(cache.messages[i].id, cache.messages[j].id)
  {
    var ids := IdsOf(cache.messages);
    forall i, j | 0 <= i < j < |cache.messages| ensures IsBefore(cache.messages[i].id, cache.messages[j].id) {
      assert ids[i] == t.ids[lo + i] && ids[j] == t.ids[lo + j];
    }
  }

  /**
   The pages of one poll, newest first, hold adjoining slices of the transcript: page `i` those from
   `cuts[i + 1]` to `cuts[i]`.
   */
  ghost predicate IsPoll(t: Transcript, pages: seq<Page>, cuts: seq<nat>)
  {
    && pages != [] && |cuts| == |pages| + 1
    && forall i :: 0 <= i < |pages| ==>
         pages[i].sessionId == pages[0].sessionId && Holds(t, pages[i], cuts[i + 1], cuts[i])
  }

  lemma PollIsStable(t: Transcript, t': Transcript, pages: seq<Page>, cuts: seq<nat>)
    requires Grows(t, t') && IsPoll(t, pages, cuts)
    ensures IsPoll(t', pages, cuts)
  {
    forall i | 0 <= i < |pages| ensures Holds(t', pages[i], cuts[i + 1], cuts[i]) {
      HeldSliceIsStable(t, t', pages[i], cuts[i + 1], cuts[i]);
    }
  }

  /** Adjoining pages hold one slice together. */
  lemma {:induction false} PolledSlice(t: Transcript, pages: seq<Page>, cuts: seq<nat>)
    requires IsPoll(t, pages, cuts)
    ensures cuts[|pages|] <= cuts[0] <= |t.ids|
    ensures IdsOf(AllMessages(pages)) == Reversed(t.ids[cuts[|pages|]..cuts[0]])
    decreases |pages|
  {
    var n := |pages|;
    var front, last := pages[..n - 1], pages[n - 1];
    assert Holds(t, last, cuts[n], cuts[n - 1]);
    if n > 1 {
      PolledSlice(t, front, cuts[..n]);
      var all, mine := IdsOf(AllMessages(front)), IdsOf(last.messages);
      assert IdsOf(AllMessages(pages)) == all + mine;
      assert t.ids[cuts[n]..cuts[0]] == t.ids[cuts[n]..cuts[n - 1]] + t.ids[cuts[n - 1]..cuts[0]];
      assert Reversed(t.ids[cuts[n]..cuts[0]]) == all + mine;
    } else {
      assert AllMessages(front) == [];
      assert AllMessages(pages) == last.messages;
    }
  }

  // ---------- merging a poll ----------

  lemma IdsAreDistinct(t: Transcript)
    requires IsTranscript(t)
    ensures forall j, k :: 0 <= j < |t.ids| && 0 <= k < |t.ids| && t.ids[j] == t.ids[k] ==> j == k
  {
    forall j, k | 0 <= j < |t.ids| && 0 <= k < |t.ids| && j != k ensures t.ids[j] != t.ids[k] {
      assert IsBefore(t.ids[if j < k then j else k], t.ids[if j < k then k else j]);
    }
  }

  lemma InWindow(t: Transcript, cached: seq<Message>, lo: nat, hi: nat, k: nat)
    requires IsTranscript(t) && lo <= hi <= |t.ids| && k < |t.ids| && IdsOf(cached) == t.ids[lo..hi]
    ensures t.ids[k] in MessageIds(cached) <==> lo <= k < hi
  {
    IdsAreDistinct(t);
    if lo <= k < hi {
      assert IdsOf(cached)[k - lo] == t.ids[k];
      assert cached[k - lo] in cached;
    }
    if t.ids[k] in MessageIds(cached) {
      var message :| message in cached && message.id == t.ids[k];
      var i :| 0 <= i < |cached| && cached[i] == message;
      assert IdsOf(cached)[i] == t.ids[lo + i];
    }
  }

  lemma IdsOfReversed(messages: seq<Message>)
    ensures IdsOf(Reversed(messages)) == Reversed(IdsOf(messages))
  {
  }

  lemma ReversedTwice<T>(s: seq<T>)
    ensures Reversed(Reversed(s)) == s
  {
  }

  /** The place of the first of these messages within a window, both given by their places in the transcript. */
  lemma OverlapIndex(polled: seq<Message>, ids: set<MessageId>, m: nat, n: nat, lo: nat, hi: nat)
    requires m <= n && |polled| == n - m && lo <= hi
    requires forall k :: 0 <= k < |polled| ==> (polled[k].id in ids <==> lo <= n - 1 - k < hi)
    ensures var overlap := FindOverlap(polled, ids);
            if lo < n && m < hi && m < n && lo < hi
            then overlap == Some(if n <= hi then 0 else n - hi)
            else overlap.None?
  {
    var overlap := FindOverlap(polled, ids);
    if lo < n && m < hi && m < n && lo < hi {
      assert polled[if n <= hi then 0 else n - hi].id in ids;
    }
  }

  lemma NewestPolled(t: Transcript, polled: seq<Message>, m: nat, n: nat, k: nat)
    requires m <= n <= |t.ids| && k <= n - m && IdsOf(polled) == Reversed(t.ids[m..n])
    ensures k <= |polled| && IdsOf(Reversed(polled[..k])) == t.ids[n - k..n]
  {
    assert |polled| == |IdsOf(polled)| == n - m;
    forall i | 0 <= i < k ensures IdsOf(Reversed(polled[..k]))[i] == t.ids[n - k..n][i] {
      assert IdsOf(polled)[k - 1 - i] == t.ids[n - k + i];
    }
  }

  /** Where a slice that is read newest first meets a window. */
  lemma OverlapPlace(t: Transcript, polled: seq<Message>, m: nat, n: nat, cached: seq<Message>, lo: nat, hi: nat)
    requires IsTranscript(t) && m <= n <= |t.ids| && lo <= hi <= |t.ids|
    requires IdsOf(polled) == Reversed(t.ids[m..n]) && IdsOf(cached) == t.ids[lo..hi]
    ensures FindOverlap(polled, MessageIds(cached)) ==
            if lo < n && m < hi && m < n && lo < hi then Some(if n <= hi then 0 else n - hi) else None
  {
    assert |polled| == |IdsOf(polled)| == n - m;
    forall k | 0 <= k < |polled| ensures polled[k].id in MessageIds(cached) <==> lo <= n - 1 - k < hi {
      assert IdsOf(polled)[k] == t.ids[n - 1 - k];
      InWindow(t, cached, lo, hi, n - 1 - k);
    }
    OverlapIndex(polled, MessageIds(cached), m, n, lo, hi);
  }

  /**
   Merging a poll into a window of the same session, however old the poll: where they overlap the
   window grows at its newer end to whatever the poll saw and keeps its older end; otherwise it
   becomes the newest polled page.
   */
  lemma MergeKeepsWindow(t: Transcript, cache: Cache, pages: seq<Page>, cuts: seq<nat>, lo: nat, hi: nat)
    requires IsTranscript(t) && IsPoll(t, pages, cuts)
    requires cache.isNewestPageLoaded && cache.sessionId == pages[0].sessionId && IsWindow(t, cache, lo, hi)
    ensures var merged := MergePolledPages(cache, pages);
            var touches := lo < cuts[0] && cuts[|pages|] < hi && cuts[|pages|] < cuts[0] && lo < hi;
            if touches
            then IsWindow(t, merged, lo, if cuts[0] <= hi then hi else cuts[0])
            else IsWindow(t, merged, cuts[1], cuts[0])
  {
    var polled := AllMessages(pages);
    PolledSlice(t, pages, cuts);
    var m, n := cuts[|pages|], cuts[0];
    OverlapPlace(t, polled, m, n, cache.messages, lo, hi);
    var overlap := FindOverlap(polled, MessageIds(cache.messages));
    if overlap.Some? {
      NewestPolled(t, polled, m, n, overlap.value);
      ExtendedWindow(t, cache, polled, overlap.value, lo, hi, n);
    } else {
      NewestPageIsWindow(t, pages, cuts);
    }
  }

  lemma ExtendedWindow(t: Transcript, cache: Cache, polled: seq<Message>, k: nat, lo: nat, hi: nat, n: nat)
    requires IsWindow(t, cache, lo, hi) && k <= |polled| && n <= |t.ids| && lo < n
    requires k == (if n <= hi then 0 else n - hi) && IdsOf(Reversed(polled[..k])) == t.ids[n - k..n]
    ensures IsWindow(t, cache.(messages := Refreshed(cache.messages, polled) + Reversed(polled[..k])),
                     lo, if n <= hi then hi else n)
  {
    var refreshed, newer := Refreshed(cache.messages, polled), Reversed(polled[..k]);
    assert IdsOf(refreshed) == IdsOf(cache.messages);
    assert IdsOf(refreshed + newer) == IdsOf(refreshed) + IdsOf(newer);
    assert t.ids[lo..hi + k] == t.ids[lo..hi] + t.ids[hi..hi + k];
  }

  lemma NewestPageIsWindow(t: Transcript, pages: seq<Page>, cuts: seq<nat>)
    requires IsPoll(t, pages, cuts)
    ensures IsWindow(t, CreateConversationCache(pages[0]), cuts[1], cuts[0])
  {
    assert Holds(t, pages[0], cuts[1], cuts[0]);
    IdsOfReversed(pages[0].messages);
    ReversedTwice(t.ids[cuts[1]..cuts[0]]);
  }

  /** Prepending the page before the window's cursor extends the window down to the page's cursor. */
  lemma PrependKeepsWindow(t: Transcript, cache: Cache, page: Page, before: nat, lo: nat, hi: nat)
    returns (lower: nat)
    requires IsWindow(t, cache, lo, hi) && cache.nextCursor == Some(before)
    requires page.sessionId == cache.sessionId && Serves(t, Some(before), page)
    ensures lower <= lo && IsWindow(t, PrependOlderPage(cache, Some(page), before), lower, hi)
  {
    lower :| Holds(t, page, lower, lo);
    var older := Reversed(page.messages);
    IdsOfReversed(page.messages);
    ReversedTwice(t.ids[lower..lo]);
    assert IdsOf(older + cache.messages) == IdsOf(older) + IdsOf(cache.messages);
    assert t.ids[lower..hi] == t.ids[lower..lo] + t.ids[lo..hi];
  }

  // ---------- what a merge does to the messages ----------

  lemma MessageAfterOverlap(cached: seq<Message>, polled: seq<Message>, overlap: nat, k: nat)
    requires overlap <= |polled| && k < |cached| + overlap
    ensures var message := (Refreshed(cached, polled) + Reversed(polled[..overlap]))[k];
            message in polled || (message in cached && message.id !in IdsOf(polled))
  {
    if k < |cached| {
      assert Refreshed(cached, polled)[k] == GetLatestMessage(cached[k], polled);
    } else {
      assert Reversed(polled[..overlap])[k - |cached|] == polled[overlap - 1 - (k - |cached|)];
    }
  }

  /** Every message after a merge was polled, or was cached and not polled again; nothing else appears. */
  lemma MergedMessages(cache: Cache, pages: seq<Page>, k: nat)
    requires pages != [] && k < |MergePolledPages(cache, pages).messages|
    ensures var message, polled := MergePolledPages(cache, pages).messages[k], AllMessages(pages);
            message in polled || (message in cache.messages && message.id !in IdsOf(polled))
  {
    var polled := AllMessages(pages);
    var overlap := FindOverlap(polled, MessageIds(cache.messages));
    if !(cache.isNewestPageLoaded && cache.sessionId == pages[0].sessionId) || overlap.None? {
      FirstPagePolled(pages, |pages[0].messages| - 1 - k);
      assert polled[|pages[0].messages| - 1 - k] in polled;
    } else {
      MessageAfterOverlap(cache.messages, polled, overlap.value, k);
    }
  }

  lemma {:induction false} FirstPagePolled(pages: seq<Page>, k: nat)
    requires pages != [] && k < |pages[0].messages|
    ensures k < |AllMessages(pages)| && AllMessages(pages)[k] == pages[0].messages[k]
    decreases |pages|
  {
    if |pages| > 1 {
      FirstPagePolled(pages[..|pages| - 1], k);
    } else {
      assert AllMessages(pages[..0]) == [];
    }
  }
}
