/**
 From the bytes of the transcript files to what the browser shows: while files are appended to and the
 server cuts pages from them at any time, the loaded messages are those of consecutive lines of one file.
 */
module TranscriptWindows {
  import opened Options
  import opened TranscriptPaging
  import opened ConversationCaches
  import opened ConversationFeeds
  import opened ConversationPages

  // ---------- files and pages ----------

  /** The transcript file of each session; a node without one has the empty file of the empty session. */
  type Files = map<string, seq<Byte>>

  /** How many messages a line of a session's file holds, and what each says. */
  datatype Mapper = Mapper(count: Line -> nat, body: MessageId -> string)

  /** How the server reads transcripts: the messages of each session's lines, and the size of a page. */
  datatype Reader = Reader(mappers: string -> Mapper, limit: nat)

  /** Files are created and appended to, never cut or rewritten. */
  ghost predicate FilesGrow(files: Files, files': Files)
  {
    forall s :: s in files ==> s in files' && files[s] <= files'[s]
  }

  ghost predicate OnlyGrow(states: seq<Files>)
  {
    forall i, j :: 0 <= i <= j < |states| ==> FilesGrow(states[i], states[j])
  }

  /** The page is what the server answers for this cursor, from its own session's file as it is in `files`. */
  ghost predicate IsCutFrom(reader: Reader, files: Files, before: Option<nat>, page: Page)
  {
    && page.sessionId in files
    && var mapper := reader.mappers(page.sessionId);
       IsAnswer(files[page.sessionId], page.sessionId, before, reader.limit, mapper.count, mapper.body,
                PageLoaded(page))
  }

  /** The cursor a poll sends for page `n`: none, and then each time that of the page before. */
  function PollCursor(pages: seq<Page>, n: nat): Option<nat>
    requires n <= |pages|
  {
    if n == 0 then None else pages[n - 1].nextCursor
  }

  /** Page `n` of the poll is of the poll's session, cut from its file where the page before ends. */
  ghost predicate IsCutAsPage(reader: Reader, states: seq<Files>, times: seq<nat>, pages: seq<Page>, n: nat)
    requires n < |pages| == |times|
  {
    && times[n] < |states| && pages[n].sessionId == pages[0].sessionId
    && (n > 0 ==> times[n - 1] <= times[n] && PollCursor(pages, n).Some?)
    && IsCutFrom(reader, states[times[n]], PollCursor(pages, n), pages[n])
  }

  /** The pages are cut one after the other, each from the files at its own time, the last one at time `at`. */
  ghost predicate IsCutInTurn(reader: Reader, states: seq<Files>, times: seq<nat>, at: nat, pages: seq<Page>)
  {
    && pages != [] && |times| == |pages| && times[|pages| - 1] == at
    && forall n :: 0 <= n < |pages| ==> IsCutAsPage(reader, states, times, pages, n)
  }

  /**
   The event hands over pages that were cut from the files at some time up to now, for whatever cursor. Of an
   older page the cache will not take nothing is known, as of the empty answer once a transcript is gone.
   */
  ghost predicate IsFromFiles(reader: Reader, states: seq<Files>, i: nat, view: View, event: Event)
    requires i < |states|
  {
    match event
    case TranscriptsGrow => true
    case AskOlderPage => true
    case ReceivePoll(polled, at) =>
      polled.Some? ==> at <= i && exists times :: IsCutInTurn(reader, states, times, at, polled.value)
    case ReceiveOlderPage(response, at) =>
      response.Loaded? && view.olderPageCursor.Some? && IsWanted(view, response.page) ==>
        at <= i && IsCutFrom(reader, states[at], view.olderPageCursor, response.page)
  }

  /** Files that only grow, a view that starts empty, one event at a time. */
  ghost predicate IsFileHistory(reader: Reader, states: seq<Files>, views: seq<View>, events: seq<Event>)
  {
    && |states| == |views| == |events| + 1 && views[0] == NEW_VIEW && OnlyGrow(states)
    && forall i :: 0 <= i < |events| ==>
         && IsFromFiles(reader, states, i, views[i], events[i])
         && views[i + 1] == ViewAfter(views[i], events[i])
  }

  // ---------- the transcripts of the files ----------

  function SessionTranscript(reader: Reader, files: Files, s: string): Transcript
    requires s in files
  {
    TranscriptOf(files[s], reader.mappers(s).count)
  }

  function WorldOf(reader: Reader, files: Files): World
  {
    map s | s in files :: SessionTranscript(reader, files, s)
  }

  lemma FilesAreWorld(reader: Reader, files: Files)
    ensures IsWorld(WorldOf(reader, files))
  {
    forall s | s in files ensures IsTranscript(SessionTranscript(reader, files, s)) {
      FileIsTranscript(files[s], reader.mappers(s).count);
    }
  }

  lemma GrowingFilesAreGrowingWorld(reader: Reader, files: Files, files': Files)
    requires FilesGrow(files, files')
    ensures WorldGrows(WorldOf(reader, files), WorldOf(reader, files'))
  {
    forall s | s in files
      ensures Grows(SessionTranscript(reader, files, s), SessionTranscript(reader, files', s))
    {
      AppendingGrows(files[s], files'[s], reader.mappers(s).count);
    }
  }

  /** A page cut at the start of a line is the page a window needs. */
  lemma CutPageIsServed(reader: Reader, files: Files, before: Option<nat>, page: Page)
    requires reader.limit >= 1 && IsCutFrom(reader, files, before, page)
    requires before.None? || before.value in LineStarts(files[page.sessionId])
    ensures Serves(SessionTranscript(reader, files, page.sessionId), before, page)
  {
    var s, mapper := page.sessionId, reader.mappers(page.sessionId);
    AnswerIsServed(files[s], s, before, reader.limit, mapper.count, mapper.body, PageLoaded(page));
  }

  /** A start of a line, once it lies in the file, always was one. */
  lemma LineStartWasStart(file: seq<Byte>, longer: seq<Byte>, c: nat)
    requires file <= longer && c in LineStarts(longer) && c <= |file|
    ensures c in LineStarts(file)
  {
  }

  lemma FirstPageFromFiles(reader: Reader, files: Files, page: Page) returns (cuts: seq<nat>)
    requires reader.limit >= 1 && IsCutFrom(reader, files, None, page)
    ensures IsPoll(SessionTranscript(reader, files, page.sessionId), [page], cuts)
    ensures cuts[0] == |SessionTranscript(reader, files, page.sessionId).ids|
  {
    var t := SessionTranscript(reader, files, page.sessionId);
    CutPageIsServed(reader, files, None, page);
    var lo :| Holds(t, page, lo, |t.ids|);
    cuts := [|t.ids|, lo];
  }

  lemma NextPageFromFiles(reader: Reader, earlier: Files, files: Files, front: seq<Page>, cuts: seq<nat>, page: Page)
    returns (more: seq<nat>)
    requires reader.limit >= 1 && FilesGrow(earlier, files)
    requires page.sessionId in earlier && front != [] && front[0].sessionId == page.sessionId
    requires front[|front| - 1].nextCursor.Some?
    requires IsPoll(SessionTranscript(reader, earlier, page.sessionId), front, cuts)
    requires IsCutFrom(reader, files, front[|front| - 1].nextCursor, page)
    ensures IsPoll(SessionTranscript(reader, files, page.sessionId), front + [page], more) && more[0] == cuts[0]
  {
    var s := page.sessionId;
    var t, t' := SessionTranscript(reader, earlier, s), SessionTranscript(reader, files, s);
    AppendingGrows(earlier[s], files[s], reader.mappers(s).count);
    assert Holds(t, front[|front| - 1], cuts[|front|], cuts[|front| - 1]);
    CutPageIsServed(reader, files, front[|front| - 1].nextCursor, page);
    more := NextPageAdjoins(t, t', front, cuts, page);
  }

  /** The pages of a poll adjoin, each cut where the one before ends, although the file grows between them. */
  lemma {:induction false} PollFromFiles(reader: Reader, states: seq<Files>, times: seq<nat>, at: nat, pages: seq<Page>,
                                         last: nat)
    returns (cuts: seq<nat>)
    requires reader.limit >= 1 && IsCutInTurn(reader, states, times, at, pages) && OnlyGrow(states)
    requires last < |pages|
    ensures times[last] < |states| && pages[0].sessionId in states[times[last]]
    ensures IsPoll(SessionTranscript(reader, states[times[last]], pages[0].sessionId), pages[..last + 1], cuts)
    ensures times[0] < |states| && pages[0].sessionId in states[times[0]]
    ensures cuts[0] == |SessionTranscript(reader, states[times[0]], pages[0].sessionId).ids|
    decreases last
  {
    assert IsCutAsPage(reader, states, times, pages, last);
    if last == 0 {
      cuts := FirstPageFromFiles(reader, states[times[0]], pages[0]);
      assert pages[..1] == [pages[0]];
    } else {
      var earlier, now := times[last - 1], times[last];
      var fewer := PollFromFiles(reader, states, times, at, pages, last - 1);
      assert FilesGrow(states[earlier], states[now]);
      cuts := NextPageFromFiles(reader, states[earlier], states[now], pages[..last], fewer, pages[last]);
      assert pages[..last + 1] == pages[..last] + [pages[last]];
    }
  }

  function Worlds(reader: Reader, states: seq<Files>): (r: seq<World>)
    ensures |r| == |states| && forall i :: 0 <= i < |r| ==> r[i] == WorldOf(reader, states[i])
  {
    seq(|states|, i requires 0 <= i < |states| => WorldOf(reader, states[i]))
  }

  /** An older page the cache will take was cut at the start of a line: the cursor is one of the file. */
  lemma OlderPageFromFiles(reader: Reader, states: seq<Files>, i: nat, view: View, page: Page, at: nat)
    requires reader.limit >= 1 && at <= i < |states| && FilesGrow(states[at], states[i])
    requires IsContiguous(WorldOf(reader, states[i]), view.cache)
    requires view.olderPageCursor.Some? && IsCutFrom(reader, states[at], view.olderPageCursor, page)
    requires IsWanted(view, page)
    ensures Serves(WorldOf(reader, states[at])[page.sessionId], view.olderPageCursor, page)
  {
    var s, c := page.sessionId, view.olderPageCursor.value;
    var lo, hi :| IsWindow(WorldOf(reader, states[i])[s], view.cache, lo, hi);
    assert c in LineStarts(states[i][s]);
    LineStartWasStart(states[at][s], states[i][s], c);
    CutPageIsServed(reader, states[at], view.olderPageCursor, page);
  }

  lemma EventIsGenuine(reader: Reader, states: seq<Files>, i: nat, view: View, event: Event)
    requires reader.limit >= 1 && i < |states| && IsFromFiles(reader, states, i, view, event) && OnlyGrow(states)
    requires IsContiguous(WorldOf(reader, states[i]), view.cache)
    ensures IsGenuine(Worlds(reader, states), i, view, event)
  {
    match event
    case ReceivePoll(polled, at) =>
      if polled.Some? {
        var times :| IsCutInTurn(reader, states, times, at, polled.value);
        var last := |polled.value| - 1;
        var cuts := PollFromFiles(reader, states, times, at, polled.value, last);
        assert polled.value[..last + 1] == polled.value;
      }
    case ReceiveOlderPage(response, at) =>
      if response.Loaded? && view.olderPageCursor.Some? && IsWanted(view, response.page) {
        assert FilesGrow(states[at], states[i]);
        OlderPageFromFiles(reader, states, i, view, response.page, at);
      }
    case _ =>
  }

  lemma {:induction false} CacheIsContiguous(reader: Reader, states: seq<Files>, views: seq<View>, events: seq<Event>,
                                             i: nat)
    requires reader.limit >= 1 && IsFileHistory(reader, states, views, events) && i <= |events|
    ensures IsContiguous(WorldOf(reader, states[i]), views[i].cache)
  {
    if i > 0 {
      var worlds := Worlds(reader, states);
      CacheIsContiguous(reader, states, views, events, i - 1);
      assert IsFromFiles(reader, states, i - 1, views[i - 1], events[i - 1]);
      EventIsGenuine(reader, states, i - 1, views[i - 1], events[i - 1]);
      FilesAreWorld(reader, states[i - 1]);
      forall k | 0 <= k <= i - 1 ensures WorldGrows(worlds[k], worlds[i - 1]) {
        assert FilesGrow(states[k], states[i - 1]);
        GrowingFilesAreGrowingWorld(reader, states[k], states[i - 1]);
      }
      EventKeepsContiguous(worlds, i - 1, views[i - 1], events[i - 1]);
      assert FilesGrow(states[i - 1], states[i]);
      GrowingFilesAreGrowingWorld(reader, states[i - 1], states[i]);
      ContiguousIsStable(worlds[i - 1], worlds[i], views[i].cache);
    }
  }

  // ---------- down to the bytes ----------

  /** The place of the file from which on messages are loaded. */
  function LoadedFrom(cache: Cache): nat
  {
    if cache.nextCursor.None? then 0 else cache.nextCursor.value
  }

  /**
   The cursor is the start of a line of the file, and the loaded messages are those of its lines from
   there on, in order and without a gap, up to some newest one.
   */
  ghost predicate ShowsLines(reader: Reader, files: Files, cache: Cache)
  {
    && cache.sessionId in files
    && var file := files[cache.sessionId];
       && IsLineStart(file, LoadedFrom(cache))
       && IdsOf(cache.messages) <=
          AllIds(LinesIn(file, 0, LoadedFrom(cache), |file|), reader.mappers(cache.sessionId).count)
  }

  lemma WindowIsPrefix(file: seq<Byte>, c: nat, count: Line -> nat, cache: Cache, lo: nat, hi: nat)
    requires IsWindow(TranscriptOf(file, count), cache, lo, hi) && c == LoadedFrom(cache)
    ensures IsLineStart(file, c)
    ensures IdsOf(cache.messages) <= AllIds(LinesIn(file, 0, c, |file|), count)
  {
    var ids, newer := TranscriptOf(file, count).ids, AllIds(LinesIn(file, 0, c, |file|), count);
    LinesSplit(file, 0, 0, c, |file|);
    AllIdsSplit(LinesBefore(file, c), LinesIn(file, 0, c, |file|), count);
    CutAtLineStart(file, c, |file|, count);
    assert LinesBefore(file, 0) == [];
    PrefixOfRest(AllIds(LinesBefore(file, c), count), newer, lo, hi);
  }

  lemma PrefixOfRest<T>(earlier: seq<T>, newer: seq<T>, lo: nat, hi: nat)
    requires lo == |earlier| && lo <= hi <= |earlier + newer|
    ensures (earlier + newer)[lo..hi] <= newer
  {
    assert (earlier + newer)[lo..hi] == newer[..hi - lo];
  }

  /**
   However appends, polls and older pages interleave, and however late a page arrives: nothing is loaded,
   or exactly the messages of consecutive lines of one session's file.
   */
  lemma ShownLinesAreConsecutive(reader: Reader, states: seq<Files>, views: seq<View>, events: seq<Event>, i: nat)
    requires reader.limit >= 1 && IsFileHistory(reader, states, views, events) && i <= |events|
    ensures views[i].cache == NO_CACHE || ShowsLines(reader, states[i], views[i].cache)
  {
    CacheIsContiguous(reader, states, views, events, i);
    var cache, world := views[i].cache, WorldOf(reader, states[i]);
    if cache != NO_CACHE {
      var s := cache.sessionId;
      var lo, hi :| IsWindow(world[s], cache, lo, hi);
      WindowIsPrefix(states[i][s], LoadedFrom(cache), reader.mappers(s).count, cache, lo, hi);
    }
  }
}
