/**
 The server side of a conversation: pages cut from a transcript file block by block, for any cursor.
 At the start of a line they are the pages the browser's window is proved to need.
 */
module ConversationFeeds {
  import opened Options
  import opened TranscriptPaging
  import opened ConversationCaches

  // ---------- the messages of a file ----------

  /** The ids of the messages one line maps to; `count` is how many the mapper makes of a line. */
  function LineIds(line: Line, count: Line -> nat): (r: seq<MessageId>)
    ensures |r| == count(line) && forall k :: 0 <= k < |r| ==> r[k] == MessageId(line.offset, k)
  {
    seq(count(line), (k: nat) => MessageId(line.offset, k))
  }

  function AllIds(lines: seq<Line>, count: Line -> nat): (r: seq<MessageId>)
  {
    if lines == [] then [] else LineIds(lines[0], count) + AllIds(lines[1..], count)
  }

  function Starts(lines: seq<Line>): set<nat>
  {
    set line | line in lines :: line.offset
  }

  /** The start of a line, as a place of the file: a line that is there, or the next to be written. */
  predicate IsLineStart(file: seq<Byte>, c: nat)
  {
    c <= |file| && (c == 0 || file[c - 1] == NEWLINE)
  }

  function LineStarts(file: seq<Byte>): set<nat>
  {
    set c: nat | c <= |file| && IsLineStart(file, c)
  }

  /** What a transcript file holds. */
  function TranscriptOf(file: seq<Byte>, count: Line -> nat): Transcript
  {
    Transcript(AllIds(LinesBefore(file, |file|), count), LineStarts(file))
  }

  lemma {:induction false} AllIdsSplit(a: seq<Line>, b: seq<Line>, count: Line -> nat)
    ensures AllIds(a + b, count) == AllIds(a, count) + AllIds(b, count)
  {
    if a == [] {
      assert a + b == b;
    } else {
      assert (a + b)[1..] == a[1..] + b;
      AllIdsSplit(a[1..], b, count);
    }
  }

  /** The lines of a range lie in it, in order. */
  lemma {:induction false} LinesInOrder(bytes: seq<Byte>, start: nat, end: nat)
    requires start <= end <= |bytes|
    ensures forall line :: line in LinesIn(bytes, 0, start, end) ==> start <= line.offset < end
    decreases end - start
  {
    var i := NextNewline(bytes, start, end);
    if i < end {
      FirstLine(bytes, 0, start, end);
      LinesInOrder(bytes, i + 1, end);
      var all := LinesIn(bytes, 0, start, end);
      forall line | line in all ensures start <= line.offset < end {
        assert line == all[0] || line in all[1..];
      }
    }
  }

  lemma {:induction false} IdsOfLines(lines: seq<Line>, count: Line -> nat)
    ensures forall id :: id in AllIds(lines, count) ==> id.offset in Starts(lines)
  {
    if lines != [] {
      IdsOfLines(lines[1..], count);
      forall id | id in AllIds(lines, count) ensures id.offset in Starts(lines) {
        if id in AllIds(lines[1..], count) {
          assert id.offset in Starts(lines[1..]);
        } else {
          assert id in LineIds(lines[0], count) && lines[0] in lines;
        }
      }
    }
  }

  /** Ids in order, all from lines that start between two offsets. */
  ghost predicate AreOrdered(ids: seq<MessageId>, low: nat, high: nat)
  {
    && (forall k :: 0 <= k < |ids| ==> low <= ids[k].offset < high)
    && forall i, j :: 0 <= i < j < |ids| ==> IsBefore(ids[i], ids[j])
  }

  lemma {:induction false} IdsInOrder(bytes: seq<Byte>, start: nat, end: nat, count: Line -> nat)
    requires start <= end <= |bytes|
    ensures AreOrdered(AllIds(LinesIn(bytes, 0, start, end), count), start, end)
    decreases end - start
  {
    var n := NextNewline(bytes, start, end);
    if n < end {
      FirstLine(bytes, 0, start, end);
      IdsInOrder(bytes, n + 1, end, count);
      var lines := LinesIn(bytes, 0, start, end);
      OrderedSum(LineIds(lines[0], count), AllIds(lines[1..], count), start, n + 1, end);
    }
  }

  /** Ids of one line followed by ids of later lines are in order. */
  lemma OrderedSum(mine: seq<MessageId>, others: seq<MessageId>, offset: nat, next: nat, high: nat)
    requires forall k :: 0 <= k < |mine| ==> mine[k] == MessageId(offset, k)
    requires AreOrdered(others, next, high) && offset < next <= high
    ensures AreOrdered(mine + others, offset, high)
  {
    var all := mine + others;
    forall i, j | 0 <= i < j < |all| ensures IsBefore(all[i], all[j]) {
      if i >= |mine| {
        assert IsBefore(others[i - |mine|], others[j - |mine|]);
      }
    }
  }

  lemma StartIsLineStart(file: seq<Byte>, c: nat)
    requires c in Starts(LinesBefore(file, |file|))
    ensures IsLineStart(file, c) && c < |file|
  {
    var lines := LinesBefore(file, |file|);
    var line :| line in lines && line.offset == c;
    var k :| 0 <= k < |lines| && lines[k] == line;
    LineStart(file, 0, |file|, k);
  }

  /** A file is a transcript: ids in order, each from a line of it. */
  lemma FileIsTranscript(file: seq<Byte>, count: Line -> nat)
    ensures IsTranscript(TranscriptOf(file, count))
  {
    var t := TranscriptOf(file, count);
    IdsInOrder(file, 0, |file|, count);
    IdsOfLines(LinesBefore(file, |file|), count);
    forall k | 0 <= k < |t.ids| ensures t.ids[k].offset in t.starts {
      assert t.ids[k] in t.ids;
      StartIsLineStart(file, t.ids[k].offset);
    }
  }

  lemma CutOfSum(a: seq<MessageId>, b: seq<MessageId>, cursor: nat)
    requires forall k :: 0 <= k < |a| ==> a[k].offset < cursor
    requires forall k :: 0 <= k < |b| ==> b[k].offset >= cursor
    ensures CutAt(a + b, cursor) == |a|
  {
    CutIsStable(a, b, cursor);
    AllBeforeCut(a, cursor);
  }

  lemma {:induction false} AllBeforeCut(a: seq<MessageId>, cursor: nat)
    requires forall k :: 0 <= k < |a| ==> a[k].offset < cursor
    ensures CutAt(a, cursor) == |a|
  {
    if a != [] {
      AllBeforeCut(a[..|a| - 1], cursor);
    }
  }

  /** Cutting a file at the start of a line cuts its messages there. */
  lemma CutAtLineStart(file: seq<Byte>, c: nat, end: nat, count: Line -> nat)
    requires c <= end <= |file| && IsLineStart(file, c)
    ensures AllIds(LinesBefore(file, c), count) <= AllIds(LinesBefore(file, end), count)
    ensures CutAt(AllIds(LinesBefore(file, end), count), c) == |AllIds(LinesBefore(file, c), count)|
  {
    LinesSplit(file, 0, 0, c, end);
    var a, b := LinesIn(file, 0, 0, c), LinesIn(file, 0, c, end);
    AllIdsSplit(a, b, count);
    IdsInOrder(file, 0, c, count);
    IdsInOrder(file, c, end, count);
    CutOfSum(AllIds(a, count), AllIds(b, count), c);
  }

  // ---------- files only grow ----------

  lemma NothingAfterLastNewline(file: seq<Byte>, c: nat)
    requires c == FindLast(file, |file|) + 1
    ensures LinesBefore(file, |file|) == LinesBefore(file, c)
  {
    NoNewline(file, c, |file|);
    assert LinesIn(file, 0, c, |file|) == [];
    LinesSplit(file, 0, 0, c, |file|);
  }

  /** The lines of a longer file are those of the file and then those that start after its last newline. */
  lemma LinesAfterAppend(file: seq<Byte>, longer: seq<Byte>, c: nat)
    requires file <= longer && c == FindLast(file, |file|) + 1
    ensures LinesBefore(longer, |longer|) == LinesBefore(file, |file|) + LinesIn(longer, 0, c, |longer|)
    ensures LinesBefore(file, |file|) == LinesBefore(file, c)
  {
    NothingAfterLastNewline(file, c);
    SamePrefix(file, longer, c);
    assert c == 0 || longer[c - 1] == NEWLINE;
    LinesSplit(longer, 0, 0, c, |longer|);
  }

  lemma SamePrefix(file: seq<Byte>, longer: seq<Byte>, c: nat)
    requires file <= longer && c <= |file|
    ensures LinesBefore(longer, c) == LinesBefore(file, c)
  {
    BlockOfFile(file, file[..c], 0, 0);
    BlockOfFile(longer, file[..c], 0, 0);
  }

  /** Appending to a file, unfinished lines and all, only appends to its transcript. */
  lemma AppendingGrows(file: seq<Byte>, longer: seq<Byte>, count: Line -> nat)
    requires file <= longer
    ensures Grows(TranscriptOf(file, count), TranscriptOf(longer, count))
  {
    var c := FindLast(file, |file|) + 1;
    LinesAfterAppend(file, longer, c);
    var kept, added := LinesBefore(file, |file|), LinesIn(longer, 0, c, |longer|);
    AllIdsSplit(kept, added, count);
    IdsInOrder(longer, c, |longer|, count);
    var before, after := TranscriptOf(file, count), TranscriptOf(longer, count);
    forall k | |before.ids| <= k < |after.ids| ensures after.ids[k].offset >= c {
      assert after.ids[k] == AllIds(added, count)[k - |before.ids|];
    }
    forall s | s in before.starts ensures s in after.starts && s <= c {
    }
  }

  // ---------- one page ----------

  datatype PageAnswer = PageFailed | PageLoaded(page: Page)

  /** The page holds the newest messages before a place of the file, back to the start of a line. */
  ghost predicate IsTailOfLines(file: seq<Byte>, end: nat, lines: seq<Line>)
    requires end <= |file|
  {
    lines != [] ==>
      && lines[0].offset < end && IsLineStart(file, lines[0].offset)
      && LinesBefore(file, lines[0].offset) + lines == LinesBefore(file, end)
      && (LinesBefore(file, lines[0].offset) == [] ==> lines[0].offset == 0)
  }

  function OldestOffset(lines: seq<Line>, end: nat): nat
  {
    if lines == [] then end else lines[0].offset
  }

  lemma EarlierPage(file: seq<Byte>, end: nat, lines: seq<Line>, earlier: seq<Line>)
    requires end <= |file| && IsTailOfLines(file, end, lines)
    requires IsPageBefore(file, OldestOffset(lines, end), earlier) && earlier != []
    ensures IsTailOfLines(file, end, earlier + lines)
    ensures earlier[0].offset < OldestOffset(lines, end)
  {
    PageContinues(file, OldestOffset(lines, end), earlier);
    if lines == [] {
      assert earlier + lines == earlier;
    } else {
      var c := earlier[0].offset;
      assert LinesBefore(file, c) + (earlier + lines) == (LinesBefore(file, c) + earlier) + lines;
    }
  }

  function PageMessages(ids: seq<MessageId>, body: MessageId -> string): (r: seq<Message>)
    ensures IdsOf(r) == Reversed(ids)
  {
    var newestFirst := Reversed(ids);
    var messages := seq(|ids|, k requires 0 <= k < |ids| => Message(newestFirst[k], body(newestFirst[k])));
    assert IdsOf(messages) == newestFirst;
    messages
  }

  /** The page of whole lines read so far; no cursor is left when it reaches the start. */
  function PageOf(sessionId: string, lines: seq<Line>, count: Line -> nat, body: MessageId -> string, limit: nat): Page
  {
    var ids := AllIds(lines, count);
    var oldest := OldestOffset(lines, 0);
    Page(sessionId, PageMessages(ids, body), if |ids| < limit || oldest == 0 then None else Some(oldest))
  }

  function EndOf(file: seq<Byte>, before: Option<nat>): nat
  {
    if before.None? then |file| else before.value
  }

  /**
   The answer for any cursor: none past the end, and otherwise a page of the whole lines just before it,
   with fewer messages than the limit only when no line comes before them.
   */
  ghost predicate IsAnswer(file: seq<Byte>, sessionId: string, before: Option<nat>, limit: nat, count: Line -> nat,
                           body: MessageId -> string, answer: PageAnswer)
  {
    var end := EndOf(file, before);
    if end > |file| then answer.PageFailed?
    else exists lines :: && IsTailOfLines(file, end, lines)
                         && (|AllIds(lines, count)| < limit ==> LinesBefore(file, OldestOffset(lines, end)) == [])
                         && answer == PageLoaded(PageOf(sessionId, lines, count, body, limit))
  }

  /** Before the start of a line, the answer is the page a window needs. */
  lemma AnswerIsServed(file: seq<Byte>, sessionId: string, before: Option<nat>, limit: nat, count: Line -> nat,
                       body: MessageId -> string, answer: PageAnswer)
    requires limit >= 1 && (before.None? || before.value in LineStarts(file))
    requires IsAnswer(file, sessionId, before, limit, count, body, answer)
    ensures answer.PageLoaded? && answer.page.sessionId == sessionId
    ensures Serves(TranscriptOf(file, count), before, answer.page)
  {
    var end := EndOf(file, before);
    var lines :| && IsTailOfLines(file, end, lines)
                 && (|AllIds(lines, count)| < limit ==> LinesBefore(file, OldestOffset(lines, end)) == [])
                 && answer == PageLoaded(PageOf(sessionId, lines, count, body, limit));
    LoadedPageIsServed(file, before, lines, sessionId, count, body, limit);
  }

  /** What a loaded page needs to be a served one. */
  lemma LoadedPageIsServed(file: seq<Byte>, before: Option<nat>, lines: seq<Line>, sessionId: string,
                           count: Line -> nat, body: MessageId -> string, limit: nat)
    requires limit >= 1 && (before.None? || before.value in LineStarts(file))
    requires IsTailOfLines(file, EndOf(file, before), lines)
    requires |AllIds(lines, count)| < limit ==> LinesBefore(file, OldestOffset(lines, EndOf(file, before))) == []
    ensures Serves(TranscriptOf(file, count), before, PageOf(sessionId, lines, count, body, limit))
  {
    var t := TranscriptOf(file, count);
    var end := EndOf(file, before);
    var oldest := OldestOffset(lines, end);
    var page := PageOf(sessionId, lines, count, body, limit);
    var lo, hi := |AllIds(LinesBefore(file, oldest), count)|, |AllIds(LinesBefore(file, end), count)|;
    if before.Some? {
      CutAtLineStart(file, end, |file|, count);
    }
    if lines == [] {
      assert AllIds(lines, count) == [];
      assert t.ids[0..0] == [];
      assert Holds(t, page, 0, hi);
    } else {
      TailIsHeld(file, end, lines, count);
      CutAtLineStart(file, oldest, |file|, count);
      assert LinesBefore(file, 0) == [];
      assert Holds(t, page, lo, hi);
    }
  }

  lemma TailIsHeld(file: seq<Byte>, end: nat, lines: seq<Line>, count: Line -> nat)
    requires end <= |file| && IsTailOfLines(file, end, lines) && lines != []
    requires AllIds(LinesBefore(file, end), count) <= AllIds(LinesBefore(file, |file|), count)
    ensures var t := TranscriptOf(file, count);
            var lo, hi := |AllIds(LinesBefore(file, lines[0].offset), count)|, |AllIds(LinesBefore(file, end), count)|;
            lo <= hi <= |t.ids| && AllIds(lines, count) == t.ids[lo..hi]
  {
    AllIdsSplit(LinesBefore(file, lines[0].offset), lines, count);
    EndOfPrefix(AllIds(LinesBefore(file, lines[0].offset), count), AllIds(lines, count),
                AllIds(LinesBefore(file, |file|), count));
  }

  lemma EndOfPrefix<T>(a: seq<T>, b: seq<T>, all: seq<T>)
    requires a + b <= all
    ensures b == all[|a|..|a + b|]
  {
    assert all[..|a + b|] == a + b;
  }

  lemma PageAnswers(file: seq<Byte>, sessionId: string, before: Option<nat>, lines: seq<Line>, limit: nat,
                    count: Line -> nat, body: MessageId -> string)
    requires limit >= 1 && EndOf(file, before) <= |file| && IsTailOfLines(file, EndOf(file, before), lines)
    requires |AllIds(lines, count)| < limit ==> LinesBefore(file, OldestOffset(lines, EndOf(file, before))) == []
    ensures IsAnswer(file, sessionId, before, limit, count, body,
                     PageLoaded(PageOf(sessionId, lines, count, body, limit)))
    ensures before.None? || before.value in LineStarts(file) ==>
              Serves(TranscriptOf(file, count), before, PageOf(sessionId, lines, count, body, limit))
  {
    if before.None? || before.value in LineStarts(file) {
      LoadedPageIsServed(file, before, lines, sessionId, count, body, limit);
    }
  }

  /** The file at each opening: it may have been appended to since the one before, and no more. */
  ghost predicate IsAppendedTo(openings: nat -> seq<Byte>)
  {
    forall i, j :: i <= j ==> openings(i) <= openings(j)
  }

  /** Appending changes nothing of what comes before a place of the file. */
  lemma SamePageBefore(file: seq<Byte>, longer: seq<Byte>, end: nat, lines: seq<Line>)
    requires file <= longer && end <= |file| && IsPageBefore(longer, end, lines)
    ensures IsPageBefore(file, end, lines)
  {
    SamePrefix(file, longer, end);
  }

  /**
   One page of a conversation: blocks of whole lines, newest first, until they map to `limit` messages
   or the start is reached. Each block opens the file anew; the page is that of the first opening.
   */
  method LoadConversationPage(openings: nat -> seq<Byte>, sessionId: string, before: Option<nat>, limit: nat,
                              blockSize: nat, count: Line -> nat, body: MessageId -> string)
    returns (answer: PageAnswer)
    requires limit >= 1 && blockSize >= 1 && IsAppendedTo(openings)
    ensures IsAnswer(openings(0), sessionId, before, limit, count, body, answer)
    ensures before.None? || before.value in LineStarts(openings(0)) ==>
              answer.PageLoaded? && Serves(TranscriptOf(openings(0), count), before, answer.page)
  {
    ghost var file := openings(0);
    ghost var end := EndOf(file, before);
    var blocks: nat := 0;
    var pageLines: seq<Line> := [];
    while |AllIds(pageLines, count)| < limit
      invariant blocks > 0 ==> end <= |file| && pageLines != []
      invariant end > |file| ==> pageLines == []
      invariant end <= |file| ==> IsTailOfLines(file, end, pageLines)
      decreases OldestOffset(pageLines, end)
    {
      assert file <= openings(blocks);
      var blockEnd := if pageLines != [] then Some(pageLines[0].offset) else before;
      var block := ListLinesBefore(openings(blocks), blockEnd, blockSize);
      if block.CursorPastEnd? {
        return PageFailed;
      }
      SamePageBefore(file, openings(blocks), OldestOffset(pageLines, end), block.lines);
      if block.lines == [] {
        break;
      }
      EarlierPage(file, end, pageLines, block.lines);
      blocks := blocks + 1;
      pageLines := block.lines + pageLines;
    }
    PageAnswers(file, sessionId, before, pageLines, limit, count, body);
    return PageLoaded(PageOf(sessionId, pageLines, count, body, limit));
  }
}
