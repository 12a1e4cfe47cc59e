/**
 Reads a transcript file backwards in growing blocks. However the blocks fall, the pages agree with
 the plain forward split of the file into newline-terminated lines.
 */
module TranscriptPaging {
  import opened Options

  type Byte = bv8

  const NEWLINE: Byte := 10

  /** A newline-terminated line without its newline, and the byte offset at which it starts. */
  datatype Line = Line(offset: nat, text: seq<Byte>)

  // ---------- the forward split ----------

  /** The place of the first newline from `start` on, or `end` when there is none before it. */
  function NextNewline(bytes: seq<Byte>, start: nat, end: nat): (r: nat)
    requires start <= end <= |bytes|
    ensures start <= r <= end && (r < end ==> bytes[r] == NEWLINE)
    ensures forall k :: start <= k < r ==> bytes[k] != NEWLINE
    decreases end - start
  {
    if start == end || bytes[start] == NEWLINE then start else NextNewline(bytes, start + 1, end)
  }

  /**
   The newline-terminated lines of the bytes from `start` to `end`, where the first byte of `bytes`
   lies at offset `base` of the file. An unfinished last line is none.
   */
  function LinesIn(bytes: seq<Byte>, base: nat, start: nat, end: nat): seq<Line>
    requires start <= end <= |bytes|
    decreases end - start
  {
    var i := NextNewline(bytes, start, end);
    if i == end then [] else [Line(base + start, bytes[start..i])] + LinesIn(bytes, base, i + 1, end)
  }

  /** The lines of a file that end before an offset. */
  function LinesBefore(file: seq<Byte>, end: nat): seq<Line>
    requires end <= |file|
  {
    LinesIn(file, 0, 0, end)
  }

  lemma NewlineAt(bytes: seq<Byte>, start: nat, i: nat, end: nat)
    requires start <= i < end <= |bytes| && bytes[i] == NEWLINE
    requires forall k :: start <= k < i ==> bytes[k] != NEWLINE
    ensures NextNewline(bytes, start, end) == i
  {
    assert bytes[NextNewline(bytes, start, end)] == NEWLINE;
  }

  lemma NoNewline(bytes: seq<Byte>, start: nat, end: nat)
    requires start <= end <= |bytes| && forall k :: start <= k < end ==> bytes[k] != NEWLINE
    ensures NextNewline(bytes, start, end) == end
  {
  }

  /** The first line of a range that holds a newline, and the others. */
  lemma FirstLine(bytes: seq<Byte>, base: nat, start: nat, end: nat)
    requires start <= end <= |bytes| && NextNewline(bytes, start, end) < end
    ensures var i, all := NextNewline(bytes, start, end), LinesIn(bytes, base, start, end);
            all != [] && all[0] == Line(base + start, bytes[start..i]) && all[1..] == LinesIn(bytes, base, i + 1, end)
  {
  }

  /** Splitting after a newline splits the lines. */
  lemma {:induction false} LinesSplit(bytes: seq<Byte>, base: nat, start: nat, c: nat, end: nat)
    requires start <= c <= end <= |bytes| && (c == start || bytes[c - 1] == NEWLINE)
    ensures LinesIn(bytes, base, start, end) == LinesIn(bytes, base, start, c) + LinesIn(bytes, base, c, end)
    decreases end - start
  {
    if start < c {
      var i := NextNewline(bytes, start, end);
      assert i < c;
      NewlineAt(bytes, start, i, c);
      LinesSplit(bytes, base, i + 1, c, end);
    }
  }

  /** What the forward split is: consecutive lines at their true offsets, from the start to the last newline. */
  ghost predicate IsForwardSplit(bytes: seq<Byte>, start: nat, lines: seq<Line>)
    requires start <= |bytes|
    decreases |lines|
  {
    if lines == [] then forall k :: start <= k < |bytes| ==> bytes[k] != NEWLINE
    else
      var end := start + |lines[0].text|;
      && end < |bytes| && lines[0] == Line(start, bytes[start..end]) && bytes[end] == NEWLINE
      && (forall k :: start <= k < end ==> bytes[k] != NEWLINE)
      && IsForwardSplit(bytes, end + 1, lines[1..])
  }

  lemma {:induction false} LinesAreForwardSplit(bytes: seq<Byte>, start: nat)
    requires start <= |bytes|
    ensures IsForwardSplit(bytes, start, LinesIn(bytes, 0, start, |bytes|))
    decreases |bytes| - start
  {
    var i := NextNewline(bytes, start, |bytes|);
    if i < |bytes| {
      FirstLine(bytes, 0, start, |bytes|);
      LinesAreForwardSplit(bytes, i + 1);
    }
  }

  lemma SplitFirst(bytes: seq<Byte>, start: nat, lines: seq<Line>)
    requires start <= |bytes| && IsForwardSplit(bytes, start, lines) && lines != []
    ensures var end := start + |lines[0].text|;
            && NextNewline(bytes, start, |bytes|) == end < |bytes| && lines[0] == Line(start, bytes[start..end])
            && IsForwardSplit(bytes, end + 1, lines[1..])
  {
    NewlineAt(bytes, start, start + |lines[0].text|, |bytes|);
  }

  /** The lines are the only list that covers the file this way. */
  lemma {:induction false} ForwardSplitIsUnique(bytes: seq<Byte>, start: nat, lines: seq<Line>)
    requires start <= |bytes| && IsForwardSplit(bytes, start, lines)
    ensures lines == LinesIn(bytes, 0, start, |bytes|)
    decreases |lines|
  {
    if lines == [] {
      NoNewline(bytes, start, |bytes|);
    } else {
      SplitFirst(bytes, start, lines);
      FirstLine(bytes, 0, start, |bytes|);
      ForwardSplitIsUnique(bytes, start + |lines[0].text| + 1, lines[1..]);
      assert lines == [lines[0]] + lines[1..];
      var all := LinesIn(bytes, 0, start, |bytes|);
      assert all == [all[0]] + all[1..];
    }
  }

  // ---------- one block ----------

  /** The place of the last newline, or -1. */
  function FindLast(bytes: seq<Byte>, end: nat): (r: int)
    requires end <= |bytes|
    ensures -1 <= r < end && (r >= 0 ==> bytes[r] == NEWLINE)
    ensures forall k :: r < k < end ==> bytes[k] != NEWLINE
  {
    if end == 0 then -1 else if bytes[end - 1] == NEWLINE then end - 1 else FindLast(bytes, end - 1)
  }

  /** The parts between the newlines of the bytes from `start` to `end`, one more than there are newlines. */
  function Split(bytes: seq<Byte>, start: nat, end: nat): (r: seq<seq<Byte>>)
    requires start <= end <= |bytes|
    decreases end - start
  {
    var i := NextNewline(bytes, start, end);
    if i == end then [bytes[start..end]] else [bytes[start..i]] + Split(bytes, i + 1, end)
  }

  function LinesOf(parts: seq<seq<Byte>>, offset: nat): seq<Line>
  {
    if parts == [] then []
    else [Line(offset, parts[0])] + LinesOf(parts[1..], offset + |parts[0]| + 1)
  }

  /** Splitting what lies before the last newline gives the whole lines. */
  lemma {:induction false} SplitIsWholeLines(bytes: seq<Byte>, base: nat, start: nat, last: nat)
    requires start <= last < |bytes| && bytes[last] == NEWLINE
    requires forall k :: last < k < |bytes| ==> bytes[k] != NEWLINE
    ensures LinesIn(bytes, base, start, |bytes|) == LinesOf(Split(bytes, start, last), base + start)
    decreases last - start
  {
    var i := NextNewline(bytes, start, last);
    NewlineAt(bytes, start, i, |bytes|);
    if i == last {
      NoNewline(bytes, last + 1, |bytes|);
      assert LinesIn(bytes, base, last + 1, |bytes|) == [];
      assert [bytes[start..last]][1..] == [];
    } else {
      SplitIsWholeLines(bytes, base, i + 1, last);
      assert Split(bytes, start, last)[1..] == Split(bytes, i + 1, last);
    }
  }

  /**
   The lines that lie whole in a block: unless the block starts the file, what comes before its first
   newline may be cut.
   */
  function BlockLines(block: seq<Byte>, blockStart: nat): seq<Line>
  {
    var first := NextNewline(block, 0, |block|);
    if blockStart == 0 then LinesIn(block, 0, 0, |block|)
    else if first == |block| then []
    else LinesIn(block, blockStart, first + 1, |block|)
  }

  method AddLines(parts: seq<seq<Byte>>, offset: nat) returns (lines: seq<Line>)
    ensures lines == LinesOf(parts, offset)
  {
    lines := [];
    var lineOffset: nat := offset;
    for i := 0 to |parts|
      invariant lines + LinesOf(parts[i..], lineOffset) == LinesOf(parts, offset)
    {
      assert parts[i..][1..] == parts[i + 1..];
      assert lines + ([Line(lineOffset, parts[i])] + LinesOf(parts[i + 1..], lineOffset + |parts[i]| + 1))
          == (lines + [Line(lineOffset, parts[i])]) + LinesOf(parts[i + 1..], lineOffset + |parts[i]| + 1);
      lines := lines + [Line(lineOffset, parts[i])];
      lineOffset := lineOffset + |parts[i]| + 1;
    }
  }

  method ListWholeLines(block: seq<Byte>, blockStart: nat) returns (lines: seq<Line>)
    ensures lines == BlockLines(block, blockStart)
  {
    var first := NextNewline(block, 0, |block|);
    var firstLineStart := if blockStart == 0 || first == |block| then 0 else first + 1;
    var lastLineEnd := FindLast(block, |block|);
    if lastLineEnd < firstLineStart {
      NoNewline(block, firstLineStart, |block|);
      return [];
    }
    assert blockStart != 0 ==> first < |block|;
    SplitIsWholeLines(block, blockStart, firstLineStart, lastLineEnd);
    lines := AddLines(Split(block, firstLineStart, lastLineEnd), blockStart + firstLineStart);
  }

  // ---------- the lines before an offset ----------

  /** The block holds the bytes of the file from `base` on. */
  ghost predicate IsBlockAt(file: seq<Byte>, block: seq<Byte>, base: nat)
  {
    base + |block| <= |file| && forall k :: 0 <= k < |block| ==> block[k] == file[base + k]
  }

  lemma SliceOfBlock(file: seq<Byte>, block: seq<Byte>, base: nat, i: nat, j: nat)
    requires IsBlockAt(file, block, base) && i <= j <= |block|
    ensures block[i..j] == file[base + i..base + j]
  {
    var inner, direct := block[i..j], file[base + i..base + j];
    assert |inner| == |direct| && forall k :: 0 <= k < |inner| ==> inner[k] == direct[k];
  }

  lemma NewlineInBlock(file: seq<Byte>, block: seq<Byte>, base: nat, start: nat)
    requires IsBlockAt(file, block, base) && start <= |block|
    ensures NextNewline(file, base + start, base + |block|) == base + NextNewline(block, start, |block|)
  {
    var i := NextNewline(block, start, |block|);
    forall k | base + start <= k < base + i ensures file[k] != NEWLINE {
      assert block[k - base] == file[k];
    }
    if i == |block| {
      NoNewline(file, base + start, base + |block|);
    } else {
      NewlineAt(file, base + start, base + i, base + |block|);
    }
  }

  lemma SameFirstLine(file: seq<Byte>, block: seq<Byte>, base: nat, start: nat, i: nat)
    requires start <= i <= |block| && base + |block| <= |file|
    requires NextNewline(block, start, |block|) == i && NextNewline(file, base + start, base + |block|) == base + i
    requires block[start..i] == file[base + start..base + i]
    requires i < |block| ==> LinesIn(block, base, i + 1, |block|) == LinesIn(file, 0, base + i + 1, base + |block|)
    ensures LinesIn(block, base, start, |block|) == LinesIn(file, 0, base + start, base + |block|)
  {
  }

  /** A block of a file has the lines of the file. */
  lemma {:induction false} BlockOfFile(file: seq<Byte>, block: seq<Byte>, base: nat, start: nat)
    requires IsBlockAt(file, block, base) && start <= |block|
    ensures LinesIn(block, base, start, |block|) == LinesIn(file, 0, base + start, base + |block|)
    decreases |block| - start
  {
    var i := NextNewline(block, start, |block|);
    NewlineInBlock(file, block, base, start);
    SliceOfBlock(file, block, base, start, i);
    if i < |block| {
      BlockOfFile(file, block, base, i + 1);
    }
    SameFirstLine(file, block, base, start, i);
  }

  datatype PageResult = CursorPastEnd | PageLines(lines: seq<Line>)

  ghost predicate IsTail<T>(all: seq<T>, tail: seq<T>)
  {
    |tail| <= |all| && tail == all[|all| - |tail|..]
  }

  /** The page is a tail of the lines that end before the cursor, and empty only when there are none. */
  ghost predicate IsPageBefore(file: seq<Byte>, end: nat, lines: seq<Line>)
    requires end <= |file|
  {
    var all := LinesBefore(file, end);
    IsTail(all, lines) && (all != [] ==> lines != [])
  }

  lemma SecondIsTail<T>(a: seq<T>, b: seq<T>)
    ensures IsTail(a + b, b)
  {
  }

  lemma LinesAfterNewlineAreTail(file: seq<Byte>, c: nat, end: nat)
    requires 0 < c <= end <= |file| && file[c - 1] == NEWLINE
    ensures IsTail(LinesBefore(file, end), LinesIn(file, 0, c, end))
  {
    LinesSplit(file, 0, 0, c, end);
    SecondIsTail(LinesIn(file, 0, 0, c), LinesIn(file, 0, c, end));
  }

  /** In a block that does not start the file the whole lines begin after its first newline. */
  lemma BlockAfterStart(file: seq<Byte>, block: seq<Byte>, start: nat) returns (c: nat)
    requires IsBlockAt(file, block, start) && start > 0
    ensures BlockLines(block, start) == []
            || (0 < c <= start + |block| && file[c - 1] == NEWLINE
                && BlockLines(block, start) == LinesIn(file, 0, c, start + |block|))
  {
    var first := NextNewline(block, 0, |block|);
    c := start + first + 1;
    if first < |block| {
      BlockOfFile(file, block, start, first + 1);
    }
  }

  /** The lines whole in any last block before a place of the file are a tail of the lines before it. */
  lemma BlockIsTail(file: seq<Byte>, block: seq<Byte>, start: nat)
    requires IsBlockAt(file, block, start)
    ensures IsTail(LinesBefore(file, start + |block|), BlockLines(block, start))
    ensures start == 0 ==> BlockLines(block, start) == LinesBefore(file, start + |block|)
  {
    if start == 0 {
      BlockOfFile(file, block, 0, 0);
    } else {
      var c := BlockAfterStart(file, block, start);
      if BlockLines(block, start) != [] {
        LinesAfterNewlineAreTail(file, c, start + |block|);
      }
    }
  }

  /** The lines before a cursor, or before the end of the file, read in blocks that grow until one line is whole. */
  method ListLinesBefore(file: seq<Byte>, before: Option<nat>, blockSize: nat) returns (result: PageResult)
    requires blockSize >= 1
    ensures result.CursorPastEnd? <==> before.Some? && before.value > |file|
    ensures result.PageLines? ==>
              IsPageBefore(file, if before.None? then |file| else before.value, result.lines)
  {
    var blockEnd := if before.None? then |file| else before.value;
    if blockEnd > |file| {
      return CursorPastEnd;
    }
    var blockStart: nat := blockEnd;
    var lines: seq<Line> := [];
    while lines == [] && blockStart > 0
      invariant blockStart <= blockEnd && lines == BlockLines(file[blockStart..blockEnd], blockStart)
      decreases blockStart
    {
      blockStart := if blockStart > blockSize then blockStart - blockSize else 0;
      lines := ListWholeLines(file[blockStart..blockEnd], blockStart);
    }
    BlockIsTail(file, file[blockStart..blockEnd], blockStart);
    return PageLines(lines);
  }

  // ---------- paging through the whole file ----------

  lemma LineStartStep(bytes: seq<Byte>, start: nat, i: nat, end: nat, k: nat, c: nat)
    requires start <= i < c < end <= |bytes| && NextNewline(bytes, start, end) == i
    requires 0 < k <= |LinesIn(bytes, 0, i + 1, end)|
      && LinesIn(bytes, 0, i + 1, c) == LinesIn(bytes, 0, i + 1, end)[..k - 1]
    ensures LinesIn(bytes, 0, start, c) == LinesIn(bytes, 0, start, end)[..k]
  {
    NewlineAt(bytes, start, i, c);
    FirstLine(bytes, 0, start, c);
    FirstLine(bytes, 0, start, end);
    var some, all := LinesIn(bytes, 0, start, c), LinesIn(bytes, 0, start, end);
    assert some == [some[0]] + some[1..] && all == [all[0]] + all[1..];
    assert all[..k] == [all[0]] + all[1..][..k - 1];
  }

  lemma NothingBeforeFirst(bytes: seq<Byte>, start: nat)
    requires start <= |bytes|
    ensures LinesIn(bytes, 0, start, start) == []
  {
  }

  /** Line `k` starts the range or follows a newline, and the lines before its offset are the first `k`. */
  lemma {:induction false} LineStart(bytes: seq<Byte>, start: nat, end: nat, k: nat)
    requires start <= end <= |bytes| && k < |LinesIn(bytes, 0, start, end)|
    ensures var c := LinesIn(bytes, 0, start, end)[k].offset;
            && start <= c < end && (c == start || bytes[c - 1] == NEWLINE) && (k > 0 ==> c > start)
            && LinesIn(bytes, 0, start, c) == LinesIn(bytes, 0, start, end)[..k]
    decreases end - start
  {
    var i, all := NextNewline(bytes, start, end), LinesIn(bytes, 0, start, end);
    FirstLine(bytes, 0, start, end);
    if k == 0 {
      NothingBeforeFirst(bytes, start);
    } else {
      var others := LinesIn(bytes, 0, i + 1, end);
      assert all[k] == all[1..][k - 1] == others[k - 1];
      LineStart(bytes, i + 1, end, k - 1);
      LineStartStep(bytes, start, i, end, k, all[k].offset);
    }
  }

  /** A page and the lines before its first offset are the lines before the cursor. */
  lemma PageContinues(file: seq<Byte>, end: nat, lines: seq<Line>)
    requires end <= |file| && IsPageBefore(file, end, lines) && lines != []
    ensures lines[0].offset < end && (lines[0].offset == 0 || file[lines[0].offset - 1] == NEWLINE)
    ensures LinesBefore(file, lines[0].offset) + lines == LinesBefore(file, end)
    ensures LinesBefore(file, lines[0].offset) == [] ==> lines[0].offset == 0
  {
    var all := LinesBefore(file, end);
    var k := |all| - |lines|;
    LineStart(file, 0, end, k);
    assert all == all[..k] + lines;
  }

  /** Each page answers the first offset of the page before it; the last one is empty. */
  ghost predicate IsPaging(file: seq<Byte>, end: nat, pages: seq<seq<Line>>)
    requires end <= |file|
    decreases |pages|
  {
    && pages != [] && IsPageBefore(file, end, pages[0])
    && (if pages[0] == [] then |pages| == 1
        else pages[0][0].offset <= |file| && IsPaging(file, pages[0][0].offset, pages[1..]))
  }

  lemma LastPageIsEmpty(file: seq<Byte>, end: nat, pages: seq<seq<Line>>)
    requires end <= |file| && IsPaging(file, end, pages) && |pages| == 1
    ensures pages[0] == [] && LinesBefore(file, end) == []
  {
    assert pages[1..] == [];
  }

  function OldestFirst(pages: seq<seq<Line>>): seq<Line>
  {
    if pages == [] then [] else OldestFirst(pages[1..]) + pages[0]
  }

  /**
   Asking again and again for the lines before the first offset returned visits every
   newline-terminated line exactly once, with its true offset, and ends at offset 0.
   */
  lemma {:induction false} PagingVisitsEveryLine(file: seq<Byte>, end: nat, pages: seq<seq<Line>>)
    requires end <= |file| && IsPaging(file, end, pages)
    ensures OldestFirst(pages) == LinesBefore(file, end)
    ensures |pages| > 1 ==> pages[|pages| - 2] != [] && pages[|pages| - 2][0].offset == 0
    ensures |pages| <= end + 1
    decreases |pages|
  {
    if pages[0] == [] {
      assert pages[1..] == [];
      assert OldestFirst(pages) == [];
    } else {
      var c := pages[0][0].offset;
      PageContinues(file, end, pages[0]);
      PagingVisitsEveryLine(file, c, pages[1..]);
      if |pages| == 2 {
        LastPageIsEmpty(file, c, pages[1..]);
      } else {
        assert pages[1..][|pages[1..]| - 2] == pages[|pages| - 2];
      }
    }
  }

  // ---------- the lines from an offset ----------

  /** The end of the next line read: past its newline, or at the end of the file. */
  function ReadLine(file: seq<Byte>, start: nat): (r: nat)
    requires start <= |file|
    ensures start <= r <= |file|
  {
    var i := NextNewline(file, start, |file|);
    if i == |file| then i else i + 1
  }

  function LinesFrom(file: seq<Byte>, offset: nat): seq<Line>
  {
    if offset <= |file| then LinesIn(file, 0, offset, |file|) else []
  }

  /** The first lines from an offset on, at most `limit`, none of them unfinished. */
  method ListLinesFrom(file: seq<Byte>, offset: nat, limit: nat) returns (lines: seq<Line>)
    ensures var all := LinesFrom(file, offset);
            lines == if |all| <= limit then all else all[..limit]
  {
    lines := [];
    var lineOffset: nat := offset;
    while |lines| < limit
      invariant |lines| <= limit && LinesFrom(file, offset) == lines + LinesFrom(file, lineOffset)
      decreases limit - |lines|
    {
      var lineEnd := if lineOffset <= |file| then ReadLine(file, lineOffset) else lineOffset;
      var isWholeLine := lineOffset < lineEnd && file[lineEnd - 1] == NEWLINE;
      if !isWholeLine {
        assert LinesFrom(file, lineOffset) == [];
        break;
      }
      var line := Line(lineOffset, file[lineOffset..lineEnd - 1]);
      NextLine(file, lineOffset, lineEnd);
      assert lines + ([line] + LinesFrom(file, lineEnd)) == (lines + [line]) + LinesFrom(file, lineEnd);
      lines := lines + [line];
      lineOffset := lineEnd;
    }
  }

  lemma NextLine(file: seq<Byte>, start: nat, end: nat)
    requires start < end <= |file| && end == ReadLine(file, start) && file[end - 1] == NEWLINE
    ensures LinesFrom(file, start) == [Line(start, file[start..end - 1])] + LinesFrom(file, end)
  {
  }
}
