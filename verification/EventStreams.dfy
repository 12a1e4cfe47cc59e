/**
 Server-sent events as the webhook server writes them and the client reads them back: the `data`
 field of section 9.2.6 of the WHATWG HTML Standard, one line a message, with keep-alive comments.
 */
module EventStreams {
  import opened Options

  const LINE_END := '\n'
  const DATA_FIELD := "data:"

  // ---------- the writer ----------

  /** One turn of the writer: a message from its queue, or a keep-alive when none came in time. */
  datatype Write = Message(text: string) | KeepAlive

  function Written(write: Write): string
  {
    match write
    case Message(text) => "data: " + text + "\n\n"
    case KeepAlive => ": keep-alive\n\n"
  }

  function StreamOf(writes: seq<Write>): string
  {
    if writes == [] then "" else Written(writes[0]) + StreamOf(writes[1..])
  }

  function Given(write: Write): seq<string>
  {
    if write.Message? then [write.text] else []
  }

  function MessagesOf(writes: seq<Write>): seq<string>
  {
    if writes == [] then []
    else Given(writes[0]) + MessagesOf(writes[1..])
  }

  /** Pumps what the queue gives, one turn at a time; none stands for a turn without a message. */
  method PumpMessages(queue: seq<Option<string>>) returns (stream: string)
    ensures stream == StreamOf(seq(|queue|, i requires 0 <= i < |queue| => TurnOf(queue[i])))
  {
    ghost var writes := seq(|queue|, i requires 0 <= i < |queue| => TurnOf(queue[i]));
    stream := "";
    for i := 0 to |queue|
      invariant stream + StreamOf(writes[i..]) == StreamOf(writes)
    {
      var written := if queue[i].Some? then "data: " + queue[i].value + "\n\n" else ": keep-alive\n\n";
      assert written == Written(writes[i]);
      StreamContinues(stream, writes, i);
      stream := stream + written;
    }
  }

  lemma StreamContinues(stream: string, writes: seq<Write>, i: nat)
    requires i < |writes|
    ensures stream + StreamOf(writes[i..]) == stream + Written(writes[i]) + StreamOf(writes[i + 1..])
  {
    assert writes[i..][1..] == writes[i + 1..];
    Regrouped(stream, Written(writes[i]), StreamOf(writes[i + 1..]));
  }

  function TurnOf(turn: Option<string>): Write
  {
    match turn case None => KeepAlive case Some(text) => Message(text)
  }

  /** Every turn is written, a keep-alive too, as a block that a blank line ends. */
  lemma {:induction false} EveryTurnIsWritten(writes: seq<Write>, write: Write)
    ensures StreamOf(writes + [write]) == StreamOf(writes) + Written(write)
    ensures var block := Written(write);
            |block| > 2 && block[|block| - 2..] == "\n\n" && (block[0] == ':' <==> write.KeepAlive?)
  {
    if writes == [] {
      assert writes + [write] == [write] && [write][1..] == [];
      assert StreamOf([write]) == Written(write) + "";
    } else {
      assert (writes + [write])[1..] == writes[1..] + [write];
      EveryTurnIsWritten(writes[1..], write);
    }
  }

  // ---------- the reader ----------

  /** White space, as `str.lstrip` strips it. */
  predicate IsSpace(c: char)
  {
    var n := c as int;
    0x09 <= n <= 0x0D || 0x1C <= n <= 0x20 || n == 0x85 || n == 0xA0 || n == 0x1680 || 0x2000 <= n <= 0x200A
    || n == 0x2028 || n == 0x2029 || n == 0x202F || n == 0x205F || n == 0x3000
  }

  function StripStart(s: string): string
  {
    if s != "" && IsSpace(s[0]) then StripStart(s[1..]) else s
  }

  function StripLineEnd(s: string): string
  {
    if s != "" && (s[|s| - 1] == '\r' || s[|s| - 1] == LINE_END) then StripLineEnd(s[..|s| - 1]) else s
  }

  function JoinLines(lines: seq<string>): string
    requires lines != []
  {
    if |lines| == 1 then lines[0] else JoinLines(lines[..|lines| - 1]) + [LINE_END] + lines[|lines| - 1]
  }

  datatype Reader = Reader(pending: seq<string>, payloads: seq<string>)

  /** What one raw line, with its line end if it has one, does to the reader. */
  function LineRead(reader: Reader, raw: string): Reader
  {
    var line := StripLineEnd(raw);
    if line == "" && reader.pending != [] then
      Reader([], reader.payloads + [JoinLines(reader.pending)])
    else if DATA_FIELD <= line then
      reader.(pending := reader.pending + [StripStart(line[|DATA_FIELD|..])])
    else reader
  }

  function AllRead(reader: Reader, lines: seq<string>): Reader
    decreases |lines|
  {
    if lines == [] then reader else AllRead(LineRead(reader, lines[0]), lines[1..])
  }

  /** The payloads of a stream's lines, in order. */
  method GetPayloads(lines: seq<string>) returns (payloads: seq<string>)
    ensures payloads == AllRead(Reader([], []), lines).payloads
  {
    var pending: seq<string> := [];
    payloads := [];
    for i := 0 to |lines|
      invariant AllRead(Reader(pending, payloads), lines[i..]) == AllRead(Reader([], []), lines)
    {
      assert lines[i..][1..] == lines[i + 1..];
      var line := StripLineEnd(lines[i]);
      if line == "" && pending != [] {
        payloads := payloads + [JoinLines(pending)];
        pending := [];
      } else if DATA_FIELD <= line {
        pending := pending + [StripStart(line[|DATA_FIELD|..])];
      }
    }
  }

  /** The length of the first raw line, its line end included. */
  function FirstLineLength(text: string): (n: nat)
    requires text != ""
    ensures 0 < n <= |text| && forall k :: 0 <= k < n - 1 ==> text[k] != LINE_END
    ensures n < |text| ==> text[n - 1] == LINE_END
  {
    if text[0] == LINE_END || |text| == 1 then 1 else 1 + FirstLineLength(text[1..])
  }

  /** The raw lines of a connection's bytes; only the last may lack its line end. */
  function RawLines(text: string): seq<string>
    decreases |text|
  {
    if text == "" then []
    else [text[..FirstLineLength(text)]] + RawLines(text[FirstLineLength(text)..])
  }

  function Payloads(stream: string): seq<string>
  {
    AllRead(Reader([], []), RawLines(stream)).payloads
  }

  // ---------- lines of a stream ----------

  lemma {:induction false} EndedLength(text: string, i: nat)
    requires i < |text| && text[i] == LINE_END && LINE_END !in text[..i]
    ensures FirstLineLength(text) == i + 1
  {
    if i > 0 {
      assert text[0] == text[..i][0];
      assert text[1..][..i - 1] == text[..i][1..];
      EndedLength(text[1..], i - 1);
    }
  }

  lemma FirstLineIs(line: string, rest: string)
    requires LINE_END !in line
    ensures RawLines(line + [LINE_END] + rest) == [line + [LINE_END]] + RawLines(rest)
  {
    var text := line + [LINE_END] + rest;
    assert text[..|line|] == line;
    EndedLength(text, |line|);
    assert text[..|line| + 1] == line + [LINE_END] && text[|line| + 1..] == rest;
  }

  lemma {:induction false} UnendedLength(line: string)
    requires LINE_END !in line && line != ""
    ensures FirstLineLength(line) == |line|
  {
    if |line| > 1 {
      UnendedLength(line[1..]);
    }
  }

  lemma UnendedLine(line: string)
    requires LINE_END !in line && line != ""
    ensures RawLines(line) == [line]
  {
    UnendedLength(line);
    assert line[..|line|] == line && line[|line|..] == "";
  }

  lemma {:induction false} AllReadSplits(reader: Reader, a: seq<string>, b: seq<string>)
    ensures AllRead(reader, a + b) == AllRead(AllRead(reader, a), b)
    decreases |a|
  {
    if a == [] {
      assert a + b == b;
    } else {
      assert (a + b)[1..] == a[1..] + b;
      AllReadSplits(LineRead(reader, a[0]), a[1..], b);
    }
  }

  lemma OneLine(reader: Reader, line: string)
    ensures AllRead(reader, [line]) == LineRead(reader, line)
  {
    assert [line][1..] == [];
  }

  // ---------- one message ----------

  /** A message the reader gives back as it was: one line, no leading space, no carriage return at its end. */
  predicate IsClean(text: string)
  {
    LINE_END !in text && (text != "" ==> !IsSpace(text[0]) && text[|text| - 1] != '\r')
  }

  lemma StripOneLineEnd(line: string)
    ensures StripLineEnd(line + "\n") == StripLineEnd(line)
    ensures line != "" && line[|line| - 1] != '\r' && line[|line| - 1] != LINE_END ==> StripLineEnd(line) == line
  {
    var raw := line + "\n";
    assert raw[..|raw| - 1] == line;
  }

  lemma MessageLine(reader: Reader, text: string)
    requires IsClean(text)
    ensures LineRead(reader, "data: " + text + "\n") == reader.(pending := reader.pending + [text])
  {
    var line := "data: " + text;
    StripOneLineEnd(line);
    var tail := " " + text;
    assert line == "data:" + tail && line[5..] == tail && line[..5] == "data:";
    assert tail[1..] == text && StripStart(tail) == StripStart(text) == text;
  }

  lemma BlankLine(reader: Reader)
    ensures LineRead(reader, "\n") ==
            if reader.pending == [] then reader else Reader([], reader.payloads + [JoinLines(reader.pending)])
  {
    assert "" + "\n" == "\n";
    StripOneLineEnd("");
  }

  lemma CommentLine(reader: Reader)
    ensures LineRead(reader, ": keep-alive\n") == reader
  {
    var line := ": keep-alive";
    assert line + "\n" == ": keep-alive\n";
    StripOneLineEnd(line);
    assert line[0] == ':' && "data:"[0] == 'd';
  }

  /** The line a write puts before its blank line. */
  function LineOf(write: Write): string
  {
    if write.Message? then "data: " + write.text else ": keep-alive"
  }

  lemma WrittenLines(write: Write, rest: string)
    requires write.Message? ==> LINE_END !in write.text
    ensures RawLines(Written(write) + rest) == [LineOf(write) + "\n", "\n"] + RawLines(rest)
  {
    var line := LineOf(write);
    assert LINE_END !in line;
    var more := "" + [LINE_END] + rest;
    assert Written(write) + rest == line + [LINE_END] + more;
    FirstLineIs(line, more);
    FirstLineIs("", rest);
    assert "" + [LINE_END] == "\n" == [LINE_END];
  }

  lemma WriteEffect(reader: Reader, write: Write)
    requires reader.pending == [] && (write.Message? ==> IsClean(write.text))
    ensures LineRead(LineRead(reader, LineOf(write) + "\n"), "\n") == Reader([], reader.payloads + Given(write))
  {
    if write.Message? {
      MessageLine(reader, write.text);
      assert reader.pending + [write.text] == [write.text];
      BlankLine(reader.(pending := [write.text]));
    } else {
      assert LineOf(write) + "\n" == ": keep-alive\n";
      CommentLine(reader);
      BlankLine(reader);
      assert reader.payloads + [] == reader.payloads;
    }
  }

  /** One write, read between messages, gives its message back and leaves the reader between messages. */
  lemma WriteRead(reader: Reader, write: Write, rest: string)
    requires reader.pending == [] && (write.Message? ==> IsClean(write.text))
    ensures AllRead(reader, RawLines(Written(write) + rest)) ==
            AllRead(Reader([], reader.payloads + Given(write)), RawLines(rest))
  {
    WrittenLines(write, rest);
    WriteEffect(reader, write);
    var lines := [LineOf(write) + "\n", "\n"];
    AllReadSplits(reader, lines, RawLines(rest));
    AllReadSplits(reader, [lines[0]], [lines[1]]);
    assert [lines[0]] + [lines[1]] == lines;
    OneLine(reader, lines[0]);
    OneLine(LineRead(reader, lines[0]), lines[1]);
  }

  // ---------- whole streams ----------

  predicate AreClean(writes: seq<Write>)
  {
    forall w :: w in writes && w.Message? ==> IsClean(w.text)
  }

  lemma {:induction false} StreamRead(reader: Reader, writes: seq<Write>)
    requires reader.pending == [] && AreClean(writes)
    ensures AllRead(reader, RawLines(StreamOf(writes))) == Reader([], reader.payloads + MessagesOf(writes))
    decreases |writes|
  {
    if writes == [] {
      assert reader.payloads + [] == reader.payloads;
    } else {
      assert writes[0] in writes;
      var next := Reader([], reader.payloads + Given(writes[0]));
      WriteRead(reader, writes[0], StreamOf(writes[1..]));
      StreamRead(next, writes[1..]);
      Regrouped(reader.payloads, Given(writes[0]), MessagesOf(writes[1..]));
    }
  }

  /** Reading back a stream of clean messages gives exactly those messages, in order, wherever keep-alives fall. */
  lemma StreamRoundTrip(writes: seq<Write>)
    requires AreClean(writes)
    ensures Payloads(StreamOf(writes)) == MessagesOf(writes)
  {
    StreamRead(Reader([], []), writes);
    assert [] + MessagesOf(writes) == MessagesOf(writes);
  }

  // ---------- cut streams ----------

  /** A write that is cut short gives nothing. */
  lemma CutWrite(reader: Reader, write: Write, n: nat)
    requires reader.pending == [] && (write.Message? ==> IsClean(write.text)) && n < |Written(write)|
    ensures AllRead(reader, RawLines(Written(write)[..n])).payloads == reader.payloads
  {
    var line := LineOf(write);
    var part := Written(write)[..n];
    if n == |line| + 1 {
      assert part == line + [LINE_END] + "";
      FirstLineIs(line, "");
      OneLine(reader, line + [LINE_END]);
    } else if n > 0 {
      assert part == line[..n];
      UnendedLine(part);
      OneLine(reader, part);
    }
  }

  lemma {:induction false} CutStreamRead(reader: Reader, writes: seq<Write>, n: nat)
    requires reader.pending == [] && AreClean(writes) && n <= |StreamOf(writes)|
    ensures AllRead(reader, RawLines(StreamOf(writes)[..n])).payloads <= reader.payloads + MessagesOf(writes)
    decreases |writes|
  {
    if writes != [] {
      assert writes[0] in writes;
      var first, rest := Written(writes[0]), StreamOf(writes[1..]);
      var cut := (first + rest)[..n];
      if n < |first| {
        assert cut == first[..n];
        CutWrite(reader, writes[0], n);
      } else {
        var next := Reader([], reader.payloads + Given(writes[0]));
        assert cut == first + rest[..n - |first|];
        WriteRead(reader, writes[0], rest[..n - |first|]);
        CutStreamRead(next, writes[1..], n - |first|);
        Regrouped(reader.payloads, Given(writes[0]), MessagesOf(writes[1..]));
      }
    }
  }

  lemma Regrouped<T>(a: seq<T>, b: seq<T>, c: seq<T>)
    ensures a + b + c == a + (b + c)
  {
  }

  /** Wherever the connection breaks, what was read is a prefix of the messages: none is torn or made up. */
  lemma CutStreamGivesPrefix(writes: seq<Write>, n: nat)
    requires AreClean(writes) && n <= |StreamOf(writes)|
    ensures Payloads(StreamOf(writes)[..n]) <= MessagesOf(writes)
  {
    CutStreamRead(Reader([], []), writes, n);
    assert [] + MessagesOf(writes) == MessagesOf(writes);
  }

  // ---------- exactly which messages survive ----------

  function Total(payloads: seq<string>): nat
  {
    if payloads == [] then 0 else Total(payloads[..|payloads| - 1]) + |payloads[|payloads| - 1]|
  }

  function Held(reader: Reader): nat
  {
    Total(reader.payloads) + if reader.pending == [] then 0 else |JoinLines(reader.pending)|
  }

  lemma {:induction false} StripsShorten(s: string)
    ensures |StripStart(s)| <= |s| && |StripLineEnd(s)| <= |s|
  {
    if s != "" {
      StripsShorten(s[1..]);
      StripsShorten(s[..|s| - 1]);
    }
  }

  /** A line adds less to what the reader holds than it has characters, its line end included. */
  lemma LineHolds(reader: Reader, raw: string)
    requires raw != ""
    ensures Held(LineRead(reader, raw)) < Held(reader) + |raw|
  {
    var line := StripLineEnd(raw);
    StripsShorten(raw);
    if line == "" && reader.pending != [] {
      var joined := JoinLines(reader.pending);
      assert (reader.payloads + [joined])[..|reader.payloads|] == reader.payloads;
    } else if DATA_FIELD <= line {
      var piece := StripStart(line[|DATA_FIELD|..]);
      StripsShorten(line[|DATA_FIELD|..]);
      assert (reader.pending + [piece])[..|reader.pending|] == reader.pending;
    }
  }

  lemma {:induction false} LinesHold(reader: Reader, text: string)
    requires text != ""
    ensures Held(AllRead(reader, RawLines(text))) < Held(reader) + |text|
    decreases |text|
  {
    var n := FirstLineLength(text);
    LineHolds(reader, text[..n]);
    if n < |text| {
      LinesHold(LineRead(reader, text[..n]), text[n..]);
    } else {
      assert text[n..] == "";
    }
  }

  lemma {:induction false} StripLineEndProperties(s: string, k: nat)
    ensures StripLineEnd(s) <= s
    ensures StripLineEnd(s) != "" ==> StripLineEnd(s)[|StripLineEnd(s)| - 1] != '\r'
    ensures k < |s| && s[k] != '\r' && s[k] != LINE_END ==> k < |StripLineEnd(s)|
  {
    if s != "" {
      StripLineEndProperties(s[..|s| - 1], k);
    }
  }

  lemma {:induction false} StripStartProperties(s: string)
    ensures |StripStart(s)| <= |s| && StripStart(s) == s[|s| - |StripStart(s)|..]
    ensures StripStart(s) != "" ==> !IsSpace(StripStart(s)[0])
    ensures s != "" && IsSpace(s[0]) ==> |StripStart(s)| < |s|
  {
    if s != "" && IsSpace(s[0]) {
      StripStartProperties(s[1..]);
      assert s[1..][|s| - 1 - |StripStart(s)|..] == s[|s| - |StripStart(s)|..];
    }
  }

  /** What the reader makes of a first data line. */
  lemma FirstLineRead(first: string) returns (payload: string)
    requires LINE_END !in first
    ensures LineRead(Reader([], []), "data: " + first + "\n") == Reader([payload], [])
    ensures |payload| <= |first|
    ensures payload != "" ==> !IsSpace(payload[0]) && payload[|payload| - 1] != '\r'
  {
    var raw := "data: " + first;
    StripOneLineEnd(raw);
    StripLineEndProperties(raw, 5);
    var line := StripLineEnd(raw);
    assert line == raw[..|line|] && raw[..5] == "data:";
    assert line[..5] == "data:";
    var tail := line[5..];
    assert tail[0] == ' ';
    StripStartProperties(tail);
    payload := StripStart(tail);
    assert [] + [payload] == [payload];
  }

  /** The place of the first line end in a text that holds one. */
  lemma SplitAtLineEnd(text: string) returns (first: string, more: string)
    requires LINE_END in text
    ensures text == first + [LINE_END] + more && LINE_END !in first
  {
    var n := FirstLineLength(text);
    if n == |text| && text[n - 1] != LINE_END {
      assert false;
    }
    first, more := text[..n - 1], text[n..];
    assert text == first + [LINE_END] + more;
  }

  lemma {:induction false} RawLinesSplit(a: string, b: string)
    requires a != "" && a[|a| - 1] == LINE_END
    ensures RawLines(a + b) == RawLines(a) + RawLines(b)
    decreases |a|
  {
    assert a[|a| - 1] in a;
    var line, more := SplitAtLineEnd(a);
    if more == "" {
      assert more + b == b;
    } else {
      assert more[|more| - 1] == a[|a| - 1];
      RawLinesSplit(more, b);
    }
    RawLinesSplitAfter(line, more, b);
  }

  lemma RawLinesSplitAfter(line: string, more: string, b: string)
    requires LINE_END !in line && RawLines(more + b) == RawLines(more) + RawLines(b)
    ensures RawLines(line + [LINE_END] + more + b) == RawLines(line + [LINE_END] + more) + RawLines(b)
  {
    FirstLineIs(line, more);
    FirstLineIs(line, more + b);
    Regrouped(line + [LINE_END], more, b);
  }

  /** A message with a line end loses at least that: the payloads together are shorter. */
  lemma LineEndIsLost(first: string, more: string)
    requires LINE_END !in first
    ensures var text := first + [LINE_END] + more;
            Total(Payloads(Written(Message(text)))) < |text|
  {
    var text := first + [LINE_END] + more;
    var payload := FirstLineRead(first);
    var start, body := "data: " + first, more + "\n";
    assert Written(Message(text)) == start + [LINE_END] + (body + "\n");
    FirstLineIs(start, body + "\n");
    assert start + [LINE_END] == "data: " + first + "\n";
    RawLinesSplit(body, "\n");
    var reader := Reader([payload], []);
    var lines := RawLines(body + "\n");
    AllReadSplits(Reader([], []), [start + [LINE_END]], lines);
    OneLine(Reader([], []), start + [LINE_END]);
    LinesHold(reader, body);
    AllReadSplits(reader, RawLines(body), RawLines("\n"));
    LinesHold(AllRead(reader, RawLines(body)), "\n");
  }

  /**
   A message comes back alone and unchanged exactly when it is one line without leading white space
   and without a carriage return at its end.
   */
  lemma MessageSurvivesIff(text: string)
    ensures Payloads(Written(Message(text))) == [text] <==> IsClean(text)
  {
    if IsClean(text) {
      StreamRoundTrip([Message(text)]);
      OneMessage(text);
    } else if LINE_END in text {
      var first, more := SplitAtLineEnd(text);
      LineEndIsLost(first, more);
      assert [text][..0] == [];
      assert Total([text]) == |text|;
    } else {
      var payload := FirstLineRead(text);
      WrittenLines(Message(text), "");
      assert Written(Message(text)) + "" == Written(Message(text));
      var lines := ["data: " + text + "\n", "\n"];
      AllReadSplits(Reader([], []), [lines[0]], [lines[1]]);
      assert [lines[0]] + [lines[1]] == lines && lines + [] == lines;
      OneLine(Reader([], []), lines[0]);
      OneLine(Reader([payload], []), lines[1]);
      BlankLine(Reader([payload], []));
      assert Payloads(Written(Message(text))) == [payload];
    }
  }

  lemma OneMessage(text: string)
    ensures StreamOf([Message(text)]) == Written(Message(text)) && MessagesOf([Message(text)]) == [text]
  {
    assert [Message(text)][1..] == [];
    assert StreamOf([]) == "" && MessagesOf([]) == [];
  }

  // ---------- events of several lines ----------

  /** A line of data: it holds no line end and no carriage return is taken for a part of one. */
  predicate IsDataText(text: string)
  {
    LINE_END !in text && (text != "" ==> text[|text| - 1] != '\r')
  }

  function DataFields(texts: seq<string>): seq<string>
  {
    seq(|texts|, k requires 0 <= k < |texts| => "data:" + texts[k] + "\n")
  }

  function Stripped(texts: seq<string>): (r: seq<string>)
    ensures |r| == |texts|
  {
    seq(|texts|, k requires 0 <= k < |texts| => StripStart(texts[k]))
  }

  lemma DataLine(reader: Reader, text: string)
    requires IsDataText(text)
    ensures LineRead(reader, "data:" + text + "\n") == reader.(pending := reader.pending + [StripStart(text)])
  {
    var line := "data:" + text;
    StripOneLineEnd(line);
    assert line[5..] == text && line[..5] == "data:";
    assert line[|line| - 1] == if text == "" then ':' else text[|text| - 1];
  }

  lemma {:induction false} DataLines(reader: Reader, texts: seq<string>)
    requires forall t :: t in texts ==> IsDataText(t)
    ensures AllRead(reader, DataFields(texts)) == reader.(pending := reader.pending + Stripped(texts))
    decreases |texts|
  {
    if texts == [] {
      assert reader.pending + Stripped(texts) == reader.pending;
    } else {
      DataLine(reader, texts[0]);
      assert DataFields(texts)[1..] == DataFields(texts[1..]);
      DataLines(LineRead(reader, DataFields(texts)[0]), texts[1..]);
      assert Stripped(texts) == [StripStart(texts[0])] + Stripped(texts[1..]);
      assert reader.pending + Stripped(texts) == reader.pending + [StripStart(texts[0])] + Stripped(texts[1..]);
    }
  }

  /** The data lines of one event, empty ones too, come back as one payload of as many lines. */
  lemma EventOfLines(payloads: seq<string>, texts: seq<string>)
    requires texts != [] && forall t :: t in texts ==> IsDataText(t)
    ensures AllRead(Reader([], payloads), DataFields(texts) + ["\n"]) ==
            Reader([], payloads + [JoinLines(Stripped(texts))])
  {
    var reader := Reader([], payloads);
    AllReadSplits(reader, DataFields(texts), ["\n"]);
    DataLines(reader, texts);
    assert [] + Stripped(texts) == Stripped(texts);
    OneLine(Reader(Stripped(texts), payloads), "\n");
    BlankLine(Reader(Stripped(texts), payloads));
  }
}
