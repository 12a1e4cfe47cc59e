/**
 What the watermarks promise a resting node: each piece of news once, and none lost because a wake
 was refused.
 */
module Watermarks {
  import opened Graphs
  import opened Signals
  import opened Runs
  import opened RestingNodes

  // ---------- one reading ----------

  /** The mark of a signal after it was acted on. */
  function MarkAfter(signal: Signal, agentAccount: string, reading: Reading, mark: string): string
  {
    match Detect(signal, agentAccount, reading, mark)
    case Silent => mark
    case Change(change) => change.mark
  }

  /** The changes among these detections, in order. */
  function Collected(signals: seq<Signal>, detections: map<Signal, Detection>): seq<SignalChange>
    requires forall s :: s in signals ==> s in detections
  {
    if signals == [] then []
    else
      match detections[signals[0]]
      case Silent => Collected(signals[1..], detections)
      case Change(change) => [change] + Collected(signals[1..], detections)
  }

  lemma {:induction false} DetectAllCollects(signals: seq<Signal>, agentAccount: string, reading: Reading, marks: Marks,
                                             detections: map<Signal, Detection>)
    requires forall s :: s in signals ==> s in detections
    requires forall s :: s in detections ==> detections[s] == Detect(s, agentAccount, reading, Read(marks, s))
    ensures DetectAll(signals, agentAccount, reading, marks) == Collected(signals, detections)
  {
    if signals != [] {
      assert signals[0] in signals;
      DetectAllCollects(signals[1..], agentAccount, reading, marks, detections);
    }
  }

  /** Advancing past what was detected moves the mark of each signal past its own news, and no other. */
  lemma {:induction false} AdvancedPast(signals: seq<Signal>, detections: map<Signal, Detection>, base: Marks,
                                        signal: Signal)
    requires forall i, j :: 0 <= i < j < |signals| ==> signals[i] != signals[j]
    requires forall s :: s in signals ==> s in detections
    requires forall s :: s in detections && detections[s].Change? ==> detections[s].change.signal == s
    ensures Read(Advanced(base, Collected(signals, detections)), signal) ==
            if signal in signals && detections[signal].Change? then detections[signal].change.mark
            else Read(base, signal)
    decreases |signals|
  {
    if signals != [] {
      var first, rest := signals[0], Collected(signals[1..], detections);
      assert first in signals;
      if detections[first].Change? {
        var change := detections[first].change;
        assert ([change] + rest)[1..] == rest;
        AdvancedPast(signals[1..], detections, base[first := change.mark], signal);
      } else {
        AdvancedPast(signals[1..], detections, base, signal);
      }
    }
  }

  lemma ReadAfter(agentAccount: string, reading: Reading, marks: Marks, signal: Signal)
    ensures Read(Advanced(marks, Changes(agentAccount, reading, marks)), signal) ==
            MarkAfter(signal, agentAccount, reading, Read(marks, signal))
  {
    var detections := Detections(agentAccount, reading, marks);
    DetectAllCollects(SIGNALS, agentAccount, reading, marks, detections);
    AdvancedPast(SIGNALS, detections, marks, signal);
    AllSignals(signal);
  }

  function Detections(agentAccount: string, reading: Reading, marks: Marks): (r: map<Signal, Detection>)
    ensures forall s :: s in r && r[s] == Detect(s, agentAccount, reading, Read(marks, s))
    ensures forall s :: s in r && r[s].Change? ==> r[s].change.signal == s
  {
    map s: Signal | true :: Detect(s, agentAccount, reading, Read(marks, s))
  }

  lemma AllSignals(signal: Signal)
    ensures signal in SIGNALS
  {
    assert SIGNALS[0] == Comments && SIGNALS[1] == Checks && SIGNALS[2] == Conflict && SIGNALS[3] == Approval;
  }

  /** A reported comment mark is later than the mark before it and no earlier than any comment reported. */
  lemma NewestIsPast(agentAccount: string, mark: string, artifacts: seq<Artifact>)
    requires Fresh(agentAccount, mark, artifacts) != []
    ensures var newest := Newest(Fresh(agentAccount, mark, artifacts));
            && Less(mark, newest)
            && (forall a :: a in Fresh(agentAccount, mark, artifacts) ==> !Less(newest, a.GetTimestamp()))
            && Fresh(agentAccount, newest, artifacts) == []
  {
    var news := Fresh(agentAccount, mark, artifacts);
    NewestIsMaximum(news);
    var newest := Newest(news);
    var w :| w in news && w.GetTimestamp() == newest;
    var again := Fresh(agentAccount, newest, artifacts);
    forall a | a in artifacts ensures !IsFresh(agentAccount, newest, a) {
      if IsFresh(agentAccount, newest, a) {
        LessTransitive(mark, newest, a.GetTimestamp());
      }
    }
    NothingFresh(agentAccount, newest, artifacts);
  }

  lemma {:induction false} NothingFresh(agentAccount: string, mark: string, artifacts: seq<Artifact>)
    requires forall a :: a in artifacts ==> !IsFresh(agentAccount, mark, a)
    ensures Fresh(agentAccount, mark, artifacts) == []
  {
    if artifacts != [] {
      assert artifacts[0] in artifacts;
      NothingFresh(agentAccount, mark, artifacts[1..]);
    }
  }

  lemma {:induction false} DetectedIsReported(signals: seq<Signal>, agentAccount: string, reading: Reading,
                                              marks: Marks, signal: Signal)
    requires signal in signals && Detect(signal, agentAccount, reading, Read(marks, signal)).Change?
    ensures Detect(signal, agentAccount, reading, Read(marks, signal)).change in
            DetectAll(signals, agentAccount, reading, marks)
  {
    if signals[0] != signal {
      DetectedIsReported(signals[1..], agentAccount, reading, marks, signal);
    }
  }

  lemma {:induction false} OnlyDetectedIsReported(signals: seq<Signal>, agentAccount: string, reading: Reading,
                                                  marks: Marks, change: SignalChange)
    requires change in DetectAll(signals, agentAccount, reading, marks)
    ensures change.signal in signals
    ensures Detect(change.signal, agentAccount, reading, Read(marks, change.signal)) == Change(change)
  {
    var rest := DetectAll(signals[1..], agentAccount, reading, marks);
    match Detect(signals[0], agentAccount, reading, Read(marks, signals[0]))
    case Silent => OnlyDetectedIsReported(signals[1..], agentAccount, reading, marks, change);
    case Change(first) =>
      if change != first {
        assert change in rest;
        OnlyDetectedIsReported(signals[1..], agentAccount, reading, marks, change);
      }
  }

  /** What a reading's changes say, signal by signal, measured by the marks. */
  ghost predicate IsNews(agentAccount: string, reading: Reading, marks: Marks, change: SignalChange)
  {
    var mark := Read(marks, change.signal);
    match change.signal
    case Comments =>
      var news := Fresh(agentAccount, mark, reading.artifacts);
      && (exists a :: a in news && a.GetTimestamp() == change.mark)
      && (forall a :: a in news ==> !Less(change.mark, a.GetTimestamp()))
      && change.wakesNode && change.count == |news|
    case Checks =>
      && reading.failures != [] && change.mark == CheckSignature(reading.headSha, reading.failures) != mark
      && change.wakesNode && change.count == 0
    case Conflict =>
      && reading.isConflicted && change.mark == reading.headSha != mark
      && change.wakesNode && change.count == 0
    case Approval =>
      && reading.isApproved && change.mark == reading.headSha != mark
      && !change.wakesNode && change.count == 0
  }

  lemma ReportedIsNews(agentAccount: string, reading: Reading, marks: Marks, change: SignalChange)
    requires change in Changes(agentAccount, reading, marks)
    ensures IsNews(agentAccount, reading, marks, change)
  {
    OnlyDetectedIsReported(SIGNALS, agentAccount, reading, marks, change);
    SignatureEmptyIffNothingFailed(reading.headSha, reading.failures);
    if change.signal == Comments {
      NewestIsMaximum(Fresh(agentAccount, Read(marks, Comments), reading.artifacts));
    }
  }

  /** The reading holds something for this signal that its mark does not cover. */
  predicate HoldsNews(signal: Signal, agentAccount: string, reading: Reading, marks: Marks)
  {
    var mark := Read(marks, signal);
    match signal
    case Comments => Fresh(agentAccount, mark, reading.artifacts) != []
    case Checks => reading.failures != [] && CheckSignature(reading.headSha, reading.failures) != mark
    case Conflict => reading.isConflicted && reading.headSha != mark
    case Approval => reading.isApproved && reading.headSha != mark
  }

  /**
   The changes of a reading are exactly its news: comments later than their mark under the latest time among
   them, a failure or conflict not yet tried, and an approval at a commit not marked, which alone wakes nobody.
   */
  lemma ChangesAreNews(agentAccount: string, reading: Reading, marks: Marks, signal: Signal)
    ensures (exists c :: c in Changes(agentAccount, reading, marks) && c.signal == signal) <==>
            HoldsNews(signal, agentAccount, reading, marks)
    ensures forall c :: c in Changes(agentAccount, reading, marks) ==> IsNews(agentAccount, reading, marks, c)
  {
    forall c | c in Changes(agentAccount, reading, marks) ensures IsNews(agentAccount, reading, marks, c) {
      ReportedIsNews(agentAccount, reading, marks, c);
    }
    SignatureEmptyIffNothingFailed(reading.headSha, reading.failures);
    if HoldsNews(signal, agentAccount, reading, marks) {
      AllSignals(signal);
      DetectedIsReported(SIGNALS, agentAccount, reading, marks, signal);
    }
  }

  lemma SilentOnceActedOn(signal: Signal, agentAccount: string, reading: Reading, mark: string)
    ensures Detect(signal, agentAccount, reading, MarkAfter(signal, agentAccount, reading, mark)).Silent?
  {
    if signal == Comments && Fresh(agentAccount, mark, reading.artifacts) != [] {
      NewestIsPast(agentAccount, mark, reading.artifacts);
    }
  }

  lemma {:induction false} AllSilent(signals: seq<Signal>, agentAccount: string, reading: Reading, marks: Marks)
    requires forall s :: s in signals ==> Detect(s, agentAccount, reading, Read(marks, s)).Silent?
    ensures DetectAll(signals, agentAccount, reading, marks) == []
  {
    if signals != [] {
      assert signals[0] in signals;
      AllSilent(signals[1..], agentAccount, reading, marks);
    }
  }

  /** Once the marks advance past a reading, no signal reports anything in it again. */
  lemma NothingTwice(agentAccount: string, reading: Reading, marks: Marks)
    ensures Changes(agentAccount, reading, Advanced(marks, Changes(agentAccount, reading, marks))) == []
  {
    var advanced := Advanced(marks, Changes(agentAccount, reading, marks));
    forall s | s in SIGNALS ensures Detect(s, agentAccount, reading, Read(advanced, s)).Silent? {
      ReadAfter(agentAccount, reading, marks, s);
      SilentOnceActedOn(s, agentAccount, reading, Read(marks, s));
    }
    AllSilent(SIGNALS, agentAccount, reading, advanced);
  }

  // ---------- a resting node's visits ----------

  /** A visit to an open pull request; `starts` says whether a needed wake of the node would start. */
  datatype Visit = Visit(reading: Reading, starts: bool)

  predicate NeedsWake(agentAccount: string, reading: Reading, marks: Marks)
  {
    WakingChanges(Changes(agentAccount, reading, marks)) != []
  }

  lemma {:induction false} WakingIsDetected(signals: seq<Signal>, agentAccount: string, reading: Reading, marks: Marks)
    ensures WakingChanges(DetectAll(signals, agentAccount, reading, marks)) != [] <==>
            exists s :: s in signals && s != Approval && Detect(s, agentAccount, reading, Read(marks, s)).Change?
  {
    if signals != [] {
      var first, rest := signals[0], DetectAll(signals[1..], agentAccount, reading, marks);
      WakingIsDetected(signals[1..], agentAccount, reading, marks);
      assert forall s :: s in signals <==> s == first || s in signals[1..];
      var detection := Detect(first, agentAccount, reading, Read(marks, first));
      if detection.Change? {
        assert ([detection.change] + rest)[1..] == rest;
      }
    }
  }

  /**
   A node is woken exactly for feedback later than its mark, for a failure it has not seen, or for a
   conflict at a commit it has not tried; never for an approval.
   */
  lemma NeedsWakeIff(agentAccount: string, reading: Reading, marks: Marks)
    ensures NeedsWake(agentAccount, reading, marks) <==>
            || (exists a :: a in reading.artifacts && a.author != agentAccount && !a.isApproval
                            && Less(Read(marks, Comments), a.GetTimestamp()))
            || (reading.failures != [] && CheckSignature(reading.headSha, reading.failures) != Read(marks, Checks))
            || (reading.isConflicted && reading.headSha != Read(marks, Conflict))
  {
    WakingIsDetected(SIGNALS, agentAccount, reading, marks);
    SignatureEmptyIffNothingFailed(reading.headSha, reading.failures);
    AllSignals(Comments);
    AllSignals(Checks);
    AllSignals(Conflict);
    var news := Fresh(agentAccount, Read(marks, Comments), reading.artifacts);
    if news != [] {
      assert news[0] in news;
    }
    forall s | Detect(s, agentAccount, reading, Read(marks, s)).Change? && s != Approval
      ensures s == Comments || s == Checks || s == Conflict
    {
    }
  }

  /** The marks after a visit: a needed wake that does not start leaves them where they were. */
  function MarksAfterVisit(agentAccount: string, marks: Marks, visit: Visit): Marks
  {
    if NeedsWake(agentAccount, visit.reading, marks) && !visit.starts then marks
    else Advanced(marks, Changes(agentAccount, visit.reading, marks))
  }

  lemma NoChangesNoMove(marks: Marks, changes: seq<SignalChange>)
    ensures changes == [] ==> Advanced(marks, changes) == marks
  {
  }

  /**
   The handler moves the marks of a node as a visit does, whatever the cap, the wakes left and the
   launch make of a needed wake.
   */
  lemma HandlerMovesMarks(config: Config, run: Run, id: NodeId, reading: Reading, answer: RestingAnswer)
    requires id in run.agents && run.agents[id].worktree.Some?
    ensures var after := NewsHandled(config, run, id, reading, answer);
            && id in after.0.agents && after.0.agents[id].worktree.Some?
            && after.0.agents[id].worktree.value.marks ==
               MarksAfterVisit(config.agentAccount, run.agents[id].worktree.value.marks,
                               Visit(reading, after.1.sessionsStarted == 1))
  {
    NoChangesNoMove(run.agents[id].worktree.value.marks,
                    Changes(config.agentAccount, reading, run.agents[id].worktree.value.marks));
  }

  /** The marks before visit `i`. */
  function MarksAt(agentAccount: string, marks: Marks, visits: seq<Visit>, i: nat): Marks
    requires i <= |visits|
  {
    if i == 0 then marks
    else MarksAfterVisit(agentAccount, MarksAt(agentAccount, marks, visits, i - 1), visits[i - 1])
  }

  function CommentMarkAt(agentAccount: string, marks: Marks, visits: seq<Visit>, i: nat): string
    requires i <= |visits|
  {
    Read(MarksAt(agentAccount, marks, visits, i), Comments)
  }

  /** The comments a visit reports to the node. */
  function Reported(agentAccount: string, marks: Marks, visits: seq<Visit>, i: nat): seq<Artifact>
    requires i < |visits|
  {
    if visits[i].starts
    then Fresh(agentAccount, CommentMarkAt(agentAccount, marks, visits, i), visits[i].reading.artifacts)
    else []
  }

  lemma FreshCommentsNeedWake(agentAccount: string, reading: Reading, marks: Marks)
    requires Fresh(agentAccount, Read(marks, Comments), reading.artifacts) != []
    ensures NeedsWake(agentAccount, reading, marks)
  {
    var changes := Changes(agentAccount, reading, marks);
    assert SIGNALS[0] == Comments;
    assert changes[0].signal == Comments && changes[0].wakesNode;
    assert changes[0] in WakingChanges(changes);
  }

  /** The comment mark after a visit: the newest comment reported, or where it was. */
  lemma CommentMarkStep(agentAccount: string, marks: Marks, visits: seq<Visit>, i: nat)
    requires i < |visits|
    ensures CommentMarkAt(agentAccount, marks, visits, i + 1) ==
            var reported := Reported(agentAccount, marks, visits, i);
            if reported == [] then CommentMarkAt(agentAccount, marks, visits, i) else Newest(reported)
  {
    var before := MarksAt(agentAccount, marks, visits, i);
    var reading := visits[i].reading;
    ReadAfter(agentAccount, reading, before, Comments);
    if Fresh(agentAccount, Read(before, Comments), reading.artifacts) != [] {
      FreshCommentsNeedWake(agentAccount, reading, before);
    }
  }

  lemma CommentMarkStepsUp(agentAccount: string, marks: Marks, visits: seq<Visit>, i: nat)
    requires i < |visits|
    ensures !Less(CommentMarkAt(agentAccount, marks, visits, i + 1), CommentMarkAt(agentAccount, marks, visits, i))
  {
    var before := CommentMarkAt(agentAccount, marks, visits, i);
    CommentMarkStep(agentAccount, marks, visits, i);
    LessIrreflexive(before);
    if Reported(agentAccount, marks, visits, i) != [] {
      ReportMovesMark(agentAccount, marks, visits, i);
      NotLessIfLess(before, CommentMarkAt(agentAccount, marks, visits, i + 1));
    }
  }

  lemma {:induction false} NeverBack(marks: seq<string>, i: nat, j: nat)
    requires i <= j < |marks| && forall k :: 0 < k < |marks| ==> !Less(marks[k], marks[k - 1])
    ensures !Less(marks[j], marks[i])
    decreases j
  {
    LessIrreflexive(marks[i]);
    if i < j {
      NeverBack(marks, i, j - 1);
      NotLessTransitive(marks[i], marks[j - 1], marks[j]);
    }
  }

  function CommentMarks(agentAccount: string, marks: Marks, visits: seq<Visit>): (r: seq<string>)
    ensures |r| == |visits| + 1
    ensures forall k :: 0 <= k < |r| ==> r[k] == CommentMarkAt(agentAccount, marks, visits, k)
  {
    seq(|visits| + 1, k requires 0 <= k <= |visits| => CommentMarkAt(agentAccount, marks, visits, k))
  }

  /** The comment mark never falls back. */
  lemma CommentMarkGrows(agentAccount: string, marks: Marks, visits: seq<Visit>, i: nat, j: nat)
    requires i <= j <= |visits|
    ensures !Less(CommentMarkAt(agentAccount, marks, visits, j), CommentMarkAt(agentAccount, marks, visits, i))
  {
    var all := CommentMarks(agentAccount, marks, visits);
    forall k | 0 < k < |all| ensures !Less(all[k], all[k - 1]) {
      CommentMarkStepsUp(agentAccount, marks, visits, k - 1);
    }
    NeverBack(all, i, j);
    assert all[i] == CommentMarkAt(agentAccount, marks, visits, i);
  }

  lemma NotLessIfLess(a: string, b: string)
    requires Less(a, b)
    ensures !Less(b, a)
  {
    if Less(b, a) {
      LessTransitive(a, b, a);
      LessIrreflexive(a);
    }
  }

  lemma LessAfterNotLess(a: string, b: string, c: string)
    requires !Less(b, a) && Less(b, c)
    ensures Less(a, c)
  {
    LessTotal(a, b);
    if Less(a, b) {
      LessTransitive(a, b, c);
    }
  }

  /** A visit that reports comments moves the comment mark strictly forward. */
  lemma ReportMovesMark(agentAccount: string, marks: Marks, visits: seq<Visit>, i: nat)
    requires i < |visits| && Reported(agentAccount, marks, visits, i) != []
    ensures Less(CommentMarkAt(agentAccount, marks, visits, i), CommentMarkAt(agentAccount, marks, visits, i + 1))
  {
    CommentMarkStep(agentAccount, marks, visits, i);
    NewestIsPast(agentAccount, CommentMarkAt(agentAccount, marks, visits, i), visits[i].reading.artifacts);
  }

  lemma ReportedUpToMark(agentAccount: string, marks: Marks, visits: seq<Visit>, i: nat, a: Artifact)
    requires i < |visits| && a in Reported(agentAccount, marks, visits, i)
    ensures !Less(CommentMarkAt(agentAccount, marks, visits, i + 1), a.GetTimestamp())
  {
    CommentMarkStep(agentAccount, marks, visits, i);
    NewestIsPast(agentAccount, CommentMarkAt(agentAccount, marks, visits, i), visits[i].reading.artifacts);
  }

  /** Nothing reported is ever ahead of the comment mark again. */
  lemma ReportedIsPast(agentAccount: string, marks: Marks, visits: seq<Visit>, i: nat, j: nat, a: Artifact)
    requires i < j <= |visits| && a in Reported(agentAccount, marks, visits, i)
    ensures !Less(CommentMarkAt(agentAccount, marks, visits, j), a.GetTimestamp())
  {
    var all := CommentMarks(agentAccount, marks, visits);
    ReportedUpToMark(agentAccount, marks, visits, i, a);
    CommentMarkGrows(agentAccount, marks, visits, i + 1, j);
    NotLessTransitive(a.GetTimestamp(), all[i + 1], all[j]);
  }

  /**
   Each comment is heard once: whatever a later visit reports is later than everything reported
   before, so no timestamp is reported by two visits.
   */
  lemma ReportedOnce(agentAccount: string, marks: Marks, visits: seq<Visit>, i: nat, j: nat, a: Artifact, b: Artifact)
    requires i < j < |visits|
    requires a in Reported(agentAccount, marks, visits, i) && b in Reported(agentAccount, marks, visits, j)
    ensures Less(a.GetTimestamp(), b.GetTimestamp()) && a.GetTimestamp() != b.GetTimestamp()
  {
    ReportedIsPast(agentAccount, marks, visits, i, j, a);
    LessAfterNotLess(a.GetTimestamp(), CommentMarkAt(agentAccount, marks, visits, j), b.GetTimestamp());
    LessIrreflexive(a.GetTimestamp());
  }

  /** A comment with this timestamp was reported before the visit. */
  ghost predicate WasReported(agentAccount: string, marks: Marks, visits: seq<Visit>, i: nat, timestamp: string)
    requires i <= |visits|
  {
    exists k: nat, a :: k < i && a in Reported(agentAccount, marks, visits, k) && a.GetTimestamp() == timestamp
  }

  function Reports(agentAccount: string, marks: Marks, visits: seq<Visit>): (r: seq<seq<Artifact>>)
    ensures |r| == |visits| && forall k :: 0 <= k < |r| ==> r[k] == Reported(agentAccount, marks, visits, k)
  {
    seq(|visits|, k requires 0 <= k < |visits| => Reported(agentAccount, marks, visits, k))
  }

  /** Marks that only ever move to the newest report stem from a report, or are the first one. */
  lemma {:induction false} MarkStemsFromReport(all: seq<string>, reports: seq<seq<Artifact>>, i: nat)
    requires |all| == |reports| + 1 && i <= |reports|
    requires forall k :: 0 <= k < |reports| ==> all[k + 1] == if reports[k] == [] then all[k] else Newest(reports[k])
    ensures all[i] == all[0] || exists k, a :: 0 <= k < i && a in reports[k] && a.GetTimestamp() == all[i]
  {
    if i > 0 {
      MarkStemsFromReport(all, reports, i - 1);
      if reports[i - 1] != [] {
        NewestIsMaximum(reports[i - 1]);
        var a :| a in reports[i - 1] && a.GetTimestamp() == Newest(reports[i - 1]);
      }
    }
  }

  /** The comment mark is the first one or the timestamp of a comment reported since. */
  lemma MarkWasReported(agentAccount: string, marks: Marks, visits: seq<Visit>, i: nat)
    requires i <= |visits|
    ensures || CommentMarkAt(agentAccount, marks, visits, i) == Read(marks, Comments)
            || WasReported(agentAccount, marks, visits, i, CommentMarkAt(agentAccount, marks, visits, i))
  {
    var all, reports := CommentMarks(agentAccount, marks, visits), Reports(agentAccount, marks, visits);
    forall k | 0 <= k < |visits|
      ensures all[k + 1] == if reports[k] == [] then all[k] else Newest(reports[k])
    {
      CommentMarkStep(agentAccount, marks, visits, k);
    }
    MarkStemsFromReport(all, reports, i);
    assert all[0] == Read(marks, Comments);
    if all[i] != all[0] {
      var k, a: Artifact :| 0 <= k < i && a in reports[k] && a.GetTimestamp() == all[i];
      assert a in Reported(agentAccount, marks, visits, k);
    }
  }

  /** Later than the first mark and than everything reported before the visit. */
  ghost predicate IsLatest(agentAccount: string, marks: Marks, visits: seq<Visit>, i: nat, a: Artifact)
    requires i <= |visits|
  {
    && Less(Read(marks, Comments), a.GetTimestamp())
    && forall k: nat, b :: k < i && b in Reported(agentAccount, marks, visits, k) ==>
                           Less(b.GetTimestamp(), a.GetTimestamp())
  }

  /**
   Exactly what a visit that can wake the node reports: the feedback later than everything reported
   before. Feedback that comes to light late, with a timestamp that is not, is never heard.
   */
  lemma ReportedIff(agentAccount: string, marks: Marks, visits: seq<Visit>, i: nat, a: Artifact)
    requires i < |visits| && visits[i].starts
    ensures a in Reported(agentAccount, marks, visits, i) <==>
            && a in visits[i].reading.artifacts && IsFeedback(agentAccount, a)
            && IsLatest(agentAccount, marks, visits, i, a)
  {
    var reached := CommentMarkAt(agentAccount, marks, visits, i);
    if a in Reported(agentAccount, marks, visits, i) {
      CommentMarkGrows(agentAccount, marks, visits, 0, i);
      LessAfterNotLess(Read(marks, Comments), reached, a.GetTimestamp());
      forall k: nat, b | k < i && b in Reported(agentAccount, marks, visits, k)
        ensures Less(b.GetTimestamp(), a.GetTimestamp())
      {
        ReportedOnce(agentAccount, marks, visits, k, i, b, a);
      }
    }
    if a in visits[i].reading.artifacts && IsFeedback(agentAccount, a) && IsLatest(agentAccount, marks, visits, i, a) {
      MarkWasReported(agentAccount, marks, visits, i);
      assert Less(reached, a.GetTimestamp());
    }
  }

  lemma RefusalKeepsCommentMark(agentAccount: string, marks: Marks, visits: seq<Visit>, i: nat)
    requires i < |visits| && !visits[i].starts
    ensures CommentMarkAt(agentAccount, marks, visits, i + 1) == CommentMarkAt(agentAccount, marks, visits, i)
  {
    CommentMarkStep(agentAccount, marks, visits, i);
  }

  /**
   A refused wake loses nothing: feedback that was fresh at visit `i` and stays on the pull request
   while every visit up to `k` is refused is reported by visit `k` when that one can wake the node.
   */
  lemma {:induction false} RefusalLosesNothing(agentAccount: string, marks: Marks, visits: seq<Visit>,
                                               i: nat, k: nat, a: Artifact)
    requires i <= k < |visits| && IsFeedback(agentAccount, a)
    requires Less(CommentMarkAt(agentAccount, marks, visits, i), a.GetTimestamp())
    requires forall j :: i <= j <= k ==> a in visits[j].reading.artifacts
    requires (forall j :: i <= j < k ==> !visits[j].starts) && visits[k].starts
    ensures a in Reported(agentAccount, marks, visits, k)
    decreases k - i
  {
    if i < k {
      RefusalKeepsCommentMark(agentAccount, marks, visits, i);
      RefusalLosesNothing(agentAccount, marks, visits, i + 1, k, a);
    }
  }

  /** The signal finds news in this reading, measured by these marks. */
  predicate HasNews(signal: Signal, agentAccount: string, reading: Reading, marks: Marks)
  {
    Detect(signal, agentAccount, reading, Read(marks, signal)).Change?
  }

  lemma NewsNeedsWake(signal: Signal, agentAccount: string, reading: Reading, marks: Marks)
    requires signal != Approval && HasNews(signal, agentAccount, reading, marks)
    ensures NeedsWake(agentAccount, reading, marks)
    ensures MarksAfterVisit(agentAccount, marks, Visit(reading, false)) == marks
  {
    AllSignals(signal);
    WakingIsDetected(SIGNALS, agentAccount, reading, marks);
  }

  lemma RefusalKeepsMarks(agentAccount: string, marks: Marks, visits: seq<Visit>, k: nat, signal: Signal,
                          unheard: Marks)
    requires k < |visits| && signal != Approval && !visits[k].starts
    requires MarksAt(agentAccount, marks, visits, k) == unheard
    requires HasNews(signal, agentAccount, visits[k].reading, unheard)
    ensures MarksAt(agentAccount, marks, visits, k + 1) == unheard
  {
    NewsNeedsWake(signal, agentAccount, visits[k].reading, unheard);
    assert visits[k] == Visit(visits[k].reading, false);
  }

  function AllMarks(agentAccount: string, marks: Marks, visits: seq<Visit>): (r: seq<Marks>)
    ensures |r| == |visits| + 1
    ensures forall k :: 0 <= k < |r| ==> r[k] == MarksAt(agentAccount, marks, visits, k)
  {
    seq(|visits| + 1, k requires 0 <= k <= |visits| => MarksAt(agentAccount, marks, visits, k))
  }

  lemma {:induction false} MarksStand(all: seq<Marks>, i: nat, k: nat, unheard: Marks)
    requires i <= k < |all| && all[i] == unheard
    requires forall j :: i <= j < k && all[j] == unheard ==> all[j + 1] == unheard
    ensures all[k] == unheard
    decreases k
  {
    if i < k {
      MarksStand(all, i, k - 1, unheard);
    }
  }

  lemma RefusalsKeepMarks(agentAccount: string, marks: Marks, visits: seq<Visit>, i: nat, k: nat, signal: Signal,
                          unheard: Marks)
    requires i <= k <= |visits| && signal != Approval && forall j :: i <= j < k ==> !visits[j].starts
    requires unheard == MarksAt(agentAccount, marks, visits, i)
    requires forall j :: i <= j < k ==> HasNews(signal, agentAccount, visits[j].reading, unheard)
    ensures MarksAt(agentAccount, marks, visits, k) == unheard
  {
    var all := AllMarks(agentAccount, marks, visits);
    forall j | i <= j < k && all[j] == unheard ensures all[j + 1] == unheard {
      RefusalKeepsMarks(agentAccount, marks, visits, j, signal, unheard);
    }
    MarksStand(all, i, k, unheard);
  }

  /**
   News of any waking signal outlasts the wakes that are refused: while every visit from `i` finds some,
   whatever else the readings show, no mark moves, visit `k` reports what its own reading shows, and once it
   starts the node the signal is silent about that reading.
   */
  lemma RefusedNewsReturns(agentAccount: string, marks: Marks, visits: seq<Visit>, i: nat, k: nat, signal: Signal)
    requires i <= k < |visits| && signal != Approval && forall j :: i <= j < k ==> !visits[j].starts
    requires var unheard := MarksAt(agentAccount, marks, visits, i);
             forall j :: i <= j <= k ==> HasNews(signal, agentAccount, visits[j].reading, unheard)
    ensures var unheard, reading := MarksAt(agentAccount, marks, visits, i), visits[k].reading;
            && MarksAt(agentAccount, marks, visits, k) == unheard
            && Detect(signal, agentAccount, reading, Read(unheard, signal)).change
               in Changes(agentAccount, reading, MarksAt(agentAccount, marks, visits, k))
    ensures HasNews(signal, agentAccount, visits[k].reading, MarksAt(agentAccount, marks, visits, k + 1)) <==>
            !visits[k].starts
  {
    var unheard, reading := MarksAt(agentAccount, marks, visits, i), visits[k].reading;
    RefusalsKeepMarks(agentAccount, marks, visits, i, k, signal, unheard);
    AllSignals(signal);
    DetectedIsReported(SIGNALS, agentAccount, reading, unheard, signal);
    NewsNeedsWake(signal, agentAccount, reading, unheard);
    ReadAfter(agentAccount, reading, unheard, signal);
    SilentOnceActedOn(signal, agentAccount, reading, Read(unheard, signal));
  }
}
