/** Selects failed nodes due for recovery, with a backoff that doubles up to an hour. */
module RecoveryScans {
  import opened Graphs
  import opened Options
  import opened Runs

  /** One execution of the recovery agent over a batch of nodes. */
  datatype RecoverySession = RecoverySession(startedAt: int, endedAt: Option<int>, nodeIds: seq<NodeId>)

  const MAX_DELAY_SECONDS: nat := 3600

  // ---------- the sessions that count ----------

  /** The closed recovery sessions of a node since its latest session started, in the given order. */
  function ClosedSessions(sessions: seq<RecoverySession>, id: NodeId, since: int): (r: seq<RecoverySession>)
    ensures forall s :: s in r <==> s in sessions && s.endedAt.Some? && since <= s.startedAt && id in s.nodeIds
  {
    if sessions == [] then []
    else
      var session, rest := sessions[0], ClosedSessions(sessions[1..], id, since);
      if session.endedAt.Some? && session.startedAt >= since && id in session.nodeIds then [session] + rest else rest
  }

  method GetClosedRecoverySessions(sessions: seq<RecoverySession>, id: NodeId, since: int)
    returns (closed: seq<RecoverySession>)
    ensures closed == ClosedSessions(sessions, id, since)
  {
    closed := [];
    for i := 0 to |sessions|
      invariant closed + ClosedSessions(sessions[i..], id, since) == ClosedSessions(sessions, id, since)
    {
      assert sessions[i..][1..] == sessions[i + 1..];
      if sessions[i].endedAt.Some? && sessions[i].startedAt >= since && id in sessions[i].nodeIds {
        assert closed + ([sessions[i]] + ClosedSessions(sessions[i + 1..], id, since))
            == (closed + [sessions[i]]) + ClosedSessions(sessions[i + 1..], id, since);
        closed := closed + [sessions[i]];
      }
    }
  }

  // ---------- the backoff ----------

  function Pow2(k: nat): nat
  {
    if k == 0 then 1 else 2 * Pow2(k - 1)
  }

  function Min(a: int, b: int): int
  {
    if a < b then a else b
  }

  /** The delay after `k` fruitless sessions: the tick interval doubled `k` times, an hour at most. */
  function Delay(tickSeconds: nat, k: nat): nat
  {
    Min(tickSeconds * Pow2(k), MAX_DELAY_SECONDS)
  }

  /** How many sessions, newest first, started after the newest verdict. */
  function SinceVerdict(sessions: seq<RecoverySession>, verdictAt: Option<int>): (k: nat)
    ensures k <= |sessions|
  {
    if sessions == [] || (verdictAt.Some? && verdictAt.value >= sessions[0].startedAt) then 0
    else 1 + SinceVerdict(sessions[1..], verdictAt)
  }

  predicate AllClosed(sessions: seq<RecoverySession>)
  {
    forall s :: s in sessions ==> s.endedAt.Some?
  }

  /** When the next recovery may start; none when no session ran since the verdict. */
  function RetryAt(sessions: seq<RecoverySession>, verdictAt: Option<int>, tickSeconds: nat): Option<int>
    requires AllClosed(sessions)
  {
    var k := SinceVerdict(sessions, verdictAt);
    if k == 0 then None else Some(sessions[0].endedAt.value + Delay(tickSeconds, k))
  }

  lemma {:induction false} SinceVerdictSuffix(sessions: seq<RecoverySession>, verdictAt: Option<int>, i: nat)
    requires i <= |sessions|
    requires forall j :: 0 <= j < i ==> !(verdictAt.Some? && verdictAt.value >= sessions[j].startedAt)
    ensures SinceVerdict(sessions, verdictAt) == i + SinceVerdict(sessions[i..], verdictAt)
    decreases i
  {
    if i == 0 {
      assert sessions[0..] == sessions;
    } else {
      assert sessions[1..][i - 1..] == sessions[i..];
      SinceVerdictSuffix(sessions[1..], verdictAt, i - 1);
    }
  }

  /** The loop over the sessions, newest first, computes the closed form. */
  method GetRetryAt(sessions: seq<RecoverySession>, verdictAt: Option<int>, tickSeconds: nat)
    returns (retryAt: Option<int>)
    requires AllClosed(sessions)
    ensures retryAt == RetryAt(sessions, verdictAt, tickSeconds)
  {
    var lastEndedAt: Option<int> := None;
    var delaySeconds: nat := tickSeconds;
    var i := 0;
    while i < |sessions|
      invariant i <= |sessions|
      invariant forall j :: 0 <= j < i ==> !(verdictAt.Some? && verdictAt.value >= sessions[j].startedAt)
      invariant lastEndedAt == if i == 0 then None else sessions[0].endedAt
      invariant delaySeconds == if i == 0 then tickSeconds else Delay(tickSeconds, i)
    {
      var session := sessions[i];
      assert session in sessions;
      if verdictAt.Some? && verdictAt.value >= session.startedAt {
        break;
      }
      if lastEndedAt.None? {
        lastEndedAt := session.endedAt;
      }
      DelayDoubles(tickSeconds, i);
      delaySeconds := Min(delaySeconds * 2, MAX_DELAY_SECONDS);
      i := i + 1;
    }
    SinceVerdictSuffix(sessions, verdictAt, i);
    if lastEndedAt.None? {
      return None;
    }
    return Some(lastEndedAt.value + delaySeconds);
  }

  lemma DelayDoubles(tickSeconds: nat, k: nat)
    ensures Delay(tickSeconds, k + 1) == Min(Delay(tickSeconds, k) * 2, MAX_DELAY_SECONDS)
    ensures k == 0 ==> Delay(tickSeconds, 1) == Min(tickSeconds * 2, MAX_DELAY_SECONDS)
  {
    assert tickSeconds * Pow2(k + 1) == tickSeconds * Pow2(k) * 2;
  }

  /** The delay never decreases with the number of fruitless sessions. */
  lemma {:induction false} DelayGrows(tickSeconds: nat, k: nat, m: nat)
    requires k <= m
    ensures Delay(tickSeconds, k) <= Delay(tickSeconds, m) <= 3600
    decreases m
  {
    if k < m {
      DelayGrows(tickSeconds, k, m - 1);
      DelayDoubles(tickSeconds, m - 1);
    }
  }

  // ---------- due nodes ----------

  method IsDue(latest: Option<Session>, id: NodeId, verdict: Option<NodeRecovery>, sessions: seq<RecoverySession>,
               tickSeconds: nat, now: int) returns (isDue: bool)
    ensures isDue <==>
            && latest.Some?
            && (verdict.Some? ==> verdict.value.recoverable && now >= verdict.value.recoverAt)
            && var closed := ClosedSessions(sessions, id, latest.value.startedAt);
               var k := SinceVerdict(closed, if verdict.Some? then Some(verdict.value.detectedAt) else None);
               k > 0 ==> closed[0].endedAt.Some? && closed[0].endedAt.value + Delay(tickSeconds, k) <= now
  {
    if latest.None? {
      return false;
    }
    if verdict.Some? && !(verdict.value.recoverable && verdict.value.recoverAt <= now) {
      return false;
    }
    var closed := GetClosedRecoverySessions(sessions, id, latest.value.startedAt);
    var verdictAt := if verdict.Some? then Some(verdict.value.detectedAt) else None;
    var retryAt := GetRetryAt(closed, verdictAt, tickSeconds);
    return retryAt.None? || retryAt.value <= now;
  }

  /** Newest first, as the store lists them. */
  predicate NewestFirst(sessions: seq<RecoverySession>)
  {
    forall i, j :: 0 <= i < j < |sessions| ==> sessions[i].startedAt >= sessions[j].startedAt
  }

  lemma {:induction false} SinceVerdictCounts(sessions: seq<RecoverySession>, verdictAt: Option<int>, i: nat)
    requires NewestFirst(sessions) && i < |sessions|
    ensures i < SinceVerdict(sessions, verdictAt) <==> verdictAt.None? || sessions[i].startedAt > verdictAt.value
  {
    if i > 0 {
      assert sessions[0].startedAt >= sessions[i].startedAt;
      assert NewestFirst(sessions[1..]);
      SinceVerdictCounts(sessions[1..], verdictAt, i - 1);
    }
  }

  /**
   The next attempt waits exactly when a session has started since the newest verdict: from the end of the
   newest one, for the tick interval doubled once for every session since, at most an hour.
   */
  lemma RetryAtIff(sessions: seq<RecoverySession>, verdictAt: Option<int>, tickSeconds: nat)
    requires AllClosed(sessions) && NewestFirst(sessions)
    ensures var since := set i | 0 <= i < |sessions| && (verdictAt.None? || sessions[i].startedAt > verdictAt.value);
            && (RetryAt(sessions, verdictAt, tickSeconds).Some? <==> since != {})
            && (since != {} ==>
                  RetryAt(sessions, verdictAt, tickSeconds) ==
                  Some(sessions[0].endedAt.value + Min(tickSeconds * Pow2(|since|), 3600)))
  {
    var since := set i | 0 <= i < |sessions| && (verdictAt.None? || sessions[i].startedAt > verdictAt.value);
    var k := SinceVerdict(sessions, verdictAt);
    forall i ensures i in since <==> 0 <= i < k {
      if 0 <= i < |sessions| {
        SinceVerdictCounts(sessions, verdictAt, i);
      }
    }
    CountBelow(since, k);
  }

  lemma {:induction false} CountBelow(ids: set<int>, k: nat)
    requires forall i :: i in ids <==> 0 <= i < k
    ensures |ids| == k
    decreases k
  {
    if k == 0 {
      assert forall i :: i !in ids;
      assert ids == {};
    } else {
      CountBelow(ids - {k - 1}, k - 1);
    }
  }

  lemma {:induction false} ClosedInOrder(sessions: seq<RecoverySession>, id: NodeId, since: int)
    ensures NewestFirst(sessions) ==> NewestFirst(ClosedSessions(sessions, id, since))
  {
    if sessions != [] && NewestFirst(sessions) {
      var rest := ClosedSessions(sessions[1..], id, since);
      assert NewestFirst(sessions[1..]);
      ClosedInOrder(sessions[1..], id, since);
      forall s | s in rest ensures sessions[0].startedAt >= s.startedAt {
        var j :| 0 <= j < |sessions[1..]| && sessions[1..][j] == s;
        assert sessions[j + 1] == s;
      }
      assert forall k :: 0 <= k < |rest| ==> rest[k] in rest;
    }
  }

  /** One more fruitless session, ending later, never brings the retry forward. */
  lemma RetryNeverComesForward(sessions: seq<RecoverySession>, newer: RecoverySession, verdictAt: Option<int>,
                               tickSeconds: nat)
    requires AllClosed([newer] + sessions) && RetryAt(sessions, verdictAt, tickSeconds).Some?
    requires newer.endedAt.value >= sessions[0].endedAt.value && newer.startedAt >= sessions[0].startedAt
    ensures RetryAt([newer] + sessions, verdictAt, tickSeconds).Some?
    ensures RetryAt([newer] + sessions, verdictAt, tickSeconds).value >= RetryAt(sessions, verdictAt, tickSeconds).value
  {
    var all := [newer] + sessions;
    assert all[1..] == sessions;
    var k := SinceVerdict(sessions, verdictAt);
    assert SinceVerdict(all, verdictAt) == k + 1;
    DelayGrows(tickSeconds, k, k + 1);
  }

  // ---------- spent attempts ----------

  /** The verdicts on this node, by their places in the record. */
  function VerdictsOn(recoveries: seq<NodeRecovery>, id: NodeId): set<nat>
  {
    set k | 0 <= k < |recoveries| && recoveries[k].nodeId == id
  }

  function CountVerdicts(recoveries: seq<NodeRecovery>, id: NodeId): nat
  {
    |VerdictsOn(recoveries, id)|
  }

  /** Every verdict on the node is counted once, and no other. */
  lemma VerdictsAreCounted(recoveries: seq<NodeRecovery>, verdict: NodeRecovery, id: NodeId)
    ensures CountVerdicts([], id) == 0
    ensures CountVerdicts(recoveries + [verdict], id) ==
            CountVerdicts(recoveries, id) + if verdict.nodeId == id then 1 else 0
  {
    assert VerdictsOn([], id) == {};
    assert VerdictsOn(recoveries + [verdict], id) ==
           VerdictsOn(recoveries, id) + if verdict.nodeId == id then {|recoveries|} else {};
  }

  predicate IsObserved(run: Run, id: NodeId)
  {
    && IsIn(run, id, RESTING) && id in run.agents
    && run.agents[id].worktree.Some? && run.agents[id].worktree.value.prNumber != 0
  }

  /** A failed node without attempts left is handed to a human, unless its pull request is still observed. */
  function OutOfAttempts(run: Run, id: NodeId, at: int): Run
  {
    var attempts := CountVerdicts(run.recoveries, id);
    if id !in run.rows || IsIn(run, id, NEEDS_HUMAN) then run
    else if !IsObserved(run, id) then Recorded(run, id, NEEDS_HUMAN, OutOfRecoveryAttempts(attempts), at)
    else if exists e :: e in run.audits && e.nodeId == id && e.note == ObservingPullRequest(attempts) then run
    else Audited(run, id, RESTING, ObservingPullRequest(attempts), at)
  }

  class RecoveryScanService {
    const store: RunStore

    constructor (store: RunStore)
      ensures this.store == store
    {
      this.store := store;
    }

    method RecordOutOfAttempts(id: NodeId, at: int)
      modifies store
      ensures store.State() == OutOfAttempts(old(store.State()), id, at)
    {
      if id !in store.rows || store.rows[id].state == NEEDS_HUMAN {
        return;
      }
      var attempts := CountVerdicts(store.recoveries, id);
      if store.rows[id].state == RESTING && id in store.agents && store.agents[id].worktree.Some?
         && store.agents[id].worktree.value.prNumber != 0 {
        var note := ObservingPullRequest(attempts);
        var isRecorded := exists e :: e in store.audits && e.nodeId == id && e.note == note;
        if !isRecorded {
          store.SaveAudit(id, RESTING, note, at);
        }
        return;
      }
      store.UpdateState(id, NEEDS_HUMAN, at, None);
      store.SaveAudit(id, NEEDS_HUMAN, OutOfRecoveryAttempts(attempts), at);
    }
  }
}
