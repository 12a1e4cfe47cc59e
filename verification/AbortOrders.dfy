/**
 An abort kills its sessions concurrently: their writes interleave in any order. Whatever the order, the
 rows and sessions come out as when the sessions are killed one after the other.
 */
module AbortOrders {
  import opened Graphs
  import opened Options
  import opened Runs
  import opened NodeOperators

  /** One write of a kill: the session's ending, its node's state, or the audit entry. */
  datatype KillWrite = CloseWrite(key: SessionKey) | ParkWrite(parked: NodeId) | NoteWrite(noted: NodeId)

  function Written(run: Run, write: KillWrite, now: int): Run
  {
    match write
    case CloseWrite(key) =>
      if key.nodeId in run.agents && key.index < |run.agents[key.nodeId].sessions| then
        var agent := run.agents[key.nodeId];
        var closed := Close(agent.sessions[key.index], now, Aborted);
        WithAgent(run, key.nodeId, agent.(sessions := agent.sessions[key.index := closed]))
      else run
    case ParkWrite(id) => SetState(run, id, NEEDS_HUMAN, now, None)
    case NoteWrite(id) => Audited(run, id, NEEDS_HUMAN, KilledByAbort, now)
  }

  function AllWritten(run: Run, writes: seq<KillWrite>, now: int): Run
  {
    if writes == [] then run
    else Written(AllWritten(run, writes[..|writes| - 1], now), writes[|writes| - 1], now)
  }

  /** The writes of the kills, one after the other. */
  function KillWrites(keys: seq<SessionKey>): seq<KillWrite>
  {
    if keys == [] then []
    else
      var key := keys[|keys| - 1];
      KillWrites(keys[..|keys| - 1]) + [CloseWrite(key), ParkWrite(key.nodeId), NoteWrite(key.nodeId)]
  }

  ghost predicate IsSession(run: Run, key: SessionKey)
  {
    key.nodeId in run.agents && key.index < |run.agents[key.nodeId].sessions|
  }

  lemma {:induction false} WrittenInTurn(run: Run, writes: seq<KillWrite>, more: seq<KillWrite>, now: int)
    ensures AllWritten(run, writes + more, now) == AllWritten(AllWritten(run, writes, now), more, now)
    decreases |more|
  {
    if more == [] {
      assert writes + more == writes;
    } else {
      var front := more[..|more| - 1];
      WrittenInTurn(run, writes, front, now);
      assert (writes + more)[..|writes + more| - 1] == writes + front;
    }
  }

  lemma KilledIsWritten(run: Run, key: SessionKey, now: int)
    requires IsSession(run, key)
    ensures AllWritten(run, [CloseWrite(key), ParkWrite(key.nodeId), NoteWrite(key.nodeId)], now) ==
            SessionKilled(run, key, now)
  {
    var writes := [CloseWrite(key), ParkWrite(key.nodeId), NoteWrite(key.nodeId)];
    assert writes[..2] == [CloseWrite(key), ParkWrite(key.nodeId)] && writes[..2][..1] == [CloseWrite(key)];
    assert writes[..2][..1][..0] == [];
    assert AllWritten(run, writes[..2][..1], now) == Written(run, CloseWrite(key), now);
    assert AllWritten(run, writes[..2], now) == Written(Written(run, CloseWrite(key), now), ParkWrite(key.nodeId), now);
  }

  lemma {:induction false} KilledInTurn(run: Run, keys: seq<SessionKey>, now: int)
    requires forall key :: key in keys ==> IsSession(run, key)
    ensures SessionsKilled(run, keys, now) == AllWritten(run, KillWrites(keys), now)
    ensures forall key :: IsSession(run, key) ==> IsSession(SessionsKilled(run, keys, now), key)
    decreases |keys|
  {
    if keys != [] {
      var key, front := keys[|keys| - 1], keys[..|keys| - 1];
      assert key in keys && forall k :: k in front ==> k in keys;
      KilledInTurn(run, front, now);
      var before := SessionsKilled(run, front, now);
      KilledIsWritten(before, key, now);
      WrittenInTurn(run, KillWrites(front), [CloseWrite(key), ParkWrite(key.nodeId), NoteWrite(key.nodeId)], now);
    }
  }

  // ---------- what a set of writes makes of a run ----------

  function WriteSet(writes: seq<KillWrite>): set<KillWrite>
  {
    set w | w in writes
  }

  function RowAfter(row: Row, isParked: bool, now: int): Row
  {
    if isParked then row.(state := NEEDS_HUMAN, updatedAt := now, resumeAt := None) else row
  }

  /** The agent's sessions that the writes close are closed, and nothing else of it differs. */
  ghost predicate IsClosedIn(agent: Agent, after: Agent, id: NodeId, writes: set<KillWrite>, now: int)
  {
    && after == agent.(sessions := after.sessions) && |after.sessions| == |agent.sessions|
    && forall k :: 0 <= k < |agent.sessions| ==>
         after.sessions[k] ==
         if CloseWrite(SessionKey(id, k)) in writes then Close(agent.sessions[k], now, Aborted) else agent.sessions[k]
  }

  /** Every row and session is as the writes say, whatever their order. */
  ghost predicate IsAsWritten(run: Run, after: Run, writes: set<KillWrite>, now: int)
  {
    && after.order == run.order && after.rows.Keys == run.rows.Keys && after.agents.Keys == run.agents.Keys
    && after.recoveries == run.recoveries
    && (forall id :: id in run.rows ==> after.rows[id] == RowAfter(run.rows[id], ParkWrite(id) in writes, now))
    && (forall id :: id in run.agents ==> IsClosedIn(run.agents[id], after.agents[id], id, writes, now))
  }

  lemma OneMoreClosed(agent: Agent, before: Agent, after: Agent, id: NodeId, writes: set<KillWrite>,
                      write: KillWrite, now: int)
    requires IsClosedIn(agent, before, id, writes, now)
    requires after ==
             if write.CloseWrite? && write.key.nodeId == id && write.key.index < |before.sessions|
             then before.(sessions := before.sessions[write.key.index :=
                                                      Close(before.sessions[write.key.index], now, Aborted)])
             else before
    ensures IsClosedIn(agent, after, id, writes + {write}, now)
  {
  }

  lemma WriteIsAsWritten(run: Run, before: Run, writes: set<KillWrite>, write: KillWrite, now: int)
    requires IsAsWritten(run, before, writes, now)
    ensures IsAsWritten(run, Written(before, write, now), writes + {write}, now)
  {
    var after := Written(before, write, now);
    forall id | id in run.agents ensures IsClosedIn(run.agents[id], after.agents[id], id, writes + {write}, now) {
      OneMoreClosed(run.agents[id], before.agents[id], after.agents[id], id, writes, write, now);
    }
  }

  lemma {:induction false} AllIsAsWritten(run: Run, writes: seq<KillWrite>, now: int)
    ensures IsAsWritten(run, AllWritten(run, writes, now), WriteSet(writes), now)
    decreases |writes|
  {
    if writes != [] {
      var last, front := writes[|writes| - 1], writes[..|writes| - 1];
      assert writes == front + [last];
      AllIsAsWritten(run, front, now);
      WriteIsAsWritten(run, AllWritten(run, front, now), WriteSet(front), last, now);
      assert WriteSet(writes) == WriteSet(front) + {last};
    }
  }

  lemma AsWrittenIsUnique(run: Run, after: Run, after': Run, writes: set<KillWrite>, now: int)
    requires IsAsWritten(run, after, writes, now) && IsAsWritten(run, after', writes, now)
    ensures after.rows == after'.rows && after.agents == after'.agents
  {
    forall id | id in run.agents ensures after.agents[id] == after'.agents[id] {
      assert after.agents[id].sessions == after'.agents[id].sessions;
    }
  }

  // ---------- the audit trail ----------

  function Notes(writes: seq<KillWrite>, now: int): seq<AuditEntry>
  {
    if writes == [] then []
    else
      var last := writes[|writes| - 1];
      Notes(writes[..|writes| - 1], now)
      + if last.NoteWrite? then [AuditEntry(last.noted, NEEDS_HUMAN, KilledByAbort, now)] else []
  }

  lemma {:induction false} NotesAreAppended(run: Run, writes: seq<KillWrite>, now: int)
    ensures AllWritten(run, writes, now).audits == run.audits + Notes(writes, now)
    decreases |writes|
  {
    if writes != [] {
      NotesAreAppended(run, writes[..|writes| - 1], now);
    }
  }

  /** Every note is as often in the trail as it was written. */
  lemma {:induction false} NotesAreCounted(writes: seq<KillWrite>, now: int, entry: AuditEntry)
    ensures multiset(Notes(writes, now))[entry] ==
            if entry == AuditEntry(entry.nodeId, NEEDS_HUMAN, KilledByAbort, now)
            then multiset(writes)[NoteWrite(entry.nodeId)] else 0
    decreases |writes|
  {
    if writes != [] {
      var last, front := writes[|writes| - 1], writes[..|writes| - 1];
      assert writes == front + [last];
      NotesAreCounted(front, now, entry);
    }
  }

  lemma SameWritesMeanSameNotes(writes: seq<KillWrite>, writes': seq<KillWrite>, now: int)
    requires multiset(writes) == multiset(writes')
    ensures multiset(Notes(writes, now)) == multiset(Notes(writes', now))
  {
    forall entry ensures multiset(Notes(writes, now))[entry] == multiset(Notes(writes', now))[entry] {
      NotesAreCounted(writes, now, entry);
      NotesAreCounted(writes', now, entry);
    }
  }

  lemma SameWritesAreSameSet(writes: seq<KillWrite>, writes': seq<KillWrite>)
    requires multiset(writes) == multiset(writes')
    ensures WriteSet(writes) == WriteSet(writes')
  {
    forall w ensures w in writes <==> w in writes' {
      assert w in writes <==> w in multiset(writes);
      assert w in writes' <==> w in multiset(writes');
    }
  }

  /**
   However the writes of concurrent kills interleave, abort leaves the rows and sessions that killing one
   session after the other leaves, and the same audit entries in some order.
   */
  lemma InterleavingDoesNotMatter(run: Run, keys: seq<SessionKey>, writes: seq<KillWrite>, now: int)
    requires forall key :: key in keys ==> IsSession(run, key)
    requires multiset(writes) == multiset(KillWrites(keys))
    ensures var after, inTurn := AllWritten(run, writes, now), SessionsKilled(run, keys, now);
            && after.rows == inTurn.rows && after.agents == inTurn.agents
            && multiset(after.audits) == multiset(inTurn.audits)
  {
    KilledInTurn(run, keys, now);
    AllIsAsWritten(run, writes, now);
    AllIsAsWritten(run, KillWrites(keys), now);
    SameWritesAreSameSet(writes, KillWrites(keys));
    AsWrittenIsUnique(run, AllWritten(run, writes, now), SessionsKilled(run, keys, now), WriteSet(writes), now);
    NotesAreAppended(run, writes, now);
    NotesAreAppended(run, KillWrites(keys), now);
    SameWritesMeanSameNotes(writes, KillWrites(keys), now);
  }

  // ---------- what an abort leaves ----------

  lemma {:induction false} WritesOfKeys(keys: seq<SessionKey>)
    ensures forall key :: CloseWrite(key) in KillWrites(keys) <==> key in keys
    ensures forall id :: ParkWrite(id) in KillWrites(keys) <==> exists key :: key in keys && key.nodeId == id
    decreases |keys|
  {
    if keys != [] {
      var key, front := keys[|keys| - 1], keys[..|keys| - 1];
      WritesOfKeys(front);
      assert keys == front + [key];
      assert forall k :: k in keys <==> k in front || k == key;
    }
  }

  /**
   Every listed session is ended at the time of the abort as aborted, and no other; their nodes, and no others,
   go to a human with no time to resume.
   */
  lemma AbortOutcome(run: Run, keys: seq<SessionKey>, now: int, id: NodeId, k: nat)
    requires forall key :: key in keys ==> IsSession(run, key)
    requires IsSession(run, SessionKey(id, k))
    ensures var after, session := SessionsKilled(run, keys, now), run.agents[id].sessions[k];
            && id in after.agents && k < |after.agents[id].sessions|
            && after.agents[id].sessions[k] ==
               (if SessionKey(id, k) in keys then session.(endedAt := Some(now), endState := Aborted) else session)
            && (id in run.rows ==>
                  && id in after.rows
                  && after.rows[id] ==
                     if exists key :: key in keys && key.nodeId == id
                     then run.rows[id].(state := NEEDS_HUMAN, updatedAt := now, resumeAt := None) else run.rows[id])
  {
    KilledInTurn(run, keys, now);
    AllIsAsWritten(run, KillWrites(keys), now);
    WritesOfKeys(keys);
    assert IsClosedIn(run.agents[id], SessionsKilled(run, keys, now).agents[id], id, WriteSet(KillWrites(keys)), now);
  }
}
