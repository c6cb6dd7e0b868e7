/** What each event does to a node, told by what can be seen afterwards. */
module Effects {
  import opened Wrappers
  import opened YDocs
  import opened ManagedDocs
  import opened NodeMachine
  import opened NodeFrames
  import opened Debounce
  import Eviction

  // ── Clients ────────────────────────────────────────────────────────────────

  /** A socket joins a loaded document; the eviction timer its record knows of is stopped. */
  lemma JoinStopsEviction(s: State, socket: string)
    requires Wf(s) && TimersHonest(s) && s.cur.Some?
    ensures var r := Step(s, Join(socket));
            && r.cur == s.cur && Live(r).clients == Live(s).clients + {socket} && Live(r).idleTimer.None?
            && (forall u: nat :: Armed(r, u, Idle) <==> Armed(s, u, Idle) && Live(s).idleTimer != Some(u))
            && (forall u: nat :: Armed(r, u, Timer.Debounce) <==> Armed(s, u, Timer.Debounce))
            && Live(r).doc == Live(s).doc && r.queue == s.queue
  {
  }

  /** The last socket leaves: a flush is asked for at once and one more eviction timer armed. */
  lemma LastLeaveFlushes(s: State, socket: string)
    requires Wf(s) && TimersHonest(s) && s.cur.Some?
    ensures var r := Step(s, Leave(socket));
            && r.cur == s.cur && Live(r).clients == Live(s).clients - {socket} && Live(r).doc == Live(s).doc
            && (forall u: nat :: Armed(s, u, Timer.Debounce) <==> Armed(r, u, Timer.Debounce))
            && if Live(s).clients <= {socket} then
                 && r.queue == s.queue + [FlushTask]
                 && Live(r).idleTimer.Some? && !(Live(r).idleTimer.value in s.timers)
                 && (forall u: nat :: Armed(r, u, Idle) <==> Armed(s, u, Idle) || Live(r).idleTimer == Some(u))
               else r.queue == s.queue && r.timers == s.timers && Live(r).idleTimer == Live(s).idleTimer
  {
    if Live(s).clients <= {socket} {
      assert Live(s).clients - {socket} == {};
    } else {
      var k :| k in Live(s).clients && k != socket;
      assert k in Live(s).clients - {socket};
    }
  }

  /** An update of the sync handshake reaches the document and schedules nothing. */
  lemma UnscheduledEditWaits(s: State, socket: string, update: YDoc, user: Option<string>)
    requires Wf(s) && s.cur.Some?
    ensures var r := Step(s, Sync(socket, update, false, user));
            && Live(r) == Live(s).(doc := Merge(Live(s).doc, update))
            && r == s.(insts := r.insts) && |r.insts| == |s.insts|
  {
  }

  /** An eviction timer drops a document without clients, with the timers its record knows of, and else does nothing. */
  lemma IdleTimerEvicts(s: State, t: nat)
    requires Wf(s) && TimersHonest(s) && Armed(s, t, Idle)
    ensures var r := Step(s, TimerFired(t));
            && t !in r.timers && r.queue == s.queue && r.redisSent == s.redisSent && r.insts == s.insts
            && if s.cur.Some? && Live(s).clients == {} then
                 && r.cur.None? && (forall u: nat :: !Armed(r, u, Timer.Debounce))
                 && (Live(s).idleTimer.Some? ==> Live(s).idleTimer.value !in r.timers)
               else r.cur == s.cur && r.timers == s.timers - {t}
  {
    Timers.StepKeepsOne(s, TimerFired(t));
  }

  /** A clean-up drops the document whoever is attached, and asks Redis to delete its cell. */
  lemma CleanupDrops(s: State)
    requires Wf(s) && TimersHonest(s)
    ensures var r := Step(s, Cleanup);
            && r.cur.None? && (forall u: nat :: !Armed(r, u, Timer.Debounce))
            && (s.cur.Some? && Live(s).idleTimer.Some? ==> Live(s).idleTimer.value !in r.timers)
            && r.redisSent == s.redisSent + [Delete] && r.queue == s.queue && r.insts == s.insts
  {
    Timers.StepKeepsOne(s, Cleanup);
  }

  // ── A flush ────────────────────────────────────────────────────────────────

  /** A queued flush of a document that is not loaded fails, and its turn is over. */
  lemma UnloadedFlushFails(s: State)
    requires Wf(s) && s.queue != [] && s.queue[0].FlushTask? && s.pc.Waiting? && s.cur.None?
    ensures Step(s, Begin) == s.(queue := s.queue[1..], log := s.log + [TaskFailed])
  {
  }

  /**
   A queued flush of a loaded document stops the debounce and sends all of the document to Redis.
   A saved document without new structs loses its mark and is not written; else its snapshot goes
   to the database, and the mark stays for the job that is due afterwards.
   */
  lemma FlushSends(s: State)
    requires Wf(s) && TimersHonest(s) && s.queue != [] && s.queue[0].FlushTask? && s.pc.Waiting? && s.cur.Some?
    ensures var r, m := Step(s, Begin), Live(s);
            && r.cur == s.cur && r.queue == s.queue && r.row == s.row && r.log == s.log
            && (forall u: nat :: !Armed(r, u, Timer.Debounce)) && Live(r).saveTimer.None?
            && r.redisSent == s.redisSent + [SetState(m.doc)]
            && if m.lastPersisted.Some? && m.lastSavedVector == Some(Vector(m.doc)) then
                 && r.writes == s.writes && Live(r) == m.(saveTimer := None, dirtyForEmbed := false)
                 && r.pc == Refreshing(s.cur.value, m.lastPersisted.value, |s.redisSent|)
               else
                 && r.writes == s.writes + [Write(s.cur.value, m.doc, Opened)] && Live(r) == m.(saveTimer := None)
                 && r.pc == Saving(s.cur.value, |s.writes|, Some(|s.redisSent|))
  {
    Timers.StepKeepsOne(s, Begin);
  }

  /**
   An append on a loaded document: the text goes in under its user's name.  If it is saved, it is
   saved with a mark, so a job for that user will be due.
   */
  lemma AppendSends(s: State)
    requires Wf(s) && s.queue != [] && s.queue[0].AppendTask? && s.pc.Waiting? && s.cur.Some?
    ensures var r := Step(s, Begin);
            var doc := Merge(Live(s).doc, s.queue[0].update);
            && r.cur == s.cur && r.queue == s.queue
            && Live(r).doc == doc && Live(r).lastEditor == Some(s.queue[0].user) && Live(r).idleTimer.None?
            && r.redisSent == s.redisSent + [SetState(doc)]
            && if Live(s).lastPersisted.Some? && Live(s).lastSavedVector == Some(Vector(doc)) then
                 && r.writes == s.writes && r.pc == Refreshing(s.cur.value, Live(s).lastPersisted.value, |s.redisSent|)
               else
                 && Live(r).dirtyForEmbed && r.writes == s.writes + [Write(s.cur.value, doc, Opened)]
                 && r.pc == Saving(s.cur.value, |s.writes|, Some(|s.redisSent|))
  {
    var s1 := Revive(s);
    assert Step(s, Begin) == Flush(WithText(s1));
  }

  lemma AppendLoads(s: State)
    requires Wf(s) && s.queue != [] && s.queue[0].AppendTask? && s.pc.Waiting? && s.cur.None?
    ensures Step(s, Begin) == s.(pc := Loading)
    ensures Step(Step(s, Begin), LoadFailed) == s.(queue := s.queue[1..], log := s.log + [TaskFailed])
  {
  }

  /** An append that had to load its document goes on with the loaded one, which is always saved. */
  lemma LoadedAppendSends(s: State, loaded: YDoc, ws: string)
    requires Wf(s) && s.pc.Loading?
    ensures var r := Step(s, Loaded(loaded, ws));
            var doc := Merge(loaded, s.queue[0].update);
            && r.cur == Some(|s.insts|) && r.queue == s.queue
            && Live(r) == Managed(doc, {}, ws, None, None, true, Some(s.queue[0].user), None, None)
            && r.redisSent == s.redisSent + [SetState(doc)]
            && r.writes == s.writes + [Write(|s.insts|, doc, Opened)]
            && r.pc == Saving(|s.insts|, |s.writes|, Some(|s.redisSent|))
  {
    var s1 := Insert(s.(pc := Waiting), loaded, ws);
    assert Step(s, Loaded(loaded, ws)) == Flush(WithText(s1));
  }

  // ── The stores' answers ────────────────────────────────────────────────────

  /** Redis carries out its commands in order; an error leaves the cell alone. */
  lemma RedisTakesEffect(s: State, ok: bool)
    requires Wf(s) && s.redisSent != []
    ensures var r := Step(s, RedisReply(ok));
            && r.redisSent == s.redisSent[1..]
            && r.redis == (if !ok then s.redis else if s.redisSent[0].SetState? then Some(s.redisSent[0].state) else None)
            && r.row == s.row && r.insts == s.insts && r.writes == s.writes && r.cur == s.cur
  {
    ReplyIsQuiet(s, ok);
    Eviction.ReplyKeepsCur(s, ok);
  }

  /** The answer a skipping flush waits for ends it: with the remembered result, or with an error. */
  lemma SkipEnds(s: State, ok: bool)
    requires Wf(s) && s.redisSent != [] && s.pc.Refreshing? && s.pc.ahead == 0
    ensures var r := Step(s, RedisReply(ok));
            && r.queue == s.queue[1..] && r.pc.Waiting?
            && r.log == s.log +
                 if !ok then [TaskFailed]
                 else if s.queue[0].FlushTask? then [Skipped(s.pc.inst, s.pc.result)]
                 else [AppendOk(s.queue[0].seen, s.applied, s.pc.result, s.added), Skipped(s.pc.inst, s.pc.result)]
  {
  }

  /** The answer a saving flush waits for lets it go on, or fails it with its database write still open. */
  lemma SaveHearsFromRedis(s: State, ok: bool)
    requires Wf(s) && s.redisSent != [] && s.pc.Saving? && s.pc.reply == Some(0)
    ensures var r := Step(s, RedisReply(ok));
            && r.writes == s.writes
            && if ok then r.queue == s.queue && r.pc == s.pc.(reply := None) && r.log == s.log
               else r.queue == s.queue[1..] && r.pc.Waiting? && r.log == s.log + [TaskFailed]
  {
  }

  /** A commit puts the snapshot into the row under the next version. */
  lemma CommitWrites(s: State, w: nat, now: nat)
    requires Wf(s) && w < |s.writes| && s.writes[w].phase.Opened? && s.row.Some?
    ensures var r := Step(s, DbCommit(w, now));
            var v := s.row.value.version + 1;
            && r.row == Some(Row(s.writes[w].state, v, now)) && r.writes[w].phase == Committed(Persisted(v, now))
            && r == s.(row := r.row, writes := s.writes[w := r.writes[w]], log := s.log + [Commit(w, v)])
  {
  }

  lemma SyncFinishesWrite(s: State, w: nat)
    requires Wf(s) && w < |s.writes| && s.writes[w].phase.Committed?
    ensures var r := Step(s, AttachmentsSynced(w, true));
            r == s.(writes := s.writes[w := s.writes[w].(phase := Finished(s.writes[w].phase.result))])
  {
  }

  /** A write that fails fails the flush that waits for it, and no other. */
  lemma FailedWriteEndsItsFlush(s: State, w: nat, e: Event)
    requires Wf(s) && w < |s.writes|
    requires (e == DbError(w) && s.writes[w].phase.Opened?) || (e == AttachmentsSynced(w, false) && s.writes[w].phase.Committed?)
    ensures var r := Step(s, e);
            && r.writes == s.writes[w := s.writes[w].(phase := Failed)] && r.row == s.row && r.insts == s.insts && r.cur == s.cur
            && if Owns(s, w) then r.queue == s.queue[1..] && r.pc.Waiting? && r.log == s.log + [TaskFailed]
               else r.queue == s.queue && r.pc == s.pc && r.log == s.log
  {
  }

  /** A background flush that finds its row gone drops the document and its Redis cell; an append only fails. */
  lemma GoneRowCleansUp(s: State, w: nat)
    requires Wf(s) && TimersHonest(s) && Owns(s, w) && w < |s.writes| && s.writes[w].phase.Opened? && s.row.None?
    ensures var r := Step(s, DbMissing(w));
            && r.queue == s.queue[1..] && r.pc.Waiting? && r.log == s.log + [TaskFailed] && r.writes[w].phase.Failed?
            && if s.queue[0].FlushTask? then
                 r.cur.None? && r.redisSent == s.redisSent + [Delete] && forall u: nat :: !Armed(r, u, Timer.Debounce)
               else r.cur == s.cur && r.redisSent == s.redisSent
  {
    Timers.StepKeepsOne(s, DbMissing(w));
  }

  /**
   Once both stores have answered, the record remembers the snapshot's vector and the result.  If
   it is marked and has a named editor, a job for that editor is queued, whoever is attached, and
   the mark is gone; else the flush returns the result.
   */
  lemma SaveReturns(s: State)
    requires Wf(s) && BothDone(s)
    ensures var r, i, w := Step(s, Finish), s.pc.inst, s.writes[s.pc.write];
            var m, p := s.insts[i], w.phase.result;
            && |r.insts| == |s.insts| && r.insts[i].lastPersisted == Some(p) && r.insts[i].lastSavedVector == Some(Vector(w.state))
            && r.insts[i].doc == m.doc && r.row == s.row && r.writes == s.writes && r.cur == s.cur
            && if m.dirtyForEmbed && m.lastEditor.Some? && m.lastEditor.value != "" then
                 && !r.insts[i].dirtyForEmbed && r.queue == s.queue && r.pc == Embedding(i, p)
                 && r.log == s.log + [Saved(i, s.pc.write, p), Job(i, m.lastEditor.value, m.workspaceId)]
               else
                 && r.insts[i].dirtyForEmbed == m.dirtyForEmbed && r.queue == s.queue[1..] && r.pc.Waiting?
                 && r.log == s.log + if s.queue[0].FlushTask? then [Saved(i, s.pc.write, p)]
                                     else [Saved(i, s.pc.write, p), AppendOk(s.queue[0].seen, s.applied, p, s.added)]
  {
  }

  /** With the job queued, the flush returns the result of its save; an append reports it. */
  lemma JobQueued(s: State)
    requires Wf(s) && s.pc.Embedding?
    ensures var r := Step(s, EmbedDone);
            && r.queue == s.queue[1..] && r.pc.Waiting? && r.insts == s.insts
            && r.log == s.log +
                 if s.queue[0].FlushTask? then [] else [AppendOk(s.queue[0].seen, s.applied, s.pc.result, s.added)]
  {
  }

  /** Calls join the queue at its back; an append's caller has read a version the row has had. */
  lemma CallsJoin(s: State, update: YDoc, user: string, seen: nat)
    requires Wf(s)
    ensures Step(s, SubmitFlush) == s.(queue := s.queue + [FlushTask])
    ensures s.row.Some? && seen <= s.row.value.version ==>
              Step(s, SubmitAppend(update, user, seen)) == s.(queue := s.queue + [AppendTask(update, user, seen)])
    ensures s.cur.None? && !s.pc.Loading? ==> forall doc, ws ::
              var r := Step(s, Loaded(doc, ws));
              && r.cur == Some(|s.insts|) && r.queue == s.queue && r.timers == s.timers
              && r.insts == s.insts + [Managed(doc, {}, ws, None, None, false, None, None, None)]
  {
  }
}
