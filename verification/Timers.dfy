/** Which timers of a node are armed: at most one save timer, and it is the loaded document's. */
module Timers {
  import opened Wrappers
  import opened YDocs
  import opened ManagedDocs
  import opened NodeMachine
  import opened NodeFrames

  /** An armed save timer is the one the loaded document's record knows of, and timer numbers are fresh. */
  ghost predicate OneSaveTimer(s: State)
    requires Wf(s)
  {
    && (forall t :: t in s.timers ==> t < s.nextTimer)
    && (forall t :: t in s.timers && s.timers[t].Debounce? ==>
          s.cur.Some? && s.insts[s.cur.value].saveTimer == Some(t))
  }

  /** Timers were only cleared, and the loaded document's save timer field is as before. */
  ghost predicate OnlyCleared(s: State, r: State)
    requires Wf(s) && Wf(r)
  {
    && r.nextTimer == s.nextTimer
    && (forall t :: t in r.timers ==> t in s.timers && r.timers[t] == s.timers[t])
    && (r.cur == s.cur && (s.cur.Some? ==> r.insts[s.cur.value].saveTimer == s.insts[s.cur.value].saveTimer))
  }

  lemma ClearingKeepsOne(s: State, r: State)
    requires Wf(s) && Wf(r) && OneSaveTimer(s) && OnlyCleared(s, r)
    ensures OneSaveTimer(r)
  {
  }

  lemma CleanupKeepsOne(s: State)
    requires Wf(s) && OneSaveTimer(s)
    ensures OneSaveTimer(CleanupNode(s)) && OneSaveTimer(EvictDoc(s))
  {
  }

  lemma EndKeepsOne(s: State, result: Persisted, gone: bool)
    requires Wf(s) && OneSaveTimer(s) && s.queue != []
    ensures OneSaveTimer(Succeed(s, result)) && OneSaveTimer(Fail(s, gone))
  {
  }

  lemma FlushKeepsOne(s: State)
    requires Wf(s) && OneSaveTimer(s) && s.queue != [] && !s.pc.Saving?
    ensures OneSaveTimer(Flush(s))
  {
  }

  lemma TextKeepsOne(s: State)
    requires Wf(s) && OneSaveTimer(s) && s.queue != [] && s.queue[0].AppendTask? && s.cur.Some? && !s.pc.Saving?
    ensures OneSaveTimer(WithText(s))
  {
  }

  lemma LoadedKeepsOne(s: State, doc: YDoc, ws: string)
    requires Wf(s) && OneSaveTimer(s) && s.cur.None?
    ensures OneSaveTimer(Step(s, Loaded(doc, ws)))
  {
  }

  lemma BeginKeepsOne(s: State)
    requires Wf(s) && OneSaveTimer(s) && s.queue != [] && s.pc.Waiting?
    ensures OneSaveTimer(BeginTask(s))
  {
    if s.queue[0].FlushTask? {
      FlushKeepsOne(s);
    } else if s.cur.Some? {
      ClearingKeepsOne(s, Revive(s));
      TextKeepsOne(Revive(s));
      FlushKeepsOne(WithText(Revive(s)));
    }
  }

  lemma ClientsKeepOne(s: State, e: Event)
    requires Wf(s) && OneSaveTimer(s) && (e.Join? || e.Leave? || e.Sync?)
    ensures OneSaveTimer(Step(s, e))
  {
  }

  lemma TimerKeepsOne(s: State, t: nat)
    requires Wf(s) && OneSaveTimer(s) && t in s.timers
    ensures OneSaveTimer(Step(s, TimerFired(t)))
  {
  }

  lemma ReplyKeepsOne(s: State, ok: bool)
    requires Wf(s) && OneSaveTimer(s) && s.redisSent != []
    ensures OneSaveTimer(Reply(s, ok))
  {
    if s.pc.Refreshing? {
      EndKeepsOne(s, s.pc.result, false);
    } else if s.pc.Saving? {
      EndKeepsOne(s, Persisted(0, 0), false);
    }
    assert OneSaveTimer(Answered(s, ok));
  }

  lemma WriteFailsKeepsOne(s: State, w: nat, gone: bool)
    requires Wf(s) && OneSaveTimer(s) && w < |s.writes|
    ensures OneSaveTimer(WriteFails(s, w, gone))
  {
  }

  lemma FinishKeepsOne(s: State)
    requires Wf(s) && OneSaveTimer(s) && BothDone(s)
    ensures OneSaveTimer(Conclude(WithResult(s)))
  {
    ClearingKeepsOne(s, WithResult(s));
    EndKeepsOne(WithResult(s), s.writes[s.pc.write].phase.result, false);
  }

  lemma StepKeepsOne(s: State, e: Event)
    requires Wf(s) && OneSaveTimer(s)
    ensures OneSaveTimer(Step(s, e))
  {
    if e.Join? || e.Leave? || e.Sync? {
      ClientsKeepOne(s, e);
    } else {
      match e
      case Loaded(doc, ws) => if s.cur.None? { LoadedKeepsOne(s, doc, ws); }
      case LoadFailed => if s.pc.Loading? { EndKeepsOne(s, Persisted(0, 0), false); }
      case TimerFired(t) => if t in s.timers { TimerKeepsOne(s, t); }
      case Cleanup => CleanupKeepsOne(s);
      case Begin => if s.queue != [] && s.pc.Waiting? { BeginKeepsOne(s); }
      case RedisReply(ok) => if s.redisSent != [] { ReplyKeepsOne(s, ok); }
      case DbMissing(w) => if w < |s.writes| { WriteFailsKeepsOne(s, w, true); }
      case DbError(w) => if w < |s.writes| { WriteFailsKeepsOne(s, w, false); }
      case AttachmentsSynced(w, ok) => if w < |s.writes| { WriteFailsKeepsOne(s, w, false); }
      case Finish => if BothDone(s) { FinishKeepsOne(s); }
      case EmbedDone => if s.pc.Embedding? { EndKeepsOne(s, s.pc.result, false); }
      case _ =>
    }
  }

  lemma {:induction false} RunKeepsOne(s: State, es: seq<Event>)
    requires Wf(s) && OneSaveTimer(s)
    ensures OneSaveTimer(Run(s, es))
    decreases |es|
  {
    if es != [] {
      StepKeepsOne(s, es[0]);
      RunKeepsOne(Step(s, es[0]), es[1..]);
    }
  }

  /** In every run at most one save timer of the node is armed, and none once its document is dropped. */
  lemma AtMostOneSaveTimer(row: Option<Row>, redis: Option<YDoc>, es: seq<Event>, t: nat, u: nat)
    requires var s := Run(Init(row, redis), es);
             t in s.timers && u in s.timers && s.timers[t].Debounce? && s.timers[u].Debounce?
    ensures t == u && Run(Init(row, redis), es).cur.Some?
  {
    RunKeepsOne(Init(row, redis), es);
  }

  /** Eviction timers may pile up: a leave on a document without clients arms another and forgets the first. */
  lemma LeavesPileUpIdleTimers(s: State, socket: string)
    requires Wf(s) && OneSaveTimer(s) && s.cur.Some? && s.insts[s.cur.value].clients == {}
    requires exists t :: t in s.timers && s.timers[t].Idle? && s.insts[s.cur.value].idleTimer == Some(t)
    ensures var r := RemoveClient(s, socket);
            exists t, u :: t in r.timers && u in r.timers && t != u && r.timers[t].Idle? && r.timers[u].Idle?
  {
    var t :| t in s.timers && s.timers[t].Idle? && s.insts[s.cur.value].idleTimer == Some(t);
    var r := RemoveClient(s, socket);
    assert t in r.timers && s.nextTimer in r.timers && t != s.nextTimer;
  }
}
