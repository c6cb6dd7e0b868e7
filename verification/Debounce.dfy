/** Every scheduled edit is waiting for a flush: its debounce is armed, or a queued task is yet to take the snapshot. */
module Debounce {
  import opened Wrappers
  import opened YDocs
  import opened ManagedDocs
  import opened NodeMachine
  import opened NodeFrames
  import opened Timers
  import opened Eviction

  predicate Armed(s: State, t: nat, kind: Timer) {
    t in s.timers && s.timers[t] == kind
  }

  /** The loaded document's record. */
  function Live(s: State): Managed
    requires Wf(s) && s.cur.Some?
  {
    s.insts[s.cur.value]
  }

  /** The timers a record knows of are of the kind it takes them for, if they are still armed. */
  ghost predicate KindsKnown(s: State)
    requires Wf(s)
  {
    s.cur.Some? ==>
      && (Live(s).saveTimer.Some? ==>
            Live(s).saveTimer.value < s.nextTimer && !Armed(s, Live(s).saveTimer.value, Idle))
      && (Live(s).idleTimer.Some? ==>
            Live(s).idleTimer.value < s.nextTimer && !Armed(s, Live(s).idleTimer.value, Timer.Debounce))
  }

  /** A save timer that the record knows of is armed, or has fired and its snapshot is due. */
  ghost predicate SaveIsComing(s: State)
    requires Wf(s)
  {
    s.cur.Some? && Live(s).saveTimer.Some? ==> Armed(s, Live(s).saveTimer.value, Timer.Debounce) || SnapshotDue(s)
  }

  ghost predicate TimersHonest(s: State)
    requires Wf(s)
  {
    OneSaveTimer(s) && KindsKnown(s) && SaveIsComing(s)
  }

  ghost predicate Kept(s: State)
    requires Wf(s)
  {
    KindsKnown(s) && SaveIsComing(s)
  }

  /** Timers are as they were, and the loaded document's record knows of the same ones. */
  ghost predicate Untimed(s: State, r: State)
    requires Wf(s) && Wf(r)
  {
    && r.timers == s.timers && r.nextTimer == s.nextTimer
    && (r.cur.Some? ==>
          r.cur == s.cur && Live(r).saveTimer == Live(s).saveTimer && Live(r).idleTimer == Live(s).idleTimer)
    && (SnapshotDue(s) ==> SnapshotDue(r))
  }

  lemma UntimedKept(s: State, r: State)
    requires Wf(s) && Wf(r) && Kept(s) && Untimed(s, r)
    ensures Kept(r)
  {
  }

  lemma EndKept(s: State, result: Persisted, gone: bool)
    requires Wf(s) && Kept(s) && s.queue != [] && !s.pc.Waiting? && !s.pc.Loading?
    ensures Kept(Succeed(s, result)) && Kept(Fail(s, gone))
  {
  }

  lemma FlushKept(s: State)
    requires Wf(s) && KindsKnown(s) && s.queue != [] && s.pc.Waiting?
    ensures Kept(Flush(s))
  {
  }

  lemma ReviveKept(s: State)
    requires Wf(s) && Kept(s) && s.cur.Some?
    ensures Kept(Revive(s))
  {
  }

  lemma TextKnown(s: State)
    requires Wf(s) && KindsKnown(s) && s.queue != [] && s.queue[0].AppendTask? && s.cur.Some? && !s.pc.Saving?
    ensures KindsKnown(WithText(s))
  {
  }

  lemma BeginKept(s: State)
    requires Wf(s) && Kept(s) && s.queue != [] && s.pc.Waiting?
    ensures Kept(BeginTask(s))
  {
    if s.queue[0].FlushTask? {
      FlushKept(s);
    } else if s.cur.Some? {
      ReviveKept(s);
      TextKnown(Revive(s));
      FlushKept(WithText(Revive(s)));
    }
  }

  lemma LoadedKept(s: State, doc: YDoc, ws: string)
    requires Wf(s) && Kept(s)
    ensures Kept(Step(s, Loaded(doc, ws)))
  {
    if s.cur.None? && s.pc.Loading? {
      var s1 := Insert(s.(pc := Waiting), doc, ws);
      TextKnown(s1);
      FlushKept(WithText(s1));
    }
  }

  lemma JoinKept(s: State, socket: string)
    requires Wf(s) && Kept(s)
    ensures Kept(Step(s, Join(socket)))
  {
    if s.cur.Some? {
      ReviveKept(s);
    }
  }

  lemma LeaveKept(s: State, socket: string)
    requires Wf(s) && Kept(s)
    ensures Kept(RemoveClient(s, socket))
  {
  }

  lemma SyncKept(s: State, e: Event)
    requires Wf(s) && Kept(s) && e.Sync?
    ensures Kept(Step(s, e))
  {
  }

  lemma TimerKept(s: State, t: nat)
    requires Wf(s) && Kept(s) && t in s.timers
    ensures Kept(Step(s, TimerFired(t)))
  {
  }

  lemma AskKept(s: State, e: Event)
    requires Wf(s) && Kept(s) && (e.LoadFailed? || e.SubmitFlush? || e.SubmitAppend? || e.Cleanup?)
    ensures Kept(Step(s, e))
  {
  }

  lemma AnsweredKept(s: State, ok: bool)
    requires Wf(s) && Kept(s) && s.redisSent != []
    ensures Kept(Answered(s, ok))
  {
    if s.pc.Refreshing? {
      EndKept(s, s.pc.result, false);
    } else if s.pc.Saving? {
      EndKept(s, Persisted(0, 0), false);
    }
  }

  lemma ReplyKept(s: State, ok: bool)
    requires Wf(s) && Kept(s) && s.redisSent != []
    ensures Kept(Reply(s, ok))
  {
    AnsweredKept(s, ok);
    UntimedKept(Answered(s, ok), Reply(s, ok));
  }

  lemma WriteFailsKept(s: State, w: nat, gone: bool)
    requires Wf(s) && Kept(s) && w < |s.writes|
    ensures Kept(WriteFails(s, w, gone))
  {
    if Owns(s, w) {
      EndKept(s, Persisted(0, 0), gone);
    }
  }

  lemma CommitKept(s: State, w: nat, now: nat)
    requires Wf(s) && Kept(s)
    ensures Kept(Step(s, DbCommit(w, now)))
  {
  }

  lemma StoreKept(s: State, e: Event)
    requires Wf(s) && Kept(s) && (e.DbMissing? || e.DbError? || e.AttachmentsSynced?)
    ensures Kept(Step(s, e))
  {
    if e.write < |s.writes| {
      WriteFailsKept(s, e.write, e.DbMissing?);
    }
  }

  lemma FinishKept(s: State)
    requires Wf(s) && Kept(s) && BothDone(s)
    ensures Kept(Conclude(WithResult(s)))
  {
    UntimedKept(s, WithResult(s));
    EndKept(WithResult(s), s.writes[s.pc.write].phase.result, false);
  }

  lemma StepKept(s: State, e: Event)
    requires Wf(s) && Kept(s)
    ensures Kept(Step(s, e))
  {
    if e.Loaded? {
      LoadedKept(s, e.doc, e.workspaceId);
    } else if e.Join? {
      JoinKept(s, e.socket);
    } else if e.Leave? {
      LeaveKept(s, e.socket);
    } else if e.Sync? {
      SyncKept(s, e);
    } else if e.TimerFired? {
      if e.timer in s.timers { TimerKept(s, e.timer); }
    } else if e.LoadFailed? || e.SubmitFlush? || e.SubmitAppend? || e.Cleanup? {
      AskKept(s, e);
    } else if e.Begin? {
      if s.queue != [] && s.pc.Waiting? { BeginKept(s); }
    } else if e.RedisReply? {
      if s.redisSent != [] { ReplyKept(s, e.ok); }
    } else if e.Finish? {
      if BothDone(s) { FinishKept(s); }
    } else if e.EmbedDone? {
      if s.pc.Embedding? { EndKept(s, s.pc.result, false); }
    } else if e.DbCommit? {
      CommitKept(s, e.write, e.now);
    } else {
      StoreKept(s, e);
    }
  }

  lemma {:induction false} RunIsHonest(s: State, es: seq<Event>)
    requires Wf(s) && TimersHonest(s)
    ensures TimersHonest(Run(s, es))
    decreases |es|
  {
    if es != [] {
      StepKept(s, es[0]);
      StepKeepsOne(s, es[0]);
      RunIsHonest(Step(s, es[0]), es[1..]);
    }
  }

  // ── From an edit to its flush ──────────────────────────────────────────────

  /** The step begins a flush, skipping or saving. */
  predicate FlushBegins(s: State, e: Event)
    requires Wf(s)
  {
    !s.pc.Saving? && !s.pc.Refreshing? && (Step(s, e).pc.Saving? || Step(s, e).pc.Refreshing?)
  }

  predicate NoFlushBegins(s: State, es: seq<Event>)
    requires Wf(s)
    decreases |es|
  {
    es == [] || (!FlushBegins(s, es[0]) && NoFlushBegins(Step(s, es[0]), es[1..]))
  }

  predicate Scheduled(s: State, i: nat) {
    i < |s.insts| && s.insts[i].saveTimer.Some?
  }

  lemma LoadedStaysScheduled(s: State, doc: YDoc, ws: string, i: nat)
    requires Wf(s) && Scheduled(s, i) && !FlushBegins(s, Loaded(doc, ws))
    ensures Scheduled(Step(s, Loaded(doc, ws)), i)
  {
  }

  lemma BeginStaysScheduled(s: State, i: nat)
    requires Wf(s) && Scheduled(s, i) && !FlushBegins(s, Begin)
    ensures Scheduled(Step(s, Begin), i)
  {
  }

  lemma ClientsStayScheduled(s: State, e: Event, i: nat)
    requires Wf(s) && Scheduled(s, i) && (e.Join? || e.Leave? || e.Sync? || e.SubmitAppend?)
    ensures Scheduled(Step(s, e), i)
  {
  }

  lemma StoresStayScheduled(s: State, e: Event, i: nat)
    requires Wf(s) && Scheduled(s, i)
    requires e.DbMissing? || e.DbError? || e.AttachmentsSynced?
    ensures Scheduled(Step(s, e), i)
  {
    if Owns(s, e.write) {
      EndIsQuiet(s, Persisted(0, 0), e.DbMissing?);
    }
  }

  lemma SavesStayScheduled(s: State, e: Event, i: nat)
    requires Wf(s) && Scheduled(s, i) && (e.DbCommit? || e.Finish?)
    ensures Scheduled(Step(s, e), i)
  {
  }

  lemma StepStaysScheduled(s: State, e: Event, i: nat)
    requires Wf(s) && Scheduled(s, i) && !FlushBegins(s, e)
    ensures Scheduled(Step(s, e), i)
  {
    if IsQuiet(e) {
      QuietSteps(s, e);
    } else if e.Loaded? {
      LoadedStaysScheduled(s, e.doc, e.workspaceId, i);
    } else if e.Begin? {
      BeginStaysScheduled(s, i);
    } else if e.Join? || e.Leave? || e.Sync? || e.SubmitAppend? {
      ClientsStayScheduled(s, e, i);
    } else if e.DbCommit? || e.Finish? {
      SavesStayScheduled(s, e, i);
    } else {
      StoresStayScheduled(s, e, i);
    }
  }

  lemma {:induction false} RunStaysScheduled(s: State, es: seq<Event>, i: nat)
    requires Wf(s) && Scheduled(s, i) && NoFlushBegins(s, es)
    ensures Scheduled(Run(s, es), i)
    decreases |es|
  {
    if es != [] {
      StepStaysScheduled(s, es[0], i);
      RunStaysScheduled(Step(s, es[0]), es[1..], i);
    }
  }

  /**
   In every run: as long as no flush has begun since a scheduled edit and its document is loaded,
   one debounce is armed, the one its record knows of, or a task that is yet to take the
   snapshot is queued.
   */
  lemma ScheduledEditAwaitsFlush(row: Option<Row>, redis: Option<YDoc>, first: seq<Event>, edit: Event, second: seq<Event>)
    requires edit.Sync? && edit.scheduled && Run(Init(row, redis), first).cur.Some?
    requires NoFlushBegins(Step(Run(Init(row, redis), first), edit), second)
    ensures var s := Run(Init(row, redis), first);
            var r := Run(Step(s, edit), second);
            r.cur == s.cur ==>
              || (Live(r).saveTimer.Some? && Armed(r, Live(r).saveTimer.value, Timer.Debounce))
              || SnapshotDue(r)
  {
    var s := Run(Init(row, redis), first);
    RunIsHonest(Init(row, redis), first);
    StepKept(s, edit);
    StepKeepsOne(s, edit);
    RunIsHonest(Step(s, edit), second);
    RunStaysScheduled(Step(s, edit), second, s.cur.value);
  }

  /**
   Right after a scheduled edit exactly one debounce is armed: a new one, known to the record.
   The document has the update, the record is marked, a named user is its last editor, and
   eviction timers are as they were.
   */
  lemma ScheduledEditArmsDebounce(s: State, socket: string, update: YDoc, user: Option<string>)
    requires Wf(s) && TimersHonest(s) && s.cur.Some?
    ensures var r := Step(s, Sync(socket, update, true, user));
            && r.cur == s.cur && Live(r).saveTimer.Some?
            && Live(r).saveTimer.value !in s.timers && Armed(r, Live(r).saveTimer.value, Timer.Debounce)
            && (forall u: nat :: Armed(r, u, Timer.Debounce) ==> Live(r).saveTimer == Some(u))
            && (forall u: nat :: Armed(r, u, Idle) <==> Armed(s, u, Idle))
            && Live(r).doc == Merge(Live(s).doc, update) && Live(r).dirtyForEmbed
            && Live(r).lastEditor == (if Truthy(user) then user else Live(s).lastEditor)
            && Live(r).clients == Live(s).clients && Live(r).idleTimer == Live(s).idleTimer
            && r.queue == s.queue && r.redisSent == s.redisSent
  {
    StepKeepsOne(s, Sync(socket, update, true, user));
  }

  /** When it fires it asks for a flush, once. */
  lemma DebounceAsksForFlush(s: State, t: nat)
    requires Wf(s) && Armed(s, t, Timer.Debounce)
    ensures var r := Step(s, TimerFired(t));
            && r.queue == s.queue + [FlushTask] && t !in r.timers && r.insts == s.insts && r.cur == s.cur
            && (forall u: nat, kind :: u != t ==> (Armed(r, u, kind) <==> Armed(s, u, kind)))
  {
  }
}
