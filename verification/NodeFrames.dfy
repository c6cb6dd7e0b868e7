/** What the handlers of the node machine leave alone; every invariant is proved on top of these. */
module NodeFrames {
  import opened Wrappers
  import opened YDocs
  import opened ManagedDocs
  import opened NodeMachine

  predicate Minor(e: Entry) {
    e.Skipped? || e.AppendOk? || e.TaskFailed? || e.Evicted?
  }

  ghost predicate SameSave(s: State, r: State) {
    r.pc.Saving? ==> s.pc.Saving? && r.pc.inst == s.pc.inst && r.pc.write == s.pc.write
  }

  ghost predicate QueueMoves(s: State, r: State) {
    r.queue == s.queue || r.queue == s.queue + [FlushTask] || (s.queue != [] && r.queue == s.queue[1..])
  }

  /** Records, snapshots and row are untouched; a task may have ended and a flush may have been queued. */
  ghost predicate Quiet(s: State, r: State) {
    && r.insts == s.insts && r.base == s.base && r.writes == s.writes && r.row == s.row
    && QueueMoves(s, r) && SameSave(s, r)
    && s.log <= r.log && (forall k :: |s.log| <= k < |r.log| ==> Minor(r.log[k]))
    && (r.cur == s.cur || r.cur.None?)
  }

  /** The parts of a record that saving looks at. */
  predicate SameContents(a: Managed, b: Managed) {
    a.doc == b.doc && a.lastSavedVector == b.lastSavedVector && a.lastPersisted == b.lastPersisted
  }

  /** Quiet, except that clients, timers and marks of records may have changed too. */
  ghost predicate Light(s: State, r: State) {
    && |r.insts| == |s.insts| && (forall i :: 0 <= i < |s.insts| ==> SameContents(s.insts[i], r.insts[i]))
    && r.base == s.base && r.writes == s.writes && r.row == s.row
    && QueueMoves(s, r) && SameSave(s, r)
    && s.log <= r.log && (forall k :: |s.log| <= k < |r.log| ==> Minor(r.log[k]) || r.log[k].Marked?)
    && (r.cur == s.cur || r.cur.None?)
  }

  lemma QuietIsLight(s: State, r: State)
    requires Quiet(s, r)
    ensures Light(s, r)
  {
  }

  lemma EndIsQuiet(s: State, result: Persisted, gone: bool)
    requires Wf(s) && s.queue != []
    ensures Quiet(s, Succeed(s, result)) && Quiet(s, Fail(s, gone))
  {
  }

  lemma EvictIsQuiet(s: State)
    requires Wf(s)
    ensures Quiet(s, EvictDoc(s))
  {
  }

  lemma ReplyIsQuiet(s: State, ok: bool)
    requires Wf(s) && s.redisSent != []
    ensures Quiet(s, Reply(s, ok))
  {
    if s.pc.Refreshing? {
      EndIsQuiet(s, s.pc.result, false);
    } else if s.pc.Saving? {
      EndIsQuiet(s, Persisted(0, 0), false);
    }
  }

  /** The steps that touch no record, snapshot or row. */
  predicate IsQuiet(e: Event) {
    e.LoadFailed? || e.SubmitFlush? || e.TimerFired? || e.Cleanup? || e.RedisReply? || e.EmbedDone?
  }

  lemma QuietSteps(s: State, e: Event)
    requires Wf(s) && IsQuiet(e)
    ensures Quiet(s, Step(s, e))
  {
    match e
    case LoadFailed => if s.pc.Loading? { EndIsQuiet(s, Persisted(0, 0), false); }
    case TimerFired(t) => if t in s.timers { EvictIsQuiet(s.(timers := s.timers - {t})); }
    case RedisReply(ok) => if s.redisSent != [] { ReplyIsQuiet(s, ok); }
    case EmbedDone => if s.pc.Embedding? { EndIsQuiet(s, s.pc.result, false); }
    case _ =>
  }

  lemma JoinIsLight(s: State, socket: string)
    requires Wf(s)
    ensures Light(s, Step(s, Join(socket)))
  {
  }

  lemma LeaveIsLight(s: State, socket: string)
    requires Wf(s)
    ensures Light(s, RemoveClient(s, socket))
  {
  }

  lemma ReviveIsLight(s: State)
    requires Wf(s) && s.cur.Some?
    ensures Light(s, Revive(s))
  {
  }

  lemma ScheduleIsLight(s: State, editor: Option<string>)
    requires Wf(s) && s.cur.Some?
    ensures Light(s, ScheduleSave(s, editor))
  {
  }

  /** A flush that finds nothing to save changes the marks of its record at most. */
  lemma SkipIsLight(s: State)
    requires Wf(s) && s.queue != [] && s.cur.Some? && !s.pc.Saving?
    requires NothingToSave(s.insts[s.cur.value])
    ensures Light(s, Flush(s))
  {
  }

  /** What a step may add to the history, and when it may write the row. */
  ghost predicate LogGrows(s: State, e: Event, r: State) {
    && s.log <= r.log
    && (forall k :: |s.log| <= k < |r.log| ==>
          && (r.log[k].Commit? ==> e.DbCommit?)
          && (r.log[k].Saved? || r.log[k].Job? ==> e.Finish?))
    && (!e.DbCommit? ==> r.row == s.row)
  }

  lemma FlushLog(s: State)
    requires Wf(s) && s.queue != [] && !s.pc.Saving?
    ensures Flush(s).row == s.row
    ensures if s.cur.Some? then Flush(s).log == s.log else Flush(s).log == s.log + [TaskFailed]
  {
  }

  lemma BeginLog(s: State)
    requires Wf(s) && s.queue != [] && s.pc.Waiting?
    ensures LogGrows(s, Begin, BeginTask(s))
  {
    if s.queue[0].FlushTask? {
      FlushLog(s);
    } else if s.cur.Some? {
      FlushLog(WithText(Revive(s)));
    }
  }

  lemma LoadedLog(s: State, doc: YDoc, ws: string)
    requires Wf(s)
    ensures LogGrows(s, Loaded(doc, ws), Step(s, Loaded(doc, ws)))
  {
  }

  lemma WriteFailsLog(s: State, w: nat, gone: bool)
    requires Wf(s) && w < |s.writes|
    ensures LogGrows(s, DbError(w), WriteFails(s, w, gone))
  {
  }

  lemma FinishLog(s: State)
    requires Wf(s) && BothDone(s)
    ensures LogGrows(s, Finish, Conclude(WithResult(s)))
  {
  }

  lemma ClientLog(s: State, e: Event)
    requires Wf(s) && (e.Join? || e.Leave? || e.Sync?)
    ensures LogGrows(s, e, Step(s, e))
  {
  }

  lemma StoreLog(s: State, e: Event)
    requires Wf(s) && (e.DbCommit? || e.DbMissing? || e.DbError? || e.AttachmentsSynced?)
    ensures LogGrows(s, e, Step(s, e))
  {
    if e.write < |s.writes| {
      WriteFailsLog(s, e.write, e.DbMissing?);
    }
  }

  lemma StepLog(s: State, e: Event)
    requires Wf(s)
    ensures LogGrows(s, e, Step(s, e))
  {
    if IsQuiet(e) {
      QuietSteps(s, e);
    } else if e.Join? || e.Leave? || e.Sync? {
      ClientLog(s, e);
    } else if e.DbCommit? || e.DbMissing? || e.DbError? || e.AttachmentsSynced? {
      StoreLog(s, e);
    } else {
      match e
      case Loaded(doc, ws) => LoadedLog(s, doc, ws);
      case Begin => if s.queue != [] && s.pc.Waiting? { BeginLog(s); }
      case Finish => if BothDone(s) { FinishLog(s); }
      case _ =>
    }
  }
}
