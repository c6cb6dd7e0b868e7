/** An append that adds text is never skipped, and reports a newer version than its caller had read. */
module Appends {
  import opened Wrappers
  import opened YDocs
  import opened ManagedDocs
  import opened NodeMachine
  import opened NodeFrames
  import opened SaveChain
  import opened Versions

  ghost predicate Advances(e: Entry) {
    e.AppendOk? ==> e.seen <= e.applied && (e.added ==> e.applied < e.result.version)
  }

  /** The head's text was applied after its caller read the row, and the row is no older since. */
  predicate TextIn(s: State)
    requires s.queue != [] && s.queue[0].AppendTask?
  {
    s.queue[0].seen <= s.applied <= Version(s)
  }

  /** What the running append's flush has in hand is newer than the row its text was applied over. */
  ghost predicate HeadAdvances(s: State)
    requires Wf(s)
  {
    s.queue != [] && s.queue[0].AppendTask? && !s.pc.Waiting? && !s.pc.Loading? ==>
      && TextIn(s)
      && (s.pc.Refreshing? ==> !s.added)
      && (s.pc.Embedding? ==> s.applied < s.pc.result.version)
      && (s.pc.Saving? ==>
            var p := s.writes[s.pc.write].phase;
            p.Committed? || p.Finished? ==> s.applied < p.result.version)
  }

  /** Callers read the version before they submit, and versions only grow. */
  ghost predicate SeenInPast(s: State) {
    forall t :: t in s.queue && t.AppendTask? ==> s.row.Some? && t.seen <= s.row.value.version
  }

  ghost predicate AppendsAdvance(s: State) {
    && Wf(s) && HeadAdvances(s) && SeenInPast(s)
    && forall k :: 0 <= k < |s.log| ==> Advances(s.log[k])
  }

  /** The flush of an append that added a struct finds something to save. */
  lemma AddedIsNotSkipped(s: State, h: History)
    requires Sound(s, h) && s.queue != [] && s.queue[0].AppendTask? && s.cur.Some? && !s.pc.Saving?
    ensures NothingToSave(WithText(s).insts[s.cur.value]) ==> !WithText(s).added
  {
    var i := s.cur.value;
    var m, m1 := s.insts[i], WithText(s).insts[i];
    assert s.queue[0] in s.queue;
    MergeIsAbove(h, m.doc, s.queue[0].update);
    assert RemembersAt(s, i);
    if NothingToSave(m1) && !SameStructs(m.doc, m1.doc) {
      var w := LastSave(s.log, i).value.0;
      GrowthShowsInVector(h, s.writes[w].state, m.doc, m1.doc);
    }
  }

  /** Nothing ended and nothing was committed: the records and the queue's tail may have changed. */
  ghost predicate Unhurried(s: State, r: State) {
    && r.row == s.row && r.log == s.log && r.pc == s.pc && r.added == s.added && r.applied == s.applied && r.writes == s.writes
    && s.queue <= r.queue && (s.queue == [] ==> r.pc.Waiting?)
    && (forall t :: t in r.queue && t.AppendTask? ==> t in s.queue)
  }

  lemma UnhurriedAdvances(s: State, r: State)
    requires AppendsAdvance(s) && Wf(r) && Unhurried(s, r)
    ensures AppendsAdvance(r)
  {
  }

  lemma LogAdvances(s: State, e: Entry)
    requires AppendsAdvance(s) && Advances(e)
    ensures AppendsAdvance(Logged(s, e))
  {
  }

  lemma EndAdvances(s: State, result: Persisted, gone: bool)
    requires AppendsAdvance(s) && s.queue != []
    ensures AppendsAdvance(Fail(s, gone))
    ensures s.queue[0].FlushTask? || Advances(AppendOk(s.queue[0].seen, s.applied, result, s.added)) ==>
              AppendsAdvance(Succeed(s, result))
  {
  }

  lemma FlushAdvances(s: State)
    requires AppendsAdvance(s) && s.queue != [] && s.pc.Waiting?
    requires s.queue[0].AppendTask? && s.cur.Some? ==>
               TextIn(s) && (NothingToSave(s.insts[s.cur.value]) ==> !s.added)
    ensures AppendsAdvance(Flush(s))
  {
    if s.cur.None? {
      EndAdvances(s, Persisted(0, 0), false);
    }
  }

  lemma TextAdvances(s: State)
    requires AppendsAdvance(s) && s.queue != [] && s.queue[0].AppendTask? && s.cur.Some? && !s.pc.Saving?
    ensures AppendsAdvance(WithText(s)) && TextIn(WithText(s))
  {
  }

  lemma BeginAdvances(s: State, h: History)
    requires Sound(s, h) && AppendsAdvance(s) && s.queue != [] && s.pc.Waiting?
    ensures AppendsAdvance(BeginTask(s))
  {
    if s.queue[0].FlushTask? {
      FlushAdvances(s);
    } else if s.cur.Some? {
      var s1 := Revive(s);
      ReviveIsLight(s);
      LightKeepsSound(s, s1, h);
      UnhurriedAdvances(s, s1);
      TextAdvances(s1);
      AddedIsNotSkipped(s1, h);
      FlushAdvances(WithText(s1));
    }
  }

  lemma LoadedAdvances(s: State, doc: YDoc, ws: string, h: History)
    requires Sound(s, h) && AppendsAdvance(s) && ValidIn(doc, h) && s.cur.None?
    ensures AppendsAdvance(Step(s, Loaded(doc, ws)))
  {
    if s.pc.Loading? {
      var s0 := s.(pc := Waiting);
      QuietKeepsSound(s, s0, h);
      InsertKeepsSound(s0, doc, ws, h);
      TextAdvances(Insert(s0, doc, ws));
      AddedIsNotSkipped(Insert(s0, doc, ws), h);
      FlushAdvances(WithText(Insert(s0, doc, ws)));
    } else {
      UnhurriedAdvances(s, Insert(s, doc, ws));
    }
  }

  lemma AnsweredAdvances(s: State, ok: bool)
    requires AppendsAdvance(s) && s.redisSent != []
    ensures AppendsAdvance(Answered(s, ok))
  {
    if s.pc.Refreshing? {
      EndAdvances(s, s.pc.result, false);
    } else if s.pc.Saving? {
      EndAdvances(s, Persisted(0, 0), false);
    }
  }

  lemma ReplyAdvances(s: State, ok: bool)
    requires AppendsAdvance(s) && s.redisSent != []
    ensures AppendsAdvance(Reply(s, ok))
  {
    AnsweredAdvances(s, ok);
  }

  lemma WriteFailsAdvances(s: State, w: nat, gone: bool)
    requires AppendsAdvance(s) && w < |s.writes|
    ensures AppendsAdvance(WriteFails(s, w, gone))
  {
  }

  lemma CommitAdvances(s: State, w: nat, now: nat)
    requires AppendsAdvance(s) && w < |s.writes| && s.row.Some? && s.writes[w].phase.Opened?
    ensures AppendsAdvance(CommitRow(s, w, now))
  {
  }

  lemma FinishAdvances(s: State)
    requires AppendsAdvance(s) && BothDone(s)
    ensures AppendsAdvance(Conclude(WithResult(s)))
  {
  }

  lemma ClientsAdvance(s: State, e: Event)
    requires AppendsAdvance(s) && (e.Join? || e.Leave? || e.SubmitFlush? || e.Cleanup?)
    ensures AppendsAdvance(Step(s, e))
  {
    UnhurriedAdvances(s, Step(s, e));
  }

  lemma SyncAdvances(s: State, e: Event)
    requires AppendsAdvance(s) && e.Sync?
    ensures AppendsAdvance(Step(s, e))
  {
  }

  lemma TimerAdvances(s: State, t: nat)
    requires AppendsAdvance(s) && t in s.timers
    ensures AppendsAdvance(Step(s, TimerFired(t)))
  {
    var s1 := s.(timers := s.timers - {t});
    if s.timers[t].Debounce? {
      UnhurriedAdvances(s, s1.(queue := s.queue + [FlushTask]));
    } else if s.cur.Some? {
      UnhurriedAdvances(s, Drop(s1));
      LogAdvances(Drop(s1), Evicted(s.cur.value));
    }
  }

  lemma StepAdvances(s: State, e: Event, h: History)
    requires Sound(s, h) && AppendsAdvance(s) && EventIn(e, h)
    ensures AppendsAdvance(Step(s, e))
  {
    match e
    case Loaded(doc, ws) => if s.cur.None? { LoadedAdvances(s, doc, ws, h); }
    case LoadFailed => if s.pc.Loading? { EndAdvances(s, Persisted(0, 0), false); }
    case Join(_) => ClientsAdvance(s, e);
    case Leave(_) => ClientsAdvance(s, e);
    case SubmitFlush => ClientsAdvance(s, e);
    case Cleanup => ClientsAdvance(s, e);
    case Sync(_, _, _, _) => SyncAdvances(s, e);
    case TimerFired(t) => if t in s.timers { TimerAdvances(s, t); }
    case SubmitAppend(_, _, _) =>
    case Begin => if s.queue != [] && s.pc.Waiting? { BeginAdvances(s, h); }
    case RedisReply(ok) => if s.redisSent != [] { ReplyAdvances(s, ok); }
    case DbCommit(w, now) =>
      if w < |s.writes| && s.writes[w].phase.Opened? && s.row.Some? { CommitAdvances(s, w, now); }
    case DbMissing(w) => if w < |s.writes| { WriteFailsAdvances(s, w, true); }
    case DbError(w) => if w < |s.writes| { WriteFailsAdvances(s, w, false); }
    case AttachmentsSynced(w, ok) => if w < |s.writes| { WriteFailsAdvances(s, w, false); }
    case Finish => if BothDone(s) { FinishAdvances(s); }
    case EmbedDone => if s.pc.Embedding? { EndAdvances(s, s.pc.result, false); }
  }

  lemma {:induction false} RunAdvances(s: State, es: seq<Event>, h: History)
    requires Sound(s, h) && AppendsAdvance(s) && RunIn(es, h)
    ensures AppendsAdvance(Run(s, es))
    decreases |es|
  {
    if es != [] {
      StepKeepsSound(s, es[0], h);
      StepAdvances(s, es[0], h);
      RunAdvances(Step(s, es[0]), es[1..], h);
    }
  }

  /**
   In every run, whatever else is flushed in between: an append that succeeded had its text
   applied after its caller read the row, and reports a version that fits; if it added a struct,
   that is above the version its caller had read.
   */
  lemma AppendAdvancesVersion(row: Option<Row>, redis: Option<YDoc>, es: seq<Event>, h: History, k: nat)
    requires (row.Some? ==> ValidIn(row.value.state, h)) && RunIn(es, h)
    requires k < |Run(Init(row, redis), es).log| && Run(Init(row, redis), es).log[k].AppendOk?
    ensures var s := Run(Init(row, redis), es);
            var e := s.log[k];
            && e.seen <= e.applied
            && ReportFits(e.applied, e.added, e.result.version, Version(s))
            && (e.added ==> e.seen < e.result.version)
  {
    InitIsSound(row, redis, h);
    RunAdvances(Init(row, redis), es, h);
    NoVersionIsAhead(row, redis, es);
    assert Advances(Run(Init(row, redis), es).log[k]);
  }
}
