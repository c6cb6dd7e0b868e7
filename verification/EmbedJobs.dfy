/** Embed jobs follow edits: never two without an edit between, and only right after a save. */
module EmbedJobs {
  import opened Wrappers
  import opened YDocs
  import opened ManagedDocs
  import opened NodeMachine
  import opened NodeFrames

  /** The document was marked as edited after its last embed job. */
  ghost predicate Owes(log: seq<Entry>, i: nat) {
    log != [] &&
    var e := log[|log| - 1];
    if e == Marked(i) then true
    else if e.Job? && e.inst == i then false
    else Owes(log[..|log| - 1], i)
  }

  /** Every job was owed when it was queued, and the entry before it is its own document's save. */
  ghost predicate Alternating(log: seq<Entry>) {
    forall k :: 0 <= k < |log| && log[k].Job? ==>
      && Owes(log[..k], log[k].inst)
      && 0 < k && log[k - 1].Saved? && log[k - 1].inst == log[k].inst
  }

  /** A record that is dirty owes a job. */
  ghost predicate DirtyOwes(s: State) {
    forall i :: 0 <= i < |s.insts| && s.insts[i].dirtyForEmbed ==> Owes(s.log, i)
  }

  ghost predicate JobsInOrder(s: State) {
    Alternating(s.log) && DirtyOwes(s)
  }

  lemma {:induction false} OwesLonger(log: seq<Entry>, longer: seq<Entry>, i: nat)
    requires log <= longer && forall k :: |log| <= k < |longer| ==> !longer[k].Job?
    ensures Owes(longer, i) <==> Owes(log, i) || exists k :: |log| <= k < |longer| && longer[k] == Marked(i)
    decreases |longer|
  {
    if |log| < |longer| {
      var n := |longer| - 1;
      OwesLonger(log, longer[..n], i);
      if longer[n] != Marked(i) && exists k :: |log| <= k < |longer| && longer[k] == Marked(i) {
        var k :| |log| <= k < |longer| && longer[k] == Marked(i);
        assert longer[..n][k] == Marked(i);
      }
    } else {
      assert log == longer;
    }
  }

  /** A record may become dirty only with a mark in the history. */
  ghost predicate MarksShow(s: State, r: State) {
    && s.log <= r.log
    && (forall k :: |s.log| <= k < |r.log| ==> !r.log[k].Job?)
    && (forall i :: 0 <= i < |r.insts| && r.insts[i].dirtyForEmbed ==>
          || (i < |s.insts| && s.insts[i].dirtyForEmbed)
          || exists k :: |s.log| <= k < |r.log| && r.log[k] == Marked(i))
  }

  lemma MarksKeepOrder(s: State, r: State)
    requires JobsInOrder(s) && MarksShow(s, r)
    ensures JobsInOrder(r)
  {
    forall i | 0 <= i < |r.insts| && r.insts[i].dirtyForEmbed ensures Owes(r.log, i) {
      OwesLonger(s.log, r.log, i);
    }
    forall k | 0 <= k < |r.log| && r.log[k].Job?
      ensures Owes(r.log[..k], r.log[k].inst) && 0 < k && r.log[k - 1].Saved? && r.log[k - 1].inst == r.log[k].inst
    {
      assert r.log[..k] == s.log[..k];
    }
  }

  lemma QuietKeepsOrder(s: State, r: State)
    requires JobsInOrder(s) && Quiet(s, r)
    ensures JobsInOrder(r)
  {
    MarksKeepOrder(s, r);
  }

  lemma FlushKeepsOrder(s: State)
    requires Wf(s) && JobsInOrder(s) && s.queue != [] && !s.pc.Saving?
    ensures JobsInOrder(Flush(s))
  {
    FlushLog(s);
    if s.cur.None? {
      EndIsQuiet(s, Persisted(0, 0), false);
    }
    MarksKeepOrder(s, Flush(s));
  }

  lemma TextKeepsOrder(s: State)
    requires Wf(s) && JobsInOrder(s) && s.queue != [] && s.queue[0].AppendTask? && s.cur.Some? && !s.pc.Saving?
    ensures JobsInOrder(WithText(s))
  {
    assert WithText(s).log[|s.log|] == Marked(s.cur.value);
    MarksKeepOrder(s, WithText(s));
  }

  lemma ScheduleKeepsOrder(s: State, editor: Option<string>)
    requires Wf(s) && JobsInOrder(s) && s.cur.Some?
    ensures JobsInOrder(ScheduleSave(s, editor))
  {
    assert ScheduleSave(s, editor).log[|s.log|] == Marked(s.cur.value);
    MarksKeepOrder(s, ScheduleSave(s, editor));
  }

  /** The one place that queues a job: the record was dirty, and its save has just been recorded. */
  lemma JobKeepsOrder(s: State, r: State, i: nat, job: Entry)
    requires JobsInOrder(s) && i < |s.insts| && s.insts[i].dirtyForEmbed && job.Job? && job.inst == i
    requires s.log != [] && s.log[|s.log| - 1].Saved? && s.log[|s.log| - 1].inst == i
    requires r.log == s.log + [job] && r.insts == s.insts[i := s.insts[i].(dirtyForEmbed := false)]
    ensures JobsInOrder(r)
  {
    assert r.log[..|s.log|] == s.log;
    forall k | 0 <= k < |r.log| && r.log[k].Job?
      ensures Owes(r.log[..k], r.log[k].inst) && 0 < k && r.log[k - 1].Saved? && r.log[k - 1].inst == r.log[k].inst
    {
      assert k < |s.log| ==> r.log[..k] == s.log[..k];
    }
  }

  lemma FinishKeepsOrder(s: State)
    requires Wf(s) && JobsInOrder(s) && BothDone(s)
    ensures JobsInOrder(Conclude(WithResult(s)))
  {
    var s1 := WithResult(s);
    var i := s.pc.inst;
    MarksKeepOrder(s, s1);
    var r := Conclude(s1);
    if EmbedDue(s1.insts[i]) {
      JobKeepsOrder(s1, r, i, r.log[|s1.log|]);
    } else {
      EndIsQuiet(s1, s.writes[s.pc.write].phase.result, false);
      QuietKeepsOrder(s1, r);
    }
  }

  lemma WriteFailsKeepsOrder(s: State, w: nat, gone: bool)
    requires Wf(s) && JobsInOrder(s) && w < |s.writes|
    ensures JobsInOrder(WriteFails(s, w, gone))
  {
    if Owns(s, w) {
      EndIsQuiet(s, Persisted(0, 0), gone);
    }
    MarksKeepOrder(s, WriteFails(s, w, gone));
  }

  lemma LoadedKeepsOrder(s: State, doc: YDoc, ws: string)
    requires Wf(s) && JobsInOrder(s) && s.cur.None?
    ensures JobsInOrder(Step(s, Loaded(doc, ws)))
  {
    var s1 := Insert(s.(pc := if s.pc.Loading? then Waiting else s.pc), doc, ws);
    MarksKeepOrder(s, s1);
    if s.pc.Loading? {
      TextKeepsOrder(s1);
      FlushKeepsOrder(WithText(s1));
    }
  }

  lemma BeginKeepsOrder(s: State)
    requires Wf(s) && JobsInOrder(s) && s.queue != [] && s.pc.Waiting?
    ensures JobsInOrder(BeginTask(s))
  {
    if s.queue[0].FlushTask? {
      FlushKeepsOrder(s);
    } else if s.cur.Some? {
      MarksKeepOrder(s, Revive(s));
      TextKeepsOrder(Revive(s));
      FlushKeepsOrder(WithText(Revive(s)));
    }
  }

  lemma SyncKeepsOrder(s: State, e: Event)
    requires Wf(s) && JobsInOrder(s) && e.Sync? && s.cur.Some?
    ensures JobsInOrder(Step(s, e))
  {
    var m := s.insts[s.cur.value];
    var s1 := Put(s, s.cur.value, m.(doc := Merge(m.doc, e.update)));
    MarksKeepOrder(s, s1);
    if e.scheduled {
      ScheduleKeepsOrder(s1, e.editor);
    }
  }

  lemma PlainStepKeepsOrder(s: State, e: Event)
    requires Wf(s) && JobsInOrder(s)
    requires e.Join? || e.Leave? || e.SubmitAppend? || e.DbCommit? || (e.AttachmentsSynced? && e.ok)
    ensures JobsInOrder(Step(s, e))
  {
    MarksKeepOrder(s, Step(s, e));
  }

  lemma StepKeepsOrder(s: State, e: Event)
    requires Wf(s) && JobsInOrder(s)
    ensures JobsInOrder(Step(s, e))
  {
    if IsQuiet(e) {
      QuietSteps(s, e);
      QuietKeepsOrder(s, Step(s, e));
    } else {
      match e
      case Loaded(doc, ws) => if s.cur.None? { LoadedKeepsOrder(s, doc, ws); }
      case Begin => if s.queue != [] && s.pc.Waiting? { BeginKeepsOrder(s); }
      case Sync(_, _, _, _) => if s.cur.Some? { SyncKeepsOrder(s, e); }
      case DbMissing(w) => if w < |s.writes| && s.writes[w].phase.Opened? { WriteFailsKeepsOrder(s, w, true); }
      case DbError(w) => if w < |s.writes| && s.writes[w].phase.Opened? { WriteFailsKeepsOrder(s, w, false); }
      case AttachmentsSynced(w, ok) =>
        if ok {
          PlainStepKeepsOrder(s, e);
        } else if w < |s.writes| && s.writes[w].phase.Committed? {
          WriteFailsKeepsOrder(s, w, false);
        }
      case Finish => if BothDone(s) { FinishKeepsOrder(s); }
      case Join(_) => PlainStepKeepsOrder(s, e);
      case Leave(_) => PlainStepKeepsOrder(s, e);
      case SubmitAppend(_, _, _) => PlainStepKeepsOrder(s, e);
      case DbCommit(_, _) => PlainStepKeepsOrder(s, e);
    }
  }

  lemma {:induction false} RunKeepsOrder(s: State, es: seq<Event>)
    requires Wf(s) && JobsInOrder(s)
    ensures JobsInOrder(Run(s, es))
    decreases |es|
  {
    if es != [] {
      StepKeepsOrder(s, es[0]);
      RunKeepsOrder(Step(s, es[0]), es[1..]);
    }
  }

  /** In every run, with any failures, jobs are owed and directly follow a save of the same task. */
  lemma JobsAlternateWithEdits(row: Option<Row>, redis: Option<YDoc>, es: seq<Event>)
    ensures JobsInOrder(Run(Init(row, redis), es))
  {
    RunKeepsOrder(Init(row, redis), es);
  }

  /** The history is only ever added to. */
  lemma {:induction false} RunExtendsLog(s: State, es: seq<Event>)
    requires Wf(s)
    ensures s.log <= Run(s, es).log
    decreases |es|
  {
    if es != [] {
      StepLog(s, es[0]);
      RunExtendsLog(Step(s, es[0]), es[1..]);
    }
  }

  // ── A mark stays until its job ─────────────────────────────────────────────

  predicate Dirty(s: State, i: nat) {
    i < |s.insts| && s.insts[i].dirtyForEmbed
  }

  /** The step queues a job for the record. */
  predicate JobQueued(s: State, e: Event, i: nat)
    requires Wf(s)
  {
    var r := Step(s, e);
    e.Finish? && r.log != [] && r.log[|r.log| - 1].Job? && r.log[|r.log| - 1].inst == i && |r.log| > |s.log|
  }

  /** The step begins a flush that finds nothing to save in the record. */
  predicate SkipBegins(s: State, e: Event, i: nat)
    requires Wf(s)
  {
    !s.pc.Refreshing? && Step(s, e).pc.Refreshing? && Step(s, e).pc.inst == i
  }

  lemma FlushMark(s: State, i: nat)
    requires Wf(s) && Dirty(s, i) && s.queue != [] && s.pc.Waiting?
    ensures Dirty(Flush(s), i) || (Flush(s).pc.Refreshing? && Flush(s).pc.inst == i)
  {
  }

  lemma BeginMark(s: State, i: nat)
    requires Wf(s) && Dirty(s, i) && s.queue != [] && s.pc.Waiting?
    ensures Dirty(BeginTask(s), i) || (BeginTask(s).pc.Refreshing? && BeginTask(s).pc.inst == i)
  {
    if s.queue[0].FlushTask? {
      FlushMark(s, i);
    } else if s.cur.Some? {
      assert Dirty(WithText(Revive(s)), i);
      FlushMark(WithText(Revive(s)), i);
    }
  }

  lemma LoadedMark(s: State, doc: YDoc, ws: string, i: nat)
    requires Wf(s) && Dirty(s, i)
    ensures Dirty(Step(s, Loaded(doc, ws)), i) || SkipBegins(s, Loaded(doc, ws), i)
  {
    if s.cur.None? && s.pc.Loading? {
      var s1 := WithText(Insert(s.(pc := Waiting), doc, ws));
      assert Dirty(s1, i);
      FlushMark(s1, i);
    }
  }

  lemma FinishMark(s: State, i: nat)
    requires Wf(s) && Dirty(s, i) && BothDone(s)
    ensures Dirty(Conclude(WithResult(s)), i) || JobQueued(s, Finish, i)
  {
    if i != s.pc.inst || !EmbedDue(WithResult(s).insts[i]) {
      EndIsQuiet(WithResult(s), s.writes[s.pc.write].phase.result, false);
    }
  }

  lemma ClientsMark(s: State, e: Event, i: nat)
    requires Wf(s) && Dirty(s, i) && (e.Join? || e.Leave? || e.Sync? || e.SubmitAppend? || e.DbCommit?)
    ensures Dirty(Step(s, e), i)
  {
  }

  lemma StoresMark(s: State, e: Event, i: nat)
    requires Wf(s) && Dirty(s, i) && (e.DbMissing? || e.DbError? || e.AttachmentsSynced?)
    ensures Dirty(Step(s, e), i)
  {
    if Owns(s, e.write) {
      EndIsQuiet(s, Persisted(0, 0), e.DbMissing?);
    }
  }

  /** A mark leaves its record only with a job queued for it, or when a flush finds nothing to save. */
  lemma MarkGoesByJobOrSkip(s: State, e: Event, i: nat)
    requires Wf(s) && Dirty(s, i)
    ensures Dirty(Step(s, e), i) || JobQueued(s, e, i) || SkipBegins(s, e, i)
  {
    if IsQuiet(e) {
      QuietSteps(s, e);
    } else if e.Loaded? {
      LoadedMark(s, e.doc, e.workspaceId, i);
    } else if e.Begin? {
      if s.queue != [] && s.pc.Waiting? { BeginMark(s, i); }
    } else if e.Finish? {
      if BothDone(s) { FinishMark(s, i); }
    } else if e.DbMissing? || e.DbError? || e.AttachmentsSynced? {
      StoresMark(s, e, i);
    } else {
      ClientsMark(s, e, i);
    }
  }

  ghost function Jobs(log: seq<Entry>, i: nat): nat {
    if log == [] then 0
    else
      var e := log[|log| - 1];
      Jobs(log[..|log| - 1], i) + if e.Job? && e.inst == i then 1 else 0
  }

  ghost function Marks(log: seq<Entry>, i: nat): nat {
    if log == [] then 0
    else Marks(log[..|log| - 1], i) + if log[|log| - 1] == Marked(i) then 1 else 0
  }

  /**
   Between two moments of a run, a document gets at most one job per edit made in between, and
   one more if it owed one before: flushing without edits adds none beyond a pending one.
   */
  lemma JobsBoundedByEdits(row: Option<Row>, redis: Option<YDoc>, first: seq<Event>, second: seq<Event>, i: nat)
    ensures var s := Run(Init(row, redis), first);
            var r := Run(s, second);
            Jobs(r.log, i) + (if Owes(r.log, i) then 1 else 0)
            <= Jobs(s.log, i) + (if Owes(s.log, i) then 1 else 0) + Marks(r.log, i) - Marks(s.log, i)
  {
    var s := Run(Init(row, redis), first);
    RunKeepsOrder(Init(row, redis), first);
    RunKeepsOrder(s, second);
    RunExtendsLog(s, second);
    LoggedJobsBounded(s.log, Run(s, second).log, i);
  }

  lemma {:induction false} LoggedJobsBounded(log: seq<Entry>, longer: seq<Entry>, i: nat)
    requires log <= longer && Alternating(longer)
    ensures Jobs(longer, i) + (if Owes(longer, i) then 1 else 0)
         <= Jobs(log, i) + (if Owes(log, i) then 1 else 0) + Marks(longer, i) - Marks(log, i)
    decreases |longer|
  {
    if |log| < |longer| {
      var n := |longer| - 1;
      assert Alternating(longer[..n]) by {
        forall k | 0 <= k < n && longer[k].Job?
          ensures Owes(longer[..n][..k], longer[..n][k].inst)
        {
          assert longer[..n][..k] == longer[..k];
        }
      }
      LoggedJobsBounded(log, longer[..n], i);
    } else {
      assert log == longer;
    }
  }
}
