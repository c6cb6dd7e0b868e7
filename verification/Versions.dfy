/** How the row version moves, and what flushes and appends report about it. */
module Versions {
  import opened Wrappers
  import opened YDocs
  import opened ManagedDocs
  import opened NodeMachine
  import opened NodeFrames
  import opened SaveChain
  import opened Agreement

  // ── The version counts the committed row updates ───────────────────────────

  ghost function Commits(log: seq<Entry>): nat {
    if log == [] then 0
    else Commits(log[..|log| - 1]) + if log[|log| - 1].Commit? then 1 else 0
  }

  lemma {:induction false} SameCommits(log: seq<Entry>, longer: seq<Entry>)
    requires log <= longer && forall k :: |log| <= k < |longer| ==> !longer[k].Commit?
    ensures Commits(longer) == Commits(log)
    decreases |longer|
  {
    if |log| < |longer| {
      SameCommits(log, longer[..|longer| - 1]);
    } else {
      assert log == longer;
    }
  }

  /** The version moves with commits alone, each raising it by one. */
  lemma StepAccounts(s: State, e: Event)
    requires Wf(s)
    ensures Step(s, e).row.Some? <==> s.row.Some?
    ensures Version(Step(s, e)) + Commits(s.log) == Version(s) + Commits(Step(s, e).log)
  {
    StepLog(s, e);
    var r := Step(s, e);
    if e.DbCommit? && r != s {
      assert r.log[..|s.log|] == s.log;
    } else {
      SameCommits(s.log, r.log);
    }
  }

  /** The row version is its initial value plus the number of committed row updates, in every run. */
  lemma {:induction false} VersionCountsCommits(s: State, es: seq<Event>)
    requires Wf(s)
    ensures Run(s, es).row.Some? <==> s.row.Some?
    ensures Version(Run(s, es)) + Commits(s.log) == Version(s) + Commits(Run(s, es).log)
    decreases |es|
  {
    if es != [] {
      StepAccounts(s, es[0]);
      VersionCountsCommits(Step(s, es[0]), es[1..]);
    }
  }

  // ── Flushes without new structs ────────────────────────────────────────────

  /**
   No failures and no new structs: an edit may repeat structs and delete, an append may bring
   nothing the document lacks, clients come and go, flushes are asked for at any time.
   */
  ghost predicate Calm(s: State, e: Event)
    requires Wf(s)
  {
    match e
    case Sync(_, update, _, _) => s.cur.Some? ==> Below(update, s.insts[s.cur.value].doc)
    case Begin =>
      s.queue != [] && s.pc.Waiting? && s.queue[0].AppendTask? && s.cur.Some? ==>
        Below(s.queue[0].update, s.insts[s.cur.value].doc)
    case RedisReply(ok) => ok
    case DbMissing(_) => false
    case DbError(_) => false
    case AttachmentsSynced(_, ok) => ok
    case _ => true
  }

  ghost predicate CalmRun(s: State, es: seq<Event>)
    requires Wf(s)
    decreases |es|
  {
    es == [] || (Calm(s, es[0]) && CalmRun(Step(s, es[0]), es[1..]))
  }

  /** A load inserts a record, which knows of no save of its own. */
  function Loads(s: State, e: Event): nat {
    if e.Loaded? && s.cur.None? then 1 else 0
  }

  function LoadsIn(s: State, es: seq<Event>): nat
    requires Wf(s)
    decreases |es|
  {
    if es == [] then 0 else Loads(s, es[0]) + LoadsIn(Step(s, es[0]), es[1..])
  }

  /** The loaded document has structs that no save, finished or under way, covers. */
  ghost predicate Behind(s: State)
    requires Wf(s)
  {
    s.cur.Some? &&
    if s.pc.Saving? && s.pc.inst == s.cur.value
    then Vector(s.writes[s.pc.write].state) != Vector(s.insts[s.cur.value].doc)
    else !NothingToSave(s.insts[s.cur.value])
  }

  ghost predicate CommitDue(s: State)
    requires Wf(s)
  {
    s.pc.Saving? && s.writes[s.pc.write].phase.Opened?
  }

  /** How many row updates are still to come if nothing new is written. */
  ghost function UpdatesDue(s: State): nat
    requires Wf(s)
  {
    (if Behind(s) then 1 else 0) + (if CommitDue(s) then 1 else 0)
  }

  lemma FlushUpdates(s: State)
    requires Wf(s) && s.queue != [] && s.pc.Waiting?
    ensures UpdatesDue(Flush(s)) <= UpdatesDue(s)
  {
  }

  lemma FinishUpdates(s: State)
    requires Wf(s) && BothDone(s)
    ensures UpdatesDue(Conclude(WithResult(s))) <= UpdatesDue(s)
  {
  }

  lemma ReplyUpdates(s: State)
    requires Wf(s) && s.redisSent != []
    ensures UpdatesDue(Reply(s, true)) <= UpdatesDue(s)
  {
    ReplyIsQuiet(s, true);
  }

  lemma QuietUpdates(s: State, e: Event)
    requires Wf(s) && Calm(s, e) && IsQuiet(e)
    ensures UpdatesDue(Step(s, e)) <= UpdatesDue(s)
  {
    QuietSteps(s, e);
    if e.RedisReply? && s.redisSent != [] {
      ReplyUpdates(s);
    }
  }

  lemma ClientsUpdates(s: State, e: Event)
    requires Wf(s) && (e.Join? || e.Leave?)
    ensures UpdatesDue(Step(s, e)) == UpdatesDue(s)
  {
  }

  /** An edit without new structs leaves nothing more to save than there was. */
  lemma SyncUpdates(s: State, e: Event)
    requires Wf(s) && e.Sync? && Calm(s, e)
    ensures UpdatesDue(Step(s, e)) == UpdatesDue(s)
  {
    if s.cur.Some? {
      MergeAddsNothing(s.insts[s.cur.value].doc, e.update);
    }
  }

  /** Nor does an append without new structs. */
  lemma TextUpdates(s: State)
    requires Wf(s) && s.queue != [] && s.queue[0].AppendTask? && s.cur.Some? && s.pc.Waiting?
    requires Below(s.queue[0].update, s.insts[s.cur.value].doc)
    ensures UpdatesDue(WithText(Revive(s))) == UpdatesDue(s)
  {
    MergeAddsNothing(s.insts[s.cur.value].doc, s.queue[0].update);
  }

  lemma BeginUpdates(s: State)
    requires Wf(s) && s.queue != [] && s.pc.Waiting? && Calm(s, Begin)
    ensures UpdatesDue(BeginTask(s)) <= UpdatesDue(s)
  {
    if s.queue[0].FlushTask? {
      FlushUpdates(s);
    } else if s.cur.Some? {
      TextUpdates(s);
      FlushUpdates(WithText(Revive(s)));
    }
  }

  lemma LoadedUpdates(s: State, doc: YDoc, ws: string)
    requires Wf(s) && s.cur.None?
    ensures UpdatesDue(Step(s, Loaded(doc, ws))) <= UpdatesDue(s) + 1
  {
    if s.pc.Loading? {
      FlushUpdates(WithText(Insert(s.(pc := Waiting), doc, ws)));
    }
  }

  lemma CommitUpdates(s: State, w: nat, now: nat)
    requires Wf(s) && w < |s.writes| && s.writes[w].phase.Opened? && s.row.Some? && Owns(s, w)
    ensures Version(CommitRow(s, w, now)) + UpdatesDue(CommitRow(s, w, now)) == Version(s) + UpdatesDue(s)
  {
  }

  /** A step without news or failures: an update made is an update no longer due; a load may make one due. */
  lemma CalmStep(s: State, e: Event)
    requires Wf(s) && OnlyOwnWrite(s) && Calm(s, e)
    ensures OnlyOwnWrite(Step(s, e))
    ensures Version(Step(s, e)) + UpdatesDue(Step(s, e)) <= Version(s) + UpdatesDue(s) + Loads(s, e)
  {
    OnlyOwnWriteUnlessAbandoned(s, e);
    StepLog(s, e);
    if IsQuiet(e) {
      QuietUpdates(s, e);
    } else {
      match e
      case Loaded(doc, ws) => if s.cur.None? { LoadedUpdates(s, doc, ws); }
      case Sync(_, _, _, _) => SyncUpdates(s, e);
      case Begin => if s.queue != [] && s.pc.Waiting? { BeginUpdates(s); }
      case DbCommit(w, now) =>
        if w < |s.writes| && s.writes[w].phase.Opened? && s.row.Some? { CommitUpdates(s, w, now); }
      case Join(_) => ClientsUpdates(s, e);
      case Leave(_) => ClientsUpdates(s, e);
      case Finish => if BothDone(s) { FinishUpdates(s); }
      case _ =>
    }
  }

  lemma {:induction false} CalmRunUpdates(s: State, es: seq<Event>)
    requires Wf(s) && OnlyOwnWrite(s) && CalmRun(s, es)
    ensures Version(Run(s, es)) + UpdatesDue(Run(s, es)) <= Version(s) + UpdatesDue(s) + LoadsIn(s, es)
    decreases |es|
  {
    if es != [] {
      CalmStep(s, es[0]);
      CalmRunUpdates(Step(s, es[0]), es[1..]);
    }
  }

  /**
   However many flushes run and whatever is edited without a new struct, the version rises at
   most once, and not at all when the loaded document has nothing to save.  A save that has not
   committed at the start, and every load in between, may add one more.
   */
  lemma CalmFlushesRaiseVersionAtMostOnce(s: State, es: seq<Event>)
    requires Wf(s) && OnlyOwnWrite(s) && CalmRun(s, es)
    ensures Version(s) <= Version(Run(s, es)) <= Version(s) + 1 + (if CommitDue(s) then 1 else 0) + LoadsIn(s, es)
    ensures s.cur.Some? && NothingToSave(s.insts[s.cur.value]) && !s.pc.Saving? ==>
              Version(Run(s, es)) <= Version(s) + LoadsIn(s, es)
  {
    CalmRunUpdates(s, es);
    VersionCountsCommits(s, es);
    CommitsGrow(s, es);
  }

  lemma {:induction false} MoreCommits(log: seq<Entry>, longer: seq<Entry>)
    requires log <= longer
    ensures Commits(log) <= Commits(longer)
    decreases |longer|
  {
    if |log| < |longer| {
      MoreCommits(log, longer[..|longer| - 1]);
    } else {
      assert log == longer;
    }
  }

  lemma {:induction false} CommitsGrow(s: State, es: seq<Event>)
    requires Wf(s)
    ensures Commits(s.log) <= Commits(Run(s, es).log)
    decreases |es|
  {
    if es != [] {
      StepLog(s, es[0]);
      MoreCommits(s.log, Step(s, es[0]).log);
      CommitsGrow(Step(s, es[0]), es[1..]);
    }
  }

  // ── What a skipped flush reports ───────────────────────────────────────────

  ghost predicate ReportsLastSave(log: seq<Entry>, i: nat, p: Persisted) {
    LastSave(log, i).Some? && LastSave(log, i).value.1 == p
  }

  /** Every skipped flush reported the result of its document's last successful save. */
  ghost predicate SkipsReport(s: State) {
    && (forall k :: 0 <= k < |s.log| && s.log[k].Skipped? ==>
          ReportsLastSave(s.log[..k], s.log[k].inst, s.log[k].result))
    && (s.pc.Refreshing? ==> ReportsLastSave(s.log, s.pc.inst, s.pc.result))
  }

  /** The history grew by entries that are neither saves nor skips. */
  lemma GrowthKeepsReports(s: State, r: State)
    requires SkipsReport(s) && s.log <= r.log
    requires forall k :: |s.log| <= k < |r.log| ==> !r.log[k].Skipped?
    requires r.pc.Refreshing? ==> ReportsLastSave(r.log, r.pc.inst, r.pc.result)
    ensures SkipsReport(r)
  {
    forall k | 0 <= k < |r.log| && r.log[k].Skipped?
      ensures ReportsLastSave(r.log[..k], r.log[k].inst, r.log[k].result)
    {
      assert r.log[..k] == s.log[..k];
    }
  }

  lemma FlushReports(s: State)
    requires Remembers(s) && SkipsReport(s) && s.queue != [] && !s.pc.Saving?
    ensures SkipsReport(Flush(s))
  {
    FlushLog(s);
    if s.cur.Some? {
      assert RemembersAt(s, s.cur.value);
    }
    GrowthKeepsReports(s, Flush(s));
  }

  lemma TextReports(s: State)
    requires Wf(s) && SkipsReport(s) && s.queue != [] && s.queue[0].AppendTask? && s.cur.Some? && !s.pc.Saving?
    ensures SkipsReport(WithText(s))
  {
    GrowthKeepsReports(s, WithText(s));
  }

  lemma ReplyReports(s: State, ok: bool)
    requires Wf(s) && SkipsReport(s) && s.redisSent != []
    ensures SkipsReport(Reply(s, ok))
  {
    var r := Reply(s, ok);
    ReplyIsQuiet(s, ok);
    if s.pc.Refreshing? && s.pc.ahead == 0 && ok {
      var s1 := Succeed(s, s.pc.result);
      GrowthKeepsReports(s, s1);
      SameLastSave(s.log, s1.log, s.pc.inst);
      forall k | 0 <= k < |r.log| && r.log[k].Skipped?
        ensures ReportsLastSave(r.log[..k], r.log[k].inst, r.log[k].result)
      {
        if k < |s1.log| { assert r.log[..k] == s1.log[..k]; } else { assert r.log[..k] == s1.log; }
      }
    } else {
      GrowthKeepsReports(s, r);
    }
  }

  lemma FinishReports(s: State)
    requires Wf(s) && SkipsReport(s) && BothDone(s)
    ensures SkipsReport(Conclude(WithResult(s)))
  {
    GrowthKeepsReports(s, Conclude(WithResult(s)));
  }

  lemma WriteFailsReports(s: State, w: nat, gone: bool)
    requires Wf(s) && SkipsReport(s) && w < |s.writes|
    ensures SkipsReport(WriteFails(s, w, gone))
  {
    GrowthKeepsReports(s, WriteFails(s, w, gone));
  }

  lemma ClientsReport(s: State, e: Event)
    requires Wf(s) && SkipsReport(s)
    requires e.Join? || e.Leave? || e.Sync? || e.SubmitAppend? || e.SubmitFlush? || e.TimerFired? || e.Cleanup?
    ensures SkipsReport(Step(s, e))
  {
    StepLog(s, e);
    if s.pc.Refreshing? {
      SameLastSave(s.log, Step(s, e).log, s.pc.inst);
    }
    GrowthKeepsReports(s, Step(s, e));
  }

  lemma CommitReports(s: State, w: nat, now: nat)
    requires Wf(s) && SkipsReport(s) && w < |s.writes| && s.row.Some?
    ensures SkipsReport(CommitRow(s, w, now))
  {
    var r := CommitRow(s, w, now);
    if s.pc.Refreshing? {
      SameLastSave(s.log, r.log, s.pc.inst);
    }
    GrowthKeepsReports(s, r);
  }

  lemma LoadedReports(s: State, doc: YDoc, ws: string)
    requires Remembers(s) && SkipsReport(s) && s.pc.Loading?
    ensures SkipsReport(Step(s, Loaded(doc, ws)))
  {
    var s1 := Insert(s.(pc := Waiting), doc, ws);
    forall i: nat ensures RemembersAt(WithText(s1), i) {
      assert RemembersAt(s, i);
      SameLastSave(s.log, WithText(s1).log, i);
    }
    TextReports(s1);
    FlushReports(WithText(s1));
  }

  lemma StepReports(s: State, e: Event)
    requires Remembers(s) && SkipsReport(s)
    ensures SkipsReport(Step(s, e))
  {
    match e
    case Loaded(doc, ws) => if s.cur.None? && s.pc.Loading? { LoadedReports(s, doc, ws); }
    case LoadFailed => if s.pc.Loading? { GrowthKeepsReports(s, Fail(s, false)); }
    case Begin => if s.queue != [] && s.pc.Waiting? { BeginReports(s); }
    case RedisReply(ok) => if s.redisSent != [] { ReplyReports(s, ok); }
    case DbCommit(w, now) =>
      if w < |s.writes| && s.writes[w].phase.Opened? && s.row.Some? { CommitReports(s, w, now); }
    case DbMissing(w) => if w < |s.writes| && s.writes[w].phase.Opened? { WriteFailsReports(s, w, true); }
    case DbError(w) => if w < |s.writes| && s.writes[w].phase.Opened? { WriteFailsReports(s, w, false); }
    case AttachmentsSynced(w, ok) =>
      if !ok && w < |s.writes| && s.writes[w].phase.Committed? { WriteFailsReports(s, w, false); }
    case Finish => if BothDone(s) { FinishReports(s); }
    case EmbedDone => if s.pc.Embedding? { GrowthKeepsReports(s, Succeed(s, s.pc.result)); }
    case _ => ClientsReport(s, e);
  }

  lemma BeginReports(s: State)
    requires Remembers(s) && SkipsReport(s) && s.queue != [] && s.pc.Waiting?
    ensures SkipsReport(BeginTask(s))
  {
    if s.queue[0].FlushTask? {
      FlushReports(s);
    } else if s.cur.Some? {
      var s1 := Revive(s);
      ReviveIsLight(s);
      LightKeepsRemembers(s, s1);
      TextReports(s1);
      var s2 := WithText(s1);
      forall i: nat ensures RemembersAt(s2, i) {
        assert RemembersAt(s1, i);
        SameLastSave(s1.log, s2.log, i);
      }
      FlushReports(s2);
    }
  }

  lemma {:induction false} RunReports(s: State, es: seq<Event>, h: History)
    requires Sound(s, h) && RunIn(es, h) && SkipsReport(s)
    ensures SkipsReport(Run(s, es))
    decreases |es|
  {
    if es != [] {
      StepKeepsSound(s, es[0], h);
      StepReports(s, es[0]);
      RunReports(Step(s, es[0]), es[1..], h);
    }
  }

  /** In every run, a flush that skips returns the pair its document's last own save stored. */
  lemma SkippedFlushReportsLastSave(row: Option<Row>, redis: Option<YDoc>, es: seq<Event>, h: History)
    requires (row.Some? ==> ValidIn(row.value.state, h)) && RunIn(es, h)
    ensures SkipsReport(Run(Init(row, redis), es))
  {
    InitIsSound(row, redis, h);
    RunReports(Init(row, redis), es, h);
  }

  // ── No version is known before the row has it ──────────────────────────────

  predicate HasBeen(s: State, p: Persisted) {
    s.row.Some? && p.version <= s.row.value.version
  }

  /** The versions that records, database writes, the running task and answered appends know of. */
  ghost predicate KnownHaveBeen(s: State)
    requires Wf(s)
  {
    && (forall i :: 0 <= i < |s.insts| && s.insts[i].lastPersisted.Some? ==> HasBeen(s, s.insts[i].lastPersisted.value))
    && (forall w :: 0 <= w < |s.writes| && (s.writes[w].phase.Committed? || s.writes[w].phase.Finished?) ==>
          HasBeen(s, s.writes[w].phase.result))
    && (s.pc.Refreshing? || s.pc.Embedding? ==> HasBeen(s, s.pc.result))
    && (forall k :: 0 <= k < |s.log| && s.log[k].AppendOk? ==> HasBeen(s, s.log[k].result))
  }

  /** No append was answered, and the running task has in hand what it had, if anything. */
  ghost predicate NothingAnswered(s: State, r: State) {
    && s.log <= r.log && (forall k :: |s.log| <= k < |r.log| ==> !r.log[k].AppendOk?)
    && (r.pc.Refreshing? ==> s.pc.Refreshing? && r.pc.result == s.pc.result)
    && (r.pc.Embedding? ==> s.pc.Embedding? && r.pc.result == s.pc.result)
  }

  lemma LightKnows(s: State, r: State)
    requires Wf(s) && Wf(r) && KnownHaveBeen(s) && Light(s, r) && NothingAnswered(s, r)
    ensures KnownHaveBeen(r)
  {
    forall i | 0 <= i < |r.insts| && r.insts[i].lastPersisted.Some? ensures HasBeen(r, r.insts[i].lastPersisted.value) {
      assert SameContents(s.insts[i], r.insts[i]);
    }
  }

  lemma EndKnows(s: State, result: Persisted, gone: bool)
    requires Wf(s) && KnownHaveBeen(s) && s.queue != []
    ensures KnownHaveBeen(Fail(s, gone))
    ensures HasBeen(s, result) ==> KnownHaveBeen(Succeed(s, result))
  {
  }

  lemma FlushKnows(s: State)
    requires Wf(s) && KnownHaveBeen(s) && s.queue != [] && s.pc.Waiting?
    ensures KnownHaveBeen(Flush(s))
  {
  }

  lemma TextKnows(s: State)
    requires Wf(s) && KnownHaveBeen(s) && s.queue != [] && s.queue[0].AppendTask? && s.cur.Some? && s.pc.Waiting?
    ensures KnownHaveBeen(WithText(s))
  {
  }

  lemma BeginKnows(s: State)
    requires Wf(s) && KnownHaveBeen(s) && s.queue != [] && s.pc.Waiting?
    ensures KnownHaveBeen(BeginTask(s))
  {
    if s.queue[0].FlushTask? {
      FlushKnows(s);
    } else if s.cur.Some? {
      ReviveIsLight(s);
      LightKnows(s, Revive(s));
      TextKnows(Revive(s));
      FlushKnows(WithText(Revive(s)));
    }
  }

  lemma LoadedKnows(s: State, doc: YDoc, ws: string)
    requires Wf(s) && KnownHaveBeen(s) && s.cur.None?
    ensures KnownHaveBeen(Step(s, Loaded(doc, ws)))
  {
    if s.pc.Loading? {
      var s1 := Insert(s.(pc := Waiting), doc, ws);
      TextKnows(s1);
      FlushKnows(WithText(s1));
    }
  }

  lemma AnsweredKnows(s: State, ok: bool)
    requires Wf(s) && KnownHaveBeen(s) && s.redisSent != []
    ensures KnownHaveBeen(Answered(s, ok))
  {
    if s.pc.Refreshing? {
      EndKnows(s, s.pc.result, false);
    } else if s.pc.Saving? {
      EndKnows(s, Persisted(0, 0), false);
    }
  }

  lemma ReplyKnows(s: State, ok: bool)
    requires Wf(s) && KnownHaveBeen(s) && s.redisSent != []
    ensures KnownHaveBeen(Reply(s, ok))
  {
    AnsweredKnows(s, ok);
  }

  lemma WriteFailsKnows(s: State, w: nat, gone: bool)
    requires Wf(s) && KnownHaveBeen(s) && w < |s.writes|
    ensures KnownHaveBeen(WriteFails(s, w, gone))
  {
    if Owns(s, w) {
      EndKnows(s, Persisted(0, 0), gone);
    }
  }

  lemma CommitKnows(s: State, w: nat, now: nat)
    requires Wf(s) && KnownHaveBeen(s) && w < |s.writes| && s.row.Some?
    ensures KnownHaveBeen(CommitRow(s, w, now))
  {
  }

  lemma FinishKnows(s: State)
    requires Wf(s) && KnownHaveBeen(s) && BothDone(s)
    ensures KnownHaveBeen(Conclude(WithResult(s)))
  {
    var s1 := WithResult(s);
    assert KnownHaveBeen(s1);
    EndKnows(s1, s.writes[s.pc.write].phase.result, false);
  }

  lemma ClientsKnow(s: State, e: Event)
    requires Wf(s) && KnownHaveBeen(s) && (e.Join? || e.Leave?)
    ensures KnownHaveBeen(Step(s, e))
  {
    if e.Join? { JoinIsLight(s, e.socket); } else { LeaveIsLight(s, e.socket); }
    LightKnows(s, Step(s, e));
  }

  lemma SyncKnows(s: State, e: Event)
    requires Wf(s) && KnownHaveBeen(s) && e.Sync?
    ensures KnownHaveBeen(Step(s, e))
  {
  }

  lemma AskingKnows(s: State, e: Event)
    requires Wf(s) && KnownHaveBeen(s) && (e.SubmitFlush? || e.SubmitAppend? || e.TimerFired? || e.Cleanup?)
    ensures KnownHaveBeen(Step(s, e))
  {
  }

  lemma StepKnows(s: State, e: Event)
    requires Wf(s) && KnownHaveBeen(s)
    ensures KnownHaveBeen(Step(s, e))
  {
    match e
    case Loaded(doc, ws) => if s.cur.None? { LoadedKnows(s, doc, ws); }
    case LoadFailed => if s.pc.Loading? { EndKnows(s, Persisted(0, 0), false); }
    case Begin => if s.queue != [] && s.pc.Waiting? { BeginKnows(s); }
    case RedisReply(ok) => if s.redisSent != [] { ReplyKnows(s, ok); }
    case DbCommit(w, now) => if w < |s.writes| && s.row.Some? { CommitKnows(s, w, now); }
    case DbMissing(w) => if w < |s.writes| { WriteFailsKnows(s, w, true); }
    case DbError(w) => if w < |s.writes| { WriteFailsKnows(s, w, false); }
    case AttachmentsSynced(w, ok) => if w < |s.writes| { WriteFailsKnows(s, w, false); }
    case Finish => if BothDone(s) { FinishKnows(s); }
    case EmbedDone => if s.pc.Embedding? { EndKnows(s, s.pc.result, false); }
    case Join(_) => ClientsKnow(s, e);
    case Leave(_) => ClientsKnow(s, e);
    case Sync(_, _, _, _) => SyncKnows(s, e);
    case _ => AskingKnows(s, e);
  }

  lemma {:induction false} RunKnows(s: State, es: seq<Event>)
    requires Wf(s) && KnownHaveBeen(s)
    ensures KnownHaveBeen(Run(s, es))
    decreases |es|
  {
    if es != [] {
      StepKnows(s, es[0]);
      RunKnows(Step(s, es[0]), es[1..]);
    }
  }

  /** In every run, no version is remembered or reported that the row has not had. */
  lemma NoVersionIsAhead(row: Option<Row>, redis: Option<YDoc>, es: seq<Event>)
    ensures KnownHaveBeen(Run(Init(row, redis), es))
  {
    RunKnows(Init(row, redis), es);
  }
}
