/**
 Every operation finishes in every run, whatever else happens meanwhile, as long as the stores
 keep answering.  The measure is the operation's place in the queue, then how far the head of
 the queue has got, then what the stores still owe the head.
 */
module Liveness {
  import opened Wrappers
  import opened YDocs
  import opened ManagedDocs
  import opened NodeMachine
  import opened NodeFrames
  import Progress

  /** How far the head has got. */
  function Stage(s: State): nat {
    match s.pc
    case Waiting => 4
    case Loading => 3
    case Saving(_, _, _) => 2
    case Refreshing(_, _, _) => 2
    case Embedding(_, _) => 1
  }

  /** The replies and settlements the stores still owe the head. */
  function Owed(s: State): nat
    requires Wf(s)
  {
    match s.pc
    case Refreshing(_, _, ahead) => ahead + 1
    case Saving(_, w, reply) =>
      Progress.WriteWork(s.writes[w]) + if reply.Some? then reply.value + 1 else 0
    case _ => 0
  }

  /** What the queue's progress depends on: the queue, and how far its head has got. */
  datatype View = View(queue: seq<Task>, stage: nat, owed: nat)

  predicate ViewNoHigher(v: View, w: View) {
    w.stage < v.stage || (w.stage == v.stage && w.owed <= v.owed)
  }

  predicate ViewLower(v: View, w: View) {
    w.stage < v.stage || (w.stage == v.stage && w.owed < v.owed)
  }

  predicate ViewPops(v: View, w: View) {
    |w.queue| < |v.queue|
  }

  /** Only the head leaves, new operations join at the back, and no step sets the head back. */
  ghost predicate ViewInTurn(v: View, w: View) {
    if ViewPops(v, w) then v.queue != [] && w.queue == v.queue[1..]
    else v.queue <= w.queue && (v.queue != [] ==> ViewNoHigher(v, w))
  }

  function ViewOf(s: State): View
    requires Wf(s)
  {
    View(s.queue, Stage(s), Owed(s))
  }

  predicate NoHigher(s: State, r: State)
    requires Wf(s) && Wf(r)
  {
    ViewNoHigher(ViewOf(s), ViewOf(r))
  }

  predicate Lower(s: State, r: State)
    requires Wf(s) && Wf(r)
  {
    ViewLower(ViewOf(s), ViewOf(r))
  }

  /** The step takes the head off the queue. */
  predicate Pops(s: State, e: Event)
    requires Wf(s)
  {
    ViewPops(ViewOf(s), ViewOf(Step(s, e)))
  }

  ghost predicate InTurn(s: State, r: State)
    requires Wf(s) && Wf(r)
  {
    ViewInTurn(ViewOf(s), ViewOf(r))
  }

  lemma EndInTurn(s: State, result: Persisted, gone: bool)
    requires Wf(s) && s.queue != []
    ensures Succeed(s, result).queue == s.queue[1..] && Fail(s, gone).queue == s.queue[1..]
  {
  }

  lemma FlushInTurn(s: State)
    requires Wf(s) && s.queue != [] && s.pc.Waiting?
    ensures if s.cur.None? then Flush(s).queue == s.queue[1..] else Flush(s).queue == s.queue && Stage(Flush(s)) == 2
  {
  }

  lemma BeginInTurn(s: State)
    requires Wf(s) && s.queue != [] && s.pc.Waiting?
    ensures var r := BeginTask(s); r.queue == s.queue[1..] || (r.queue == s.queue && Stage(r) < Stage(s))
  {
    if s.queue[0].FlushTask? {
      FlushInTurn(s);
    } else if s.cur.Some? {
      FlushInTurn(WithText(Revive(s)));
    }
  }

  lemma LoadedInTurn(s: State, doc: YDoc, ws: string)
    requires Wf(s) && s.cur.None?
    ensures var r := Step(s, Loaded(doc, ws)); r.queue == s.queue && NoHigher(s, r) && (s.pc.Loading? ==> Stage(r) < Stage(s))
  {
    if s.pc.Loading? {
      FlushInTurn(WithText(Insert(s.(pc := Waiting), doc, ws)));
    }
  }

  lemma RefreshInTurn(s: State, ok: bool)
    requires Wf(s) && s.redisSent != [] && s.pc.Refreshing?
    ensures var r := Reply(s, ok); r.queue == s.queue[1..] || (r.queue == s.queue && Lower(s, r))
  {
    EndInTurn(s, s.pc.result, false);
  }

  lemma SaveReplyInTurn(s: State, ok: bool)
    requires Wf(s) && s.redisSent != [] && s.pc.Saving?
    ensures var r := Reply(s, ok);
            r.queue == s.queue[1..] || (r.queue == s.queue && NoHigher(s, r) && (s.pc.reply.Some? ==> Lower(s, r)))
  {
    EndInTurn(s, Persisted(0, 0), false);
  }

  lemma ReplyInTurn(s: State, ok: bool)
    requires Wf(s) && s.redisSent != []
    ensures var r := Reply(s, ok);
            || (s.queue != [] && r.queue == s.queue[1..])
            || (r.queue == s.queue && NoHigher(s, r) &&
                (s.pc.Refreshing? || (s.pc.Saving? && s.pc.reply.Some?) ==> Lower(s, r)))
  {
    if s.pc.Refreshing? {
      RefreshInTurn(s, ok);
    } else if s.pc.Saving? {
      SaveReplyInTurn(s, ok);
    }
  }

  lemma PhaseInTurn(s: State, w: nat, phase: Phase)
    requires Wf(s) && w < |s.writes| && (phase.Failed? ==> !Owns(s, w))
    requires Progress.WriteWork(s.writes[w].(phase := phase)) < Progress.WriteWork(s.writes[w])
    ensures var r := SetPhase(s, w, phase);
            r.queue == s.queue && NoHigher(s, r) && (Owns(s, w) ==> Lower(s, r))
  {
  }

  lemma CommitInTurn(s: State, w: nat, now: nat)
    requires Wf(s) && w < |s.writes| && s.writes[w].phase.Opened? && s.row.Some?
    ensures var r := CommitRow(s, w, now);
            r.queue == s.queue && NoHigher(s, r) && (Owns(s, w) ==> Lower(s, r))
  {
    PhaseInTurn(s, w, Committed(Persisted(s.row.value.version + 1, now)));
  }

  lemma WriteFailsInTurn(s: State, w: nat, gone: bool)
    requires Wf(s) && w < |s.writes| && Unsettled(s.writes[w])
    ensures var r := WriteFails(s, w, gone);
            if Owns(s, w) then r.queue == s.queue[1..] else r.queue == s.queue && NoHigher(s, r)
  {
    if Owns(s, w) {
      EndInTurn(s, Persisted(0, 0), gone);
    }
  }

  lemma FinishInTurn(s: State)
    requires Wf(s) && BothDone(s)
    ensures var r := Conclude(WithResult(s)); r.queue == s.queue[1..] || (r.queue == s.queue && Stage(r) < Stage(s))
  {
    EndInTurn(WithResult(s), s.writes[s.pc.write].phase.result, false);
  }

  lemma ClientsInTurn(s: State, e: Event)
    requires Wf(s) && (e.Join? || e.Leave? || e.Sync?)
    ensures var r := Step(s, e); s.queue <= r.queue && r.pc == s.pc && r.writes == s.writes
  {
  }

  lemma AskingInTurn(s: State, e: Event)
    requires Wf(s) && (e.SubmitFlush? || e.SubmitAppend? || e.TimerFired? || e.Cleanup?)
    ensures var r := Step(s, e); s.queue <= r.queue && r.pc == s.pc && r.writes == s.writes
  {
  }

  /** No event of any kind delays the head, and none lets another operation overtake. */
  lemma StepIsInTurn(s: State, e: Event)
    requires Wf(s)
    ensures InTurn(s, Step(s, e))
  {
    match e
    case Loaded(doc, ws) => if s.cur.None? { LoadedInTurn(s, doc, ws); }
    case LoadFailed => if s.pc.Loading? { EndInTurn(s, Persisted(0, 0), false); }
    case Join(_) => ClientsInTurn(s, e);
    case Leave(_) => ClientsInTurn(s, e);
    case Sync(_, _, _, _) => ClientsInTurn(s, e);
    case SubmitFlush => AskingInTurn(s, e);
    case SubmitAppend(_, _, _) => AskingInTurn(s, e);
    case TimerFired(_) => AskingInTurn(s, e);
    case Cleanup => AskingInTurn(s, e);
    case Begin => if s.queue != [] && s.pc.Waiting? { BeginInTurn(s); }
    case RedisReply(ok) => if s.redisSent != [] { ReplyInTurn(s, ok); }
    case DbCommit(w, now) =>
      if w < |s.writes| && s.writes[w].phase.Opened? && s.row.Some? { CommitInTurn(s, w, now); }
    case DbMissing(w) =>
      if w < |s.writes| && s.writes[w].phase.Opened? && s.row.None? { WriteFailsInTurn(s, w, true); }
    case DbError(w) => if w < |s.writes| && s.writes[w].phase.Opened? { WriteFailsInTurn(s, w, false); }
    case AttachmentsSynced(w, ok) => SyncedInTurn(s, w, ok);
    case Finish => if BothDone(s) { FinishInTurn(s); }
    case EmbedDone => if s.pc.Embedding? { EndInTurn(s, s.pc.result, false); }
  }

  lemma SyncedInTurn(s: State, w: nat, ok: bool)
    requires Wf(s)
    ensures InTurn(s, Step(s, AttachmentsSynced(w, ok)))
    ensures w < |s.writes| && s.writes[w].phase.Committed? && Owns(s, w) ==>
              var r := Step(s, AttachmentsSynced(w, ok)); r.queue == s.queue[1..] || (r.queue == s.queue && Lower(s, r))
  {
    if w < |s.writes| && s.writes[w].phase.Committed? {
      if ok {
        PhaseInTurn(s, w, Finished(s.writes[w].phase.result));
      } else {
        WriteFailsInTurn(s, w, false);
      }
    }
  }

  // ── What the head waits for ────────────────────────────────────────────────

  /** The event is an answer the head waits for: its turn, its load, one of its store calls, or its continuation. */
  predicate Answers(s: State, e: Event)
    requires Wf(s)
  {
    && s.queue != []
    && match s.pc
       case Waiting => e.Begin?
       case Loading => e.Loaded? || e.LoadFailed?
       case Refreshing(_, _, _) => e.RedisReply?
       case Embedding(_, _) => e.EmbedDone?
       case Saving(_, w, reply) =>
         || (reply.Some? && e.RedisReply?)
         || match s.writes[w].phase
            case Opened =>
              || e == DbError(w) || (s.row.None? && e == DbMissing(w))
              || (s.row.Some? && e.DbCommit? && e.write == w)
            case Committed(_) => e.AttachmentsSynced? && e.write == w
            case Finished(_) => reply.None? && e.Finish?
            case Failed => false
  }

  lemma StoresBringOn(s: State, e: Event)
    requires Wf(s) && Answers(s, e) && (e.DbCommit? || e.DbMissing? || e.DbError? || e.AttachmentsSynced?)
    ensures Pops(s, e) || Lower(s, Step(s, e))
  {
    match e
    case DbCommit(w, now) => CommitInTurn(s, w, now);
    case DbMissing(w) => WriteFailsInTurn(s, w, true);
    case DbError(w) => WriteFailsInTurn(s, w, false);
    case AttachmentsSynced(w, ok) => SyncedInTurn(s, w, ok);
  }

  /** The head always waits for something, and each answer pops it or brings it on. */
  lemma AnswersBringOn(s: State, e: Event)
    requires Wf(s) && Answers(s, e)
    ensures Pops(s, e) || Lower(s, Step(s, e))
  {
    if e.Loaded? {
      LoadedInTurn(s, e.doc, e.workspaceId);
    } else if e.LoadFailed? {
      EndInTurn(s, Persisted(0, 0), false);
    } else if e.Begin? {
      BeginInTurn(s);
    } else if e.RedisReply? {
      ReplyInTurn(s, e.ok);
    } else if e.Finish? {
      FinishInTurn(s);
    } else if e.EmbedDone? {
      EndInTurn(s, s.pc.result, false);
    } else {
      StoresBringOn(s, e);
    }
  }

  /** The settlement chosen in `Progress.Awaited` is such an answer: the head is never left waiting for nothing. */
  lemma AwaitedAnswers(s: State, ok: bool, now: nat)
    requires Wf(s) && s.queue != []
    ensures Answers(s, Progress.Awaited(s, ok, now))
  {
  }

  // ── Infinite runs, as far as the queue goes ────────────────────────────────

  type Trace = nat -> View

  ghost predicate TurnAt(t: Trace, k: nat) {
    ViewInTurn(t(k), t(k + 1))
  }

  ghost predicate AllInTurn(t: Trace) {
    forall k: nat :: TurnAt(t, k)
  }

  /** The step takes the head away or on. */
  predicate BroughtOn(t: Trace, k: nat) {
    ViewPops(t(k), t(k + 1)) || ViewLower(t(k), t(k + 1))
  }

  predicate Busy(t: Trace, k: nat) {
    t(k).queue != []
  }

  /** From every moment with a queue, sooner or later the head is brought on or leaves. */
  ghost predicate AlwaysBroughtOn(t: Trace) {
    forall k: nat :: Busy(t, k) ==> exists m: nat :: k <= m && BroughtOn(t, m)
  }

  /** How many operations have left the queue before step `k`. */
  function Ended(t: Trace, k: nat): nat {
    if k == 0 then 0 else Ended(t, k - 1) + if ViewPops(t(k - 1), t(k)) then 1 else 0
  }

  lemma {:induction false} EndedGrows(t: Trace, k: nat, m: nat)
    requires k <= m
    ensures Ended(t, k) <= Ended(t, m)
    decreases m
  {
    if k < m {
      EndedGrows(t, k, m - 1);
    }
  }

  /** The queue is what it was without the operations that ended, and with those that joined. */
  lemma {:induction false} QueueIsFifo(t: Trace, k: nat, m: nat)
    requires AllInTurn(t) && k <= m && Ended(t, m) <= Ended(t, k) + |t(k).queue|
    ensures Ended(t, k) <= Ended(t, m)
    ensures t(k).queue[Ended(t, m) - Ended(t, k)..] <= t(m).queue
    decreases m
  {
    EndedGrows(t, k, m);
    if k < m {
      EndedGrows(t, m - 1, m);
      EndedGrows(t, k, m - 1);
      QueueIsFifo(t, k, m - 1);
      assert TurnAt(t, m - 1);
    }
  }

  /** As long as the head stays, it is never set back. */
  lemma {:induction false} HeadOnlyAdvances(t: Trace, k: nat, m: nat)
    requires AllInTurn(t) && k <= m && t(k).queue != [] && Ended(t, m) == Ended(t, k)
    ensures t(k).queue <= t(m).queue && ViewNoHigher(t(k), t(m))
    decreases m
  {
    if k < m {
      EndedGrows(t, k, m - 1);
      HeadOnlyAdvances(t, k, m - 1);
      assert TurnAt(t, m - 1);
    }
  }

  /** The moment right after the next operation ended. */
  lemma {:induction false} FirstEnd(t: Trace, k: nat, m: nat) returns (b: nat)
    requires k <= m && Ended(t, k) < Ended(t, m)
    ensures k < b <= m && Ended(t, b) == Ended(t, k) + 1
    decreases m
  {
    EndedGrows(t, k, m - 1);
    if Ended(t, m - 1) == Ended(t, k) {
      b := m;
    } else {
      b := FirstEnd(t, k, m - 1);
    }
  }

  /** The measure: the place in the queue, the head's stage, what the head is still owed. */
  lemma {:induction false} OperationEnds(t: Trace, k: nat, i: nat) returns (m: nat)
    requires AllInTurn(t) && AlwaysBroughtOn(t) && i < |t(k).queue|
    ensures k <= m && Ended(t, m) == Ended(t, k) + i + 1
    decreases i, t(k).stage, t(k).owed
  {
    assert Busy(t, k);
    var a: nat :| k <= a && BroughtOn(t, a);
    EndedGrows(t, k, a);
    EndedGrows(t, a, a + 1);
    if Ended(t, a + 1) == Ended(t, k) {
      HeadOnlyAdvances(t, k, a);
      HeadOnlyAdvances(t, k, a + 1);
      m := OperationEnds(t, a + 1, i);
    } else {
      m := FirstEnd(t, k, a + 1);
      if i > 0 {
        QueueIsFifo(t, k, m);
        m := OperationEnds(t, m, i - 1);
      }
    }
  }

  // ── Infinite runs of a node ────────────────────────────────────────────────

  type Schedule = nat -> Event

  function At(s: State, f: Schedule, k: nat): (r: State)
    requires Wf(s)
    ensures Wf(r)
  {
    if k == 0 then s else Step(At(s, f, k - 1), f(k - 1))
  }

  function TraceOf(s: State, f: Schedule): Trace
    requires Wf(s)
  {
    (k: nat) => ViewOf(At(s, f, k))
  }

  predicate Queued(s: State, f: Schedule, k: nat)
    requires Wf(s)
  {
    At(s, f, k).queue != []
  }

  predicate AnswerAt(s: State, f: Schedule, k: nat)
    requires Wf(s)
  {
    Answers(At(s, f, k), f(k))
  }

  /** Whenever an operation is queued, some answer its head waits for comes sooner or later. */
  ghost predicate Fair(s: State, f: Schedule)
    requires Wf(s)
  {
    forall k: nat :: Queued(s, f, k) ==> exists m: nat :: k <= m && AnswerAt(s, f, m)
  }

  lemma StepView(s: State, e: Event)
    requires Wf(s)
    ensures InTurn(s, Step(s, e)) && (Answers(s, e) ==> Pops(s, e) || Lower(s, Step(s, e)))
  {
    StepIsInTurn(s, e);
    if Answers(s, e) {
      AnswersBringOn(s, e);
    }
  }

  lemma RunView(s: State, f: Schedule, k: nat)
    requires Wf(s)
    ensures var t := TraceOf(s, f);
            TurnAt(t, k) && (AnswerAt(s, f, k) ==> BroughtOn(t, k))
  {
    StepView(At(s, f, k), f(k));
  }

  lemma FairIsBroughtOn(s: State, f: Schedule)
    requires Wf(s) && Fair(s, f)
    ensures AllInTurn(TraceOf(s, f)) && AlwaysBroughtOn(TraceOf(s, f))
  {
    var t := TraceOf(s, f);
    forall k: nat ensures TurnAt(t, k) {
      RunView(s, f, k);
    }
    forall k: nat | Busy(t, k) ensures exists m: nat :: k <= m && BroughtOn(t, m) {
      assert Queued(s, f, k);
      var m: nat :| k <= m && AnswerAt(s, f, m);
      RunView(s, f, m);
    }
  }

  /**
   In every fair run, with any edits, submissions, timers and clean-ups in between and whatever
   the stores answer: the operation queued at any place leaves the queue, after those before it.
   */
  lemma EveryQueuedOperationEnds(s: State, f: Schedule, k: nat, i: nat) returns (m: nat)
    requires Wf(s) && Fair(s, f) && i < |At(s, f, k).queue|
    ensures k <= m && Ended(TraceOf(s, f), m) == Ended(TraceOf(s, f), k) + i + 1
    ensures At(s, f, k).queue[i + 1..] <= At(s, f, m).queue
  {
    var t := TraceOf(s, f);
    FairIsBroughtOn(s, f);
    m := OperationEnds(t, k, i);
    QueueIsFifo(t, k, m);
  }

  // ── There are such runs ────────────────────────────────────────────────────

  /** The head is answered at once, or somebody asks for a flush. */
  function Prompt(s: State): Event
    requires Wf(s)
  {
    if s.queue == [] then SubmitFlush else Progress.Awaited(s, true, 0)
  }

  function Played(s: State, k: nat): (r: State)
    requires Wf(s)
    ensures Wf(r)
  {
    if k == 0 then s else Step(Played(s, k - 1), Prompt(Played(s, k - 1)))
  }

  predicate Plays(s: State, f: Schedule, k: nat)
    requires Wf(s)
  {
    f(k) == Prompt(Played(s, k))
  }

  lemma PlaysOn(s: State, f: Schedule, k: nat, x: State)
    requires Wf(s) && Plays(s, f, k) && x == At(s, f, k) == Played(s, k)
    ensures At(s, f, k + 1) == Played(s, k + 1)
  {
    var e := f(k);
    assert e == Prompt(x);
    assert At(s, f, k + 1) == Step(x, e);
    assert Played(s, k + 1) == Step(x, e);
  }

  lemma {:induction false} PlayedIsRun(s: State, f: Schedule, k: nat)
    requires Wf(s) && forall j: nat :: Plays(s, f, j)
    ensures At(s, f, k) == Played(s, k)
  {
    if k > 0 {
      PlayedIsRun(s, f, k - 1);
      PlaysOn(s, f, k - 1, Played(s, k - 1));
    }
  }

  /** From every state a fair run starts. */
  lemma FairRunsExist(s: State) returns (f: Schedule)
    requires Wf(s)
    ensures Fair(s, f)
  {
    f := (k: nat) => Prompt(Played(s, k));
    assert forall j: nat :: Plays(s, f, j);
    forall k: nat | Queued(s, f, k) ensures AnswerAt(s, f, k) {
      PlayedIsRun(s, f, k);
      AwaitedAnswers(Played(s, k), true, 0);
    }
  }
}
