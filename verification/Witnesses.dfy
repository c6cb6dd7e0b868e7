/** Runs that show why the conditions of the saving theorems are there. */
module Witnesses {
  import opened Wrappers
  import opened YDocs
  import opened ManagedDocs
  import opened NodeMachine
  import opened Eviction

  ghost predicate Leads(s: State, t: State)
    requires Wf(s)
  {
    exists es :: Run(s, es) == t
  }

  lemma {:induction false} RunThenStep(s: State, es: seq<Event>, e: Event)
    requires Wf(s)
    ensures Run(s, es + [e]) == Step(Run(s, es), e)
    decreases |es|
  {
    if es == [] {
      assert es + [e] == [e];
    } else {
      assert (es + [e])[1..] == es[1..] + [e];
      RunThenStep(Step(s, es[0]), es[1..], e);
    }
  }

  lemma LeadsOn(s: State, t: State, e: Event)
    requires Wf(s) && Wf(t) && Leads(s, t)
    ensures Leads(s, Step(t, e))
  {
    var es :| Run(s, es) == t;
    RunThenStep(s, es, e);
  }

  /** One more step of a run. */
  lemma Then(s: State, t: State, e: Event) returns (r: State)
    requires Wf(s) && Wf(t) && Leads(s, t)
    ensures Wf(r) && r == Step(t, e) && Leads(s, r)
  {
    r := Step(t, e);
    LeadsOn(s, t, e);
  }

  ghost predicate Resting(s: State) {
    Wf(s) && s.queue == [] && s.redisSent == [] && s.row.Some?
  }

  /** A flush starts and takes its snapshot. */
  lemma StartFlush(s0: State, s: State) returns (r: State)
    requires Wf(s0) && Resting(s) && Leads(s0, s) && s.cur.Some? && !NothingToSave(s.insts[s.cur.value])
    ensures Wf(r) && Leads(s0, r)
    ensures var i := s.cur.value;
            r == s.(queue := [FlushTask], timers := r.timers, insts := s.insts[i := s.insts[i].(saveTimer := None)],
                    redisSent := [SetState(s.insts[i].doc)],
                    writes := s.writes + [Write(i, s.insts[i].doc, Opened)],
                    pc := Saving(i, |s.writes|, Some(0)))
  {
    var s1 := Then(s0, s, SubmitFlush);
    r := Then(s0, s1, Begin);
  }

  /** Redis answers the running flush, which is the only one it owes an answer. */
  lemma RedisAnswers(s0: State, s: State, ok: bool) returns (r: State)
    requires Wf(s0) && Wf(s) && Leads(s0, s) && s.queue == [FlushTask]
    requires s.pc.Saving? && s.pc.reply == Some(0) && s.redisSent == [SetState(s.writes[s.pc.write].state)]
    ensures Wf(r) && Leads(s0, r)
    ensures ok ==> r == s.(redisSent := [], redis := Some(s.writes[s.pc.write].state), pc := s.pc.(reply := None))
    ensures !ok ==> r == s.(redisSent := [], queue := [], pc := Waiting, log := r.log)
  {
    r := Then(s0, s, RedisReply(ok));
  }

  lemma CommitStep(s: State, w: nat)
    requires Wf(s) && w < |s.writes| && s.writes[w].phase.Opened? && s.row.Some?
    ensures Step(s, DbCommit(w, 0)) == CommitRow(s, w, 0)
  {
  }

  lemma RowCommits(s0: State, s: State, w: nat) returns (r: State)
    requires Wf(s0) && Wf(s) && Leads(s0, s) && s.row.Some? && w < |s.writes| && s.writes[w].phase.Opened?
    ensures Wf(r) && Leads(s0, r)
    ensures var v := s.row.value.version + 1;
            r == s.(writes := s.writes[w := s.writes[w].(phase := Committed(Persisted(v, 0)))],
                    row := Some(Row(s.writes[w].state, v, 0)), log := r.log)
  {
    r := CommitRow(s, w, 0);
    CommitStep(s, w);
    LeadsOn(s0, s, DbCommit(w, 0));
  }

  lemma AttachmentsFollow(s0: State, s: State, w: nat) returns (r: State)
    requires Wf(s0) && Wf(s) && Leads(s0, s) && w < |s.writes| && s.writes[w].phase.Committed?
    ensures Wf(r) && Leads(s0, r)
    ensures r == s.(writes := s.writes[w := s.writes[w].(phase := Finished(s.writes[w].phase.result))])
  {
    r := Then(s0, s, AttachmentsSynced(w, true));
  }

  lemma EndFlush(s0: State, s: State) returns (r: State)
    requires Wf(s0) && Wf(s) && Leads(s0, s) && BothDone(s) && s.queue == [FlushTask]
    requires !s.insts[s.pc.inst].dirtyForEmbed
    ensures Wf(r) && Leads(s0, r)
    ensures var w := s.writes[s.pc.write];
            r == s.(queue := [], pc := Waiting, log := r.log,
                    insts := s.insts[s.pc.inst := Remembered(s.insts[s.pc.inst], Vector(w.state), w.phase.result)])
  {
    r := Then(s0, s, Finish);
  }

  /** A flush of which every part succeeds. */
  lemma FlushThrough(s0: State, s: State) returns (r: State)
    requires Wf(s0) && Resting(s) && Leads(s0, s) && s.cur.Some?
    requires !NothingToSave(s.insts[s.cur.value]) && !s.insts[s.cur.value].dirtyForEmbed
    ensures Resting(r) && Leads(s0, r) && r.cur == s.cur && |r.insts| == |s.insts| && r.base == s.base
    ensures var m := s.insts[s.cur.value];
            && r.insts[s.cur.value] ==
                 Remembered(m.(saveTimer := None), Vector(m.doc), Persisted(s.row.value.version + 1, 0))
            && r.row == Some(Row(m.doc, s.row.value.version + 1, 0))
            && r.redis == Some(m.doc)
    ensures |r.writes| == |s.writes| + 1 && forall w :: 0 <= w < |s.writes| ==> r.writes[w] == s.writes[w]
  {
    var s1 := StartFlush(s0, s);
    var s2 := RedisAnswers(s0, s1, true);
    var s3 := RowCommits(s0, s2, |s.writes|);
    var s4 := AttachmentsFollow(s0, s3, |s.writes|);
    r := EndFlush(s0, s4);
  }

  const LETTER_A := YDoc(map[1 := [Struct("a")]], {})
  const BOTH_LETTERS := YDoc(map[1 := [Struct("a"), Struct("b")]], {})
  const START := Init(Some(Row(EMPTY_DOC, 0, 0)), None)

  lemma Open(doc: YDoc) returns (s: State)
    ensures Wf(s) && Leads(START, s) && s == Insert(START, doc, "ws")
  {
    assert Run(START, []) == START;
    s := Then(START, START, Loaded(doc, "ws"));
  }

  /** An unscheduled update reaches the loaded document. */
  lemma Receive(s0: State, s: State, update: YDoc) returns (r: State)
    requires Wf(s0) && Resting(s) && Leads(s0, s) && s.cur.Some?
    ensures Resting(r) && Leads(s0, r)
    ensures r == s.(insts := s.insts[s.cur.value := s.insts[s.cur.value].(doc := Merge(s.insts[s.cur.value].doc, update))])
  {
    r := Then(s0, s, Sync("socket", update, false, None));
  }

  /**
   A Redis write fails while its flush's database write is still under way.  A later flush saves
   newer text; then the older write commits.  The document believes it is saved, the row has
   lost a struct, and every further flush skips the database.
   */
  lemma AbandonedWriteUndoesNewerSave() returns (s: State)
    ensures Wf(s) && Leads(START, s) && s.cur == Some(0) && s.row.Some?
    ensures NothingToSave(s.insts[0]) && Holds(s.insts[0].doc, 1, 1) && !Holds(s.row.value.state, 1, 1)
  {
    var s1 := Open(LETTER_A);
    var s2 := StartFlush(START, s1);
    var s3 := RedisAnswers(START, s2, false);
    var s4 := Receive(START, s3, BOTH_LETTERS);
    var s5 := FlushThrough(START, s4);
    s := RowCommits(START, s5, 0);
  }

  // ── An eviction timer that nobody remembers ────────────────────────────────

  ghost predicate LeadsBenignly(s: State, t: State)
    requires Wf(s)
  {
    exists es :: Run(s, es) == t && BenignRun(s, es)
  }

  lemma {:induction false} BenignThenStep(s: State, es: seq<Event>, e: Event)
    requires Wf(s) && BenignRun(s, es) && Benign(Run(s, es), e)
    ensures BenignRun(s, es + [e])
    decreases |es|
  {
    if es == [] {
      assert es + [e] == [e];
    } else {
      assert (es + [e])[1..] == es[1..] + [e];
      BenignThenStep(Step(s, es[0]), es[1..], e);
    }
  }

  lemma BenignlyOn(s: State, t: State, e: Event, r: State)
    requires Wf(s) && Wf(t) && LeadsBenignly(s, t) && Benign(t, e) && r == Step(t, e)
    ensures LeadsBenignly(s, r)
  {
    var es :| Run(s, es) == t && BenignRun(s, es);
    RunThenStep(s, es, e);
    BenignThenStep(s, es, e);
  }

  /**
   The loaded document of the following run: its record, the queued flushes, and the timers
   armed.  `sent` says that the first flush has sent the empty document to both stores.
   */
  function Scene(sent: bool, clients: set<string>, doc: YDoc, idle: Option<nat>, flushes: nat, timers: set<nat>, next: nat)
    : (s: State)
    requires sent ==> flushes > 0
    ensures Wf(s)
  {
    var s := START.(cur := Some(0), base := [EMPTY_DOC],
                    insts := [Fresh(doc, "ws").(clients := clients, idleTimer := idle)],
                    queue := seq(flushes, _ => FlushTask), timers := map t | t in timers :: Idle, nextTimer := next);
    if sent then
      s.(pc := Saving(0, 0, Some(0)), redisSent := [SetState(EMPTY_DOC)], writes := [Write(0, EMPTY_DOC, Opened)])
    else s
  }

  /** The client joins, which stops the timer that the record knows of. */
  lemma JoinsScene(sent: bool, doc: YDoc, idle: Option<nat>, flushes: nat, timers: set<nat>, next: nat, left: set<nat>)
    requires sent ==> flushes > 0
    requires left == if idle.Some? then timers - {idle.value} else timers
    ensures Step(Scene(sent, {}, doc, idle, flushes, timers, next), Join("k")) ==
            Scene(sent, {"k"}, doc, None, flushes, left, next)
  {
    assert {} + {"k"} == {"k"};
    assert (map t | t in left :: Idle) == Disarm(map t | t in timers :: Idle, idle);
  }

  /** A leave, of the only client or of nobody, queues a flush and arms one more timer. */
  lemma LeavesScene(sent: bool, clients: set<string>, doc: YDoc, idle: Option<nat>, flushes: nat, timers: set<nat>,
                    next: nat, more: set<nat>)
    requires (sent ==> flushes > 0) && clients <= {"k"} && more == timers + {next}
    ensures Step(Scene(sent, clients, doc, idle, flushes, timers, next), Leave("k")) ==
            Scene(sent, {}, doc, Some(next), flushes + 1, more, next + 1)
  {
    assert clients - {"k"} == {};
    assert (map t | t in more :: Idle) == (map t | t in timers :: Idle)[next := Idle];
    assert seq(flushes, _ => FlushTask) + [FlushTask] == seq(flushes + 1, _ => FlushTask);
  }

  lemma FlushStarts(idle: Option<nat>, timers: set<nat>, next: nat)
    ensures Step(Scene(false, {}, EMPTY_DOC, idle, 1, timers, next), Begin) ==
            Scene(true, {}, EMPTY_DOC, idle, 1, timers, next)
  {
  }

  lemma LoadsScene()
    ensures Step(START, Loaded(EMPTY_DOC, "ws")) == Scene(false, {}, EMPTY_DOC, None, 0, {}, 0)
    ensures LeadsBenignly(START, Scene(false, {}, EMPTY_DOC, None, 0, {}, 0))
  {
    assert Run(START, []) == START;
    BenignlyOn(START, START, Loaded(EMPTY_DOC, "ws"), Scene(false, {}, EMPTY_DOC, None, 0, {}, 0));
  }

  /** A client comes and goes. */
  lemma LeavesOnce() returns (s: State)
    ensures s == Scene(false, {}, EMPTY_DOC, Some(0), 1, {0}, 1) && LeadsBenignly(START, s)
  {
    LoadsScene();
    var s1 := Scene(false, {}, EMPTY_DOC, None, 0, {}, 0);
    var s2 := Scene(false, {"k"}, EMPTY_DOC, None, 0, {}, 0);
    JoinsScene(false, EMPTY_DOC, None, 0, {}, 0, {});
    BenignlyOn(START, s1, Join("k"), s2);
    s := Scene(false, {}, EMPTY_DOC, Some(0), 1, {0}, 1);
    LeavesScene(false, {"k"}, EMPTY_DOC, None, 0, {}, 0, {0});
    BenignlyOn(START, s2, Leave("k"), s);
  }

  /** Its leave is delivered twice: two timers, of which the record knows the second. */
  lemma LeavesTwice() returns (s: State)
    ensures s == Scene(true, {}, EMPTY_DOC, Some(1), 2, {0, 1}, 2) && LeadsBenignly(START, s)
  {
    var s3 := LeavesOnce();
    var s4 := Scene(true, {}, EMPTY_DOC, Some(0), 1, {0}, 1);
    FlushStarts(Some(0), {0}, 1);
    BenignlyOn(START, s3, Begin, s4);
    s := Scene(true, {}, EMPTY_DOC, Some(1), 2, {0, 1}, 2);
    LeavesScene(true, {}, EMPTY_DOC, Some(0), 1, {0}, 1, {0, 1});
    BenignlyOn(START, s4, Leave("k"), s);
  }

  lemma Writes()
    ensures Step(Scene(true, {"k"}, EMPTY_DOC, None, 2, {0}, 2), Sync("k", LETTER_A, false, None)) ==
            Scene(true, {"k"}, LETTER_A, None, 2, {0}, 2)
  {
    assert Merge(EMPTY_DOC, LETTER_A) == LETTER_A;
  }

  /** The client comes back, writes, and leaves for good, while the first flush is still saving. */
  lemma WritesMeanwhile() returns (s: State)
    ensures s == Scene(true, {}, LETTER_A, Some(2), 3, {0, 2}, 3) && LeadsBenignly(START, s)
  {
    var s5 := LeavesTwice();
    var s6 := Scene(true, {"k"}, EMPTY_DOC, None, 2, {0}, 2);
    JoinsScene(true, EMPTY_DOC, Some(1), 2, {0, 1}, 2, {0});
    BenignlyOn(START, s5, Join("k"), s6);
    var s7 := Scene(true, {"k"}, LETTER_A, None, 2, {0}, 2);
    Writes();
    BenignlyOn(START, s6, Sync("k", LETTER_A, false, None), s7);
    s := Scene(true, {}, LETTER_A, Some(2), 3, {0, 2}, 3);
    LeavesScene(true, {"k"}, LETTER_A, None, 2, {0}, 2, {0, 2});
    BenignlyOn(START, s7, Leave("k"), s);
  }

  lemma RedisTakesEmpty(s0: State, s: State) returns (r: State)
    requires Wf(s0) && Wf(s) && LeadsBenignly(s0, s)
    requires s.pc == Saving(0, 0, Some(0)) && s.redisSent == [SetState(EMPTY_DOC)]
    ensures Wf(r) && LeadsBenignly(s0, r)
    ensures r == s.(pc := Saving(0, 0, None), redisSent := [], redis := Some(EMPTY_DOC))
  {
    r := Reply(s, true);
    assert r == Step(s, RedisReply(true));
    BenignlyOn(s0, s, RedisReply(true), r);
  }

  lemma RowTakesEmpty(s0: State, s: State) returns (r: State)
    requires Wf(s0) && Wf(s) && LeadsBenignly(s0, s) && s.row.Some? && s.writes == [Write(0, EMPTY_DOC, Opened)]
    ensures Wf(r) && LeadsBenignly(s0, r)
    ensures var v := s.row.value.version + 1;
            r == s.(writes := [Write(0, EMPTY_DOC, Committed(Persisted(v, 0)))], row := Some(Row(EMPTY_DOC, v, 0)), log := r.log)
  {
    r := CommitRow(s, 0, 0);
    CommitStep(s, 0);
    BenignlyOn(s0, s, DbCommit(0, 0), r);
  }

  lemma AttachmentsTakeEmpty(s0: State, s: State) returns (r: State)
    requires Wf(s0) && Wf(s) && LeadsBenignly(s0, s) && |s.writes| == 1 && s.writes[0].phase.Committed?
    ensures Wf(r) && LeadsBenignly(s0, r)
    ensures r == s.(writes := [s.writes[0].(phase := Finished(s.writes[0].phase.result))])
  {
    r := Step(s, AttachmentsSynced(0, true));
    BenignlyOn(s0, s, AttachmentsSynced(0, true), r);
  }

  /** The stores answer the running flush of the empty document; its record has been dropped. */
  lemma SaveComesThrough(s0: State, s: State) returns (r: State)
    requires Wf(s0) && Wf(s) && LeadsBenignly(s0, s) && s.cur.None? && s.queue != [] && s.row.Some?
    requires s.pc == Saving(0, 0, Some(0)) && s.redisSent == [SetState(EMPTY_DOC)] && s.writes == [Write(0, EMPTY_DOC, Opened)]
    ensures Wf(r) && LeadsBenignly(s0, r) && BothDone(r) && r.cur.None? && r.queue == s.queue && r.insts == s.insts
    ensures r.redisSent == [] && r.redis == Some(EMPTY_DOC) && r.row.Some? && r.row.value.state == EMPTY_DOC
    ensures r.pc == Saving(0, 0, None)
  {
    var r1 := RedisTakesEmpty(s0, s);
    var r2 := RowTakesEmpty(s0, r1);
    r := AttachmentsTakeEmpty(s0, r2);
  }

  lemma SaveReturns(s0: State, s: State) returns (r: State)
    requires Wf(s0) && Wf(s) && LeadsBenignly(s0, s) && BothDone(s) && s.queue != [] && s.queue[0].FlushTask?
    requires !s.insts[s.pc.inst].dirtyForEmbed
    ensures Wf(r) && LeadsBenignly(s0, r) && r.cur == s.cur && r.queue == s.queue[1..] && r.pc.Waiting?
    ensures r.redisSent == s.redisSent && r.redis == s.redis && r.row == s.row
  {
    r := Conclude(WithResult(s));
    assert r == Step(s, Finish);
    BenignlyOn(s0, s, Finish, r);
  }

  /** A flush of a document that is not loaded fails. */
  lemma FlushFindsNothing(s0: State, s: State) returns (r: State)
    requires Wf(s0) && Wf(s) && LeadsBenignly(s0, s) && s.cur.None? && s.pc.Waiting?
    requires s.queue != [] && s.queue[0].FlushTask?
    ensures Wf(r) && LeadsBenignly(s0, r) && r.cur.None? && r.queue == s.queue[1..] && r.pc.Waiting?
    ensures r.redisSent == s.redisSent && r.redis == s.redis && r.row == s.row
  {
    r := Fail(s, false);
    assert r == Step(s, Begin);
    BenignlyOn(s0, s, Begin, r);
  }

  lemma TimerDropsIt(s: State) returns (r: State)
    requires s == Scene(true, {}, LETTER_A, Some(2), 3, {0, 2}, 3)
    ensures r == Step(s, TimerFired(0)) && Wf(r)
    ensures r == Logged(Drop(s.(timers := s.timers - {0})), Evicted(0))
  {
    r := Step(s, TimerFired(0));
  }

  /**
   An eviction timer that its record has forgotten fires while a flush is still queued.  Up to
   there and afterwards the run is benign and every save succeeds; only the timer finds a queue
   that is not empty.  The text of an attached client ends up in neither store.
   */
  lemma EarlyEvictionLosesText() returns (s: State, t: nat, r: State)
    ensures Wf(s) && LeadsBenignly(START, s) && s.cur == Some(0)
    ensures Holds(s.insts[0].doc, 1, 0) && !Holds(s.base[0], 1, 0)
    ensures t in s.timers && s.timers[t].Idle? && s.queue != [] && !s.pc.Waiting?
    ensures Evicts(s, TimerFired(t)) && LeadsBenignly(Step(s, TimerFired(t)), r)
    ensures r.queue == [] && r.redisSent == [] && r.row.Some? && r.redis.Some?
    ensures !Holds(r.row.value.state, 1, 0) && !Holds(r.redis.value, 1, 0)
  {
    s := WritesMeanwhile();
    t := 0;
    var s1 := TimerDropsIt(s);
    assert Run(s1, []) == s1;
    var r1 := SaveComesThrough(s1, s1);
    var r2 := SaveReturns(s1, r1);
    var r3 := FlushFindsNothing(s1, r2);
    r := FlushFindsNothing(s1, r3);
  }

  /** A flush that finds nothing to save sends the whole state to Redis. */
  lemma StartSkip(s0: State, s: State) returns (r: State)
    requires Wf(s0) && Resting(s) && Leads(s0, s) && s.cur.Some? && NothingToSave(s.insts[s.cur.value])
    ensures Wf(r) && Leads(s0, r)
    ensures var i := s.cur.value;
            r == s.(queue := [FlushTask], timers := r.timers, insts := r.insts,
                    redisSent := [SetState(s.insts[i].doc)],
                    pc := Refreshing(i, s.insts[i].lastPersisted.value, 0))
    ensures |r.insts| == |s.insts| && r.insts[s.cur.value].doc == s.insts[s.cur.value].doc
  {
    var s1 := Then(s0, s, SubmitFlush);
    r := Then(s0, s1, Begin);
  }

  lemma EndSkip(s0: State, s: State) returns (r: State)
    requires Wf(s0) && Wf(s) && Leads(s0, s) && |s.queue| == 1 && |s.redisSent| == 1 && s.redisSent[0].SetState?
    requires s.pc.Refreshing? && s.pc.ahead == 0
    ensures Wf(r) && Leads(s0, r)
    ensures r == s.(queue := [], pc := Waiting, redisSent := [], redis := Some(s.redisSent[0].state), log := r.log)
    ensures s.queue[0].AppendTask? ==> AppendOk(s.queue[0].seen, s.applied, s.pc.result, s.added) in r.log
  {
    r := Then(s0, s, RedisReply(true));
    if s.queue[0].AppendTask? {
      assert r.log[|s.log|] == AppendOk(s.queue[0].seen, s.applied, s.pc.result, s.added);
    }
  }

  /** A delete-only edit after a save: the next flush skips, so Redis learns of the deletion and the row does not. */
  lemma DeletionReachesRedisOnly() returns (s: State)
    ensures Wf(s) && Leads(START, s) && s.queue == [] && s.cur == Some(0) && s.row.Some?
    ensures (1, 0) in s.insts[0].doc.deletes && (1, 0) !in s.row.value.state.deletes
    ensures s.redis == Some(s.insts[0].doc)
  {
    var s1 := Open(LETTER_A);
    var s2 := FlushThrough(START, s1);
    DeletionInvisible(LETTER_A, {(1, 0)});
    var s3 := Receive(START, s2, YDoc(map[], {(1, 0)}));
    var s4 := StartSkip(START, s3);
    s := EndSkip(START, s4);
  }

  /** An append that brings nothing, up to its flush, leaves a saved document with nothing to save. */
  lemma AppendedNothing(s: State)
    requires Wf(s) && s.queue != [] && s.queue[0].AppendTask? && s.queue[0].update == EMPTY_DOC
    requires s.pc.Waiting? && s.cur.Some? && NothingToSave(s.insts[s.cur.value])
    ensures var r := WithText(Revive(s));
            && Wf(r) && r.cur == s.cur && r.queue == s.queue && r.redisSent == s.redisSent && !r.added && r.applied == Version(s) && r.pc == Waiting
            && NothingToSave(r.insts[r.cur.value])
            && r.insts[r.cur.value].lastPersisted == s.insts[s.cur.value].lastPersisted
  {
  }

  /** An append of an update the document already holds, right after a save. */
  lemma AppendNothing(s0: State, s: State, user: string, seen: nat) returns (r: State)
    requires Wf(s0) && Resting(s) && Leads(s0, s) && s.cur.Some? && NothingToSave(s.insts[s.cur.value])
    requires seen <= s.row.value.version
    ensures Wf(r) && Leads(s0, r) && !r.added && r.applied == s.row.value.version
    ensures r.queue == [AppendTask(EMPTY_DOC, user, seen)] && |r.redisSent| == 1 && r.redisSent[0].SetState?
    ensures r.pc == Refreshing(s.cur.value, s.insts[s.cur.value].lastPersisted.value, 0)
  {
    var s1 := Then(s0, s, SubmitAppend(EMPTY_DOC, user, seen));
    AppendedNothing(s1);
    r := Flush(WithText(Revive(s1)));
    assert r == BeginTask(s1) == Step(s1, Begin);
    LeadsOn(s0, s1, Begin);
  }

  /** An append that adds no struct may report the very version its caller had read. */
  lemma EmptyAppendKeepsVersion() returns (s: State)
    ensures Wf(s) && Leads(START, s) && AppendOk(1, 1, Persisted(1, 0), false) in s.log
  {
    var s1 := Open(LETTER_A);
    var s2 := FlushThrough(START, s1);
    assert NothingToSave(s2.insts[0]) && s2.insts[0].lastPersisted == Some(Persisted(1, 0));
    var s3 := AppendNothing(START, s2, "user", 1);
    assert s3.queue[0].seen == 1 && s3.pc.result == Persisted(1, 0);
    s := EndSkip(START, s3);
  }
}
