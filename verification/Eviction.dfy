/** Dropping an idle document loses nothing that was written into it. */
module Eviction {
  import opened Wrappers
  import opened YDocs
  import opened ManagedDocs
  import opened NodeMachine
  import opened NodeFrames
  import opened SaveChain
  import opened Agreement

  /**
   Saves succeed, edits come from attached sockets or appends, nobody deletes the node, and an
   eviction timer fires only when the node's queue is empty.
   */
  ghost predicate Benign(s: State, e: Event)
    requires Wf(s)
  {
    match e
    case RedisReply(ok) => ok
    case DbMissing(_) => false
    case DbError(_) => false
    case AttachmentsSynced(_, ok) => ok
    case Cleanup => false
    case Sync(socket, _, _, _) => s.cur.Some? ==> socket in s.insts[s.cur.value].clients
    case TimerFired(t) => t in s.timers && s.timers[t].Idle? ==> s.queue == []
    case _ => true
  }

  ghost predicate BenignRun(s: State, es: seq<Event>)
    requires Wf(s)
    decreases |es|
  {
    es == [] || (Benign(s, es[0]) && BenignRun(Step(s, es[0]), es[1..]))
  }

  /** Some queued task has yet to take its snapshot. */
  predicate SnapshotDue(s: State) {
    |s.queue| > 1 || (|s.queue| == 1 && (s.pc.Waiting? || s.pc.Loading?))
  }

  /** What the running flush is about to write is everything the document holds. */
  ghost predicate BeingSaved(s: State, doc: YDoc)
    requires Wf(s)
  {
    s.pc.Saving? && SameStructs(s.writes[s.pc.write].state, doc)
  }

  ghost predicate InRow(s: State, doc: YDoc)
    requires Wf(s)
  {
    && s.row.Some? && SameStructs(s.row.value.state, doc)
    && (s.pc.Saving? ==> !s.writes[s.pc.write].phase.Opened?)
  }

  /** A document without clients is saved, about to be, or just as it was loaded. */
  ghost predicate Covered(s: State)
    requires Wf(s)
  {
    && (s.pc.Refreshing? || s.pc.Saving? || s.pc.Embedding? ==> s.cur == Some(s.pc.inst))
    && (s.cur.Some? && s.insts[s.cur.value].clients == {} ==>
          var doc := s.insts[s.cur.value].doc;
          SnapshotDue(s) || SameStructs(doc, s.base[s.cur.value]) || BeingSaved(s, doc) || InRow(s, doc))
  }

  lemma FlushCovers(s: State, h: History)
    requires Agrees(s, h) && s.queue != [] && !s.pc.Saving?
    ensures Covered(Flush(s))
  {
    if s.cur.Some? {
      if NothingToSave(s.insts[s.cur.value]) {
        SkipIsCurrent(s, h);
      }
    } else {
      EndIsQuiet(s, Persisted(0, 0), false);
    }
  }

  lemma TextKeepsAgrees(s: State, h: History)
    requires Agrees(s, h) && s.queue != [] && s.queue[0].AppendTask? && s.cur.Some? && !s.pc.Saving?
    ensures Agrees(WithText(s), h)
  {
    TextKeepsSound(s, h);
    TextKeepsRow(s, h);
  }

  lemma BeginCovers(s: State, h: History)
    requires Agrees(s, h) && Covered(s) && s.queue != [] && s.pc.Waiting?
    ensures Covered(BeginTask(s))
  {
    if s.queue[0].FlushTask? {
      FlushCovers(s, h);
    } else if s.cur.Some? {
      ReviveIsLight(s);
      LightKeepsSound(s, Revive(s), h);
      LightKeepsRow(s, Revive(s));
      TextKeepsAgrees(Revive(s), h);
      FlushCovers(WithText(Revive(s)), h);
    }
  }

  lemma LoadedCovers(s: State, doc: YDoc, ws: string, h: History)
    requires Agrees(s, h) && Covered(s) && ValidIn(doc, h) && s.cur.None?
    ensures Covered(Step(s, Loaded(doc, ws)))
  {
    if s.pc.Loading? {
      var s1 := s.(pc := Waiting);
      QuietKeepsSound(s, s1, h);
      InsertKeepsSound(s1, doc, ws, h);
      InsertKeepsRow(s1, doc, ws);
      TextKeepsAgrees(Insert(s1, doc, ws), h);
      FlushCovers(WithText(Insert(s1, doc, ws)), h);
    }
  }

  /** A task that ends leaves the next one's snapshot due, or the row as good as it was. */
  lemma EndCovers(s: State, result: Persisted)
    requires Wf(s) && Covered(s) && s.queue != [] && !s.pc.Saving? && !s.pc.Loading? && !s.pc.Waiting?
    ensures Covered(Succeed(s, result))
  {
  }

  lemma ReplyCovers(s: State)
    requires Wf(s) && Covered(s) && s.redisSent != []
    ensures Covered(Reply(s, true))
  {
    if s.pc.Refreshing? {
      EndCovers(s, s.pc.result);
    }
  }

  lemma FinishCovers(s: State, h: History)
    requires Agrees(s, h) && Covered(s) && BothDone(s)
    ensures Covered(Conclude(WithResult(s)))
  {
    var s1 := WithResult(s);
    assert s1.row == s.row && s1.queue == s.queue;
    if !EmbedDue(s1.insts[s.pc.inst]) {
      var r := Succeed(s1, s.writes[s.pc.write].phase.result);
      assert r.insts == s1.insts && r.row == s.row && r.cur == s.cur && r.base == s.base;
    }
  }

  lemma CommitCovers(s: State, w: nat, now: nat)
    requires Wf(s) && Covered(s) && OnlyOwnWrite(s)
    requires w < |s.writes| && s.row.Some? && s.writes[w].phase.Opened?
    ensures Covered(CommitRow(s, w, now))
  {
  }

  lemma ClientsCover(s: State, e: Event)
    requires Wf(s) && Covered(s) && Benign(s, e)
    requires e.Join? || e.Leave? || e.Sync? || e.TimerFired?
    ensures Covered(Step(s, e))
  {
  }

  lemma StepCovers(s: State, e: Event, h: History)
    requires Agrees(s, h) && Covered(s) && EventIn(e, h) && Benign(s, e)
    ensures Covered(Step(s, e))
  {
    if e.Join? || e.Leave? || e.Sync? || e.TimerFired? {
      ClientsCover(s, e);
    } else {
      match e
      case Loaded(doc, ws) => if s.cur.None? { LoadedCovers(s, doc, ws, h); }
      case Begin => if s.queue != [] && s.pc.Waiting? { BeginCovers(s, h); }
      case RedisReply(ok) => if s.redisSent != [] { ReplyCovers(s); }
      case DbCommit(w, now) =>
        if w < |s.writes| && s.writes[w].phase.Opened? && s.row.Some? { CommitCovers(s, w, now); }
      case Finish => if BothDone(s) { FinishCovers(s, h); }
      case EmbedDone => if s.pc.Embedding? { EndCovers(s, s.pc.result); }
      case _ =>
    }
  }

  lemma {:induction false} RunCovers(s: State, es: seq<Event>, h: History)
    requires Agrees(s, h) && Covered(s) && RunIn(es, h) && BenignRun(s, es)
    ensures Agrees(Run(s, es), h) && Covered(Run(s, es))
    decreases |es|
  {
    if es != [] {
      StepKeepsAgrees(s, es[0], h);
      StepCovers(s, es[0], h);
      RunCovers(Step(s, es[0]), es[1..], h);
    }
  }

  /** The step drops the loaded document. */
  predicate Evicts(s: State, e: Event)
    requires Wf(s)
  {
    s.cur.Some? && Step(s, e).cur.None?
  }

  /** Every struct the loaded document gained since it was loaded is in the row. */
  ghost predicate NothingLost(s: State)
    requires Wf(s) && s.cur.Some?
  {
    forall c, k: nat ::
      Holds(s.insts[s.cur.value].doc, c, k) && !Holds(s.base[s.cur.value], c, k) ==>
        s.row.Some? && Holds(s.row.value.state, c, k)
  }

  /** Eviction loses nothing, in any benign run, also when the last flush skipped the database. */
  lemma EvictionLosesNothing(row: Option<Row>, redis: Option<YDoc>, es: seq<Event>, e: Event, h: History)
    requires row.Some? ==> ValidIn(row.value.state, h)
    requires RunIn(es, h) && BenignRun(Init(row, redis), es)
    requires Benign(Run(Init(row, redis), es), e) && Evicts(Run(Init(row, redis), es), e)
    ensures NothingLost(Run(Init(row, redis), es))
  {
    InitIsSound(row, redis, h);
    RunCovers(Init(row, redis), es, h);
    OnlyIdleTimersEvict(Run(Init(row, redis), es), e);
  }

  lemma OnlyIdleTimersEvict(s: State, e: Event)
    requires Wf(s) && Benign(s, e) && Evicts(s, e)
    ensures e.TimerFired? && s.queue == [] && s.insts[s.cur.value].clients == {}
  {
    if IsQuiet(e) {
      if e.RedisReply? { ReplyKeepsCur(s, e.ok); }
    }
  }

  lemma ReplyKeepsCur(s: State, ok: bool)
    requires Wf(s) && s.redisSent != []
    ensures Reply(s, ok).cur == s.cur
  {
  }
}
