/** A document survives being dropped and loaded again: nothing it ever held is missing later. */
module Durability {
  import opened Wrappers
  import opened YDocs
  import opened ManagedDocs
  import opened NodeMachine
  import opened NodeFrames
  import opened SaveChain
  import opened Agreement
  import opened Eviction

  /** What `loadDoc` reads: the Redis cell, else the row, else nothing. */
  function Source(s: State): YDoc {
    if s.redis.Some? then s.redis.value else if s.row.Some? then s.row.value.state else EMPTY_DOC
  }

  /** What it will read once the Redis command under way has been answered. */
  function Coming(s: State): YDoc {
    if s.redisSent != [] && s.redisSent[0].SetState? then s.redisSent[0].state else Source(s)
  }

  /** A load brings what the stores hold. */
  ghost predicate Faithful(s: State, e: Event) {
    e.Loaded? && s.cur.None? ==> e.doc == Source(s)
  }

  ghost predicate FaithfulRun(s: State, es: seq<Event>)
    requires Wf(s)
    decreases |es|
  {
    es == [] || (Faithful(s, es[0]) && FaithfulRun(Step(s, es[0]), es[1..]))
  }

  /** Redis owes at most the answer the running task waits for. */
  predicate OneCommand(s: State) {
    if s.pc.Refreshing? then |s.redisSent| == 1 && s.redisSent[0].SetState? && s.pc.ahead == 0
    else if s.pc.Saving? && s.pc.reply.Some? then
      |s.redisSent| == 1 && s.redisSent[0].SetState? && s.pc.reply.value == 0
    else s.redisSent == []
  }

  /** No record holds a struct or a deletion that a later one lacks. */
  ghost predicate LivesGrow(s: State) {
    forall i, j :: 0 <= i < j < |s.insts| ==> Within(s.insts[i].doc, s.insts[j].doc)
  }

  /** The stores hold no more than the loaded document, and all of it if it has no clients and no flush is due. */
  ghost predicate StoresFit(s: State)
    requires Wf(s)
  {
    if s.cur.Some? then
      var m := s.insts[s.cur.value];
      && s.cur.value == |s.insts| - 1
      && Within(Coming(s), m.doc)
      && (m.clients == {} ==> SnapshotDue(s) || Coming(s) == m.doc)
    else s.insts != [] ==> Source(s) == s.insts[|s.insts| - 1].doc
  }

  ghost predicate Durable(s: State)
    requires Wf(s)
  {
    && OneCommand(s)
    && (s.pc.Saving? ==> s.redisSent != [] || s.redis.Some?)
    && (s.pc.Refreshing? || s.pc.Saving? || s.pc.Embedding? ==> s.cur == Some(s.pc.inst))
    && LivesGrow(s) && StoresFit(s)
  }

  /** A flush, whether it saves or skips, sends all of the document to Redis. */
  lemma FlushIsDurable(s: State)
    requires Wf(s) && s.queue != [] && s.pc.Waiting? && s.redisSent == [] && LivesGrow(s)
    requires s.cur.Some? ==> s.cur.value == |s.insts| - 1
    requires s.cur.None? ==> StoresFit(s)
    ensures Durable(Flush(s))
    ensures s.cur.Some? ==> Coming(Flush(s)) == s.insts[s.cur.value].doc
  {
  }

  /** Documents and stores as before, the queue no shorter, and a record emptied only with a flush due. */
  ghost predicate Leaves(s: State, r: State)
    requires Wf(s)
  {
    && r.pc == s.pc && r.redisSent == s.redisSent && r.redis == s.redis && r.row == s.row && r.cur == s.cur
    && |r.insts| == |s.insts| && (forall i :: 0 <= i < |s.insts| ==> r.insts[i].doc == s.insts[i].doc)
    && |s.queue| <= |r.queue| && (s.queue == [] ==> r.pc.Waiting?)
    && (s.cur.Some? && r.insts[s.cur.value].clients == {} ==> s.insts[s.cur.value].clients == {} || SnapshotDue(r))
  }

  lemma LeavesDurable(s: State, r: State)
    requires Wf(s) && Wf(r) && Durable(s) && Leaves(s, r)
    ensures Durable(r)
  {
  }

  lemma GrowKeepsLives(s: State, m: Managed)
    requires LivesGrow(s) && s.insts != [] && Within(s.insts[|s.insts| - 1].doc, m.doc)
    ensures LivesGrow(s.(insts := s.insts[|s.insts| - 1 := m]))
  {
  }

  lemma AppendIsDurable(s: State, h: History)
    requires Sound(s, h) && s.queue != [] && s.queue[0].AppendTask? && s.pc.Waiting? && s.redisSent == []
    requires LivesGrow(s) && s.cur == Some(|s.insts| - 1)
    ensures Durable(AppendAndFlush(s))
  {
    var m := s.insts[s.cur.value];
    assert s.queue[0] in s.queue;
    MergeIsAbove(h, m.doc, s.queue[0].update);
    GrowKeepsLives(s, Appended(m, s.queue[0].update, s.queue[0].user));
    FlushIsDurable(WithText(s));
  }

  lemma BeginIsDurable(s: State, h: History)
    requires Sound(s, h) && Durable(s) && s.queue != [] && s.pc.Waiting?
    ensures Durable(BeginTask(s))
  {
    if s.queue[0].FlushTask? {
      FlushIsDurable(s);
    } else if s.cur.Some? {
      ReviveIsLight(s);
      LightKeepsSound(s, Revive(s), h);
      AppendIsDurable(Revive(s), h);
    }
  }

  lemma InsertKeepsLives(s: State, doc: YDoc, ws: string)
    requires LivesGrow(s) && (s.insts != [] ==> doc == s.insts[|s.insts| - 1].doc)
    ensures LivesGrow(Insert(s, doc, ws))
  {
  }

  lemma InsertIsDurable(s: State, doc: YDoc, ws: string)
    requires Wf(s) && Durable(s) && s.cur.None? && !s.pc.Loading? && doc == Source(s)
    ensures Durable(Insert(s, doc, ws))
  {
  }

  lemma LoadedIsDurable(s: State, doc: YDoc, ws: string, h: History)
    requires Sound(s, h) && Durable(s) && ValidIn(doc, h) && s.cur.None? && doc == Source(s)
    ensures Durable(Step(s, Loaded(doc, ws)))
  {
    if s.pc.Loading? {
      var s1 := s.(pc := Waiting);
      InsertKeepsLives(s1, doc, ws);
      QuietKeepsSound(s, s1, h);
      InsertKeepsSound(s1, doc, ws, h);
      AppendIsDurable(Insert(s1, doc, ws), h);
    } else {
      InsertIsDurable(s, doc, ws);
    }
  }

  /** A task that ends has sent what there was, or the next one will. */
  lemma EndIsDurable(s: State, result: Persisted)
    requires Wf(s) && s.queue != [] && !s.pc.Waiting? && !s.pc.Loading?
    requires s.redisSent == [] && s.cur.Some? && LivesGrow(s) && StoresFit(s)
    ensures Durable(Succeed(s, result))
  {
  }

  lemma ReplyIsDurable(s: State)
    requires Wf(s) && Durable(s) && s.redisSent != []
    ensures Durable(Reply(s, true))
  {
  }

  lemma FinishIsDurable(s: State)
    requires Wf(s) && Durable(s) && BothDone(s)
    ensures Durable(Conclude(WithResult(s)))
  {
    var s1 := WithResult(s);
    assert forall i :: 0 <= i < |s.insts| ==> s1.insts[i].doc == s.insts[i].doc && s1.insts[i].clients == s.insts[i].clients;
    if EmbedDue(s1.insts[s.pc.inst]) {
      var r := Conclude(s1);
      assert forall i :: 0 <= i < |s.insts| ==> r.insts[i].doc == s.insts[i].doc && r.insts[i].clients == s.insts[i].clients;
    } else {
      EndIsDurable(s1, s.writes[s.pc.write].phase.result);
    }
  }

  lemma CommitIsDurable(s: State, w: nat, now: nat)
    requires Wf(s) && Durable(s) && OnlyOwnWrite(s)
    requires w < |s.writes| && s.row.Some? && s.writes[w].phase.Opened?
    ensures Durable(CommitRow(s, w, now))
  {
  }

  lemma ScheduleIsDurable(s: State, editor: Option<string>)
    requires Wf(s) && Durable(s) && s.cur.Some?
    ensures Durable(ScheduleSave(s, editor))
  {
  }

  /** A document that has clients may grow. */
  lemma GrowIsDurable(s: State, m: Managed)
    requires Wf(s) && Durable(s) && s.cur.Some?
    requires Within(s.insts[s.cur.value].doc, m.doc) && m.clients != {}
    ensures Durable(Put(s, s.cur.value, m))
  {
    WithinTransitive(Coming(s), s.insts[s.cur.value].doc, m.doc);
    GrowKeepsLives(s, m);
  }

  lemma SyncIsDurable(s: State, e: Event, h: History)
    requires Sound(s, h) && Durable(s) && e.Sync? && EventIn(e, h) && Benign(s, e) && s.cur.Some?
    ensures Durable(Step(s, e))
  {
    var m := s.insts[s.cur.value];
    var m1 := m.(doc := Merge(m.doc, e.update));
    MergeIsAbove(h, m.doc, e.update);
    GrowIsDurable(s, m1);
    if e.scheduled {
      ScheduleIsDurable(Put(s, s.cur.value, m1), e.editor);
    }
  }

  lemma LeaveIsDurable(s: State, socket: string)
    requires Wf(s) && Durable(s)
    ensures Durable(RemoveClient(s, socket))
  {
    LeavesDurable(s, RemoveClient(s, socket));
  }

  lemma ClientsAreDurable(s: State, e: Event)
    requires Wf(s) && Durable(s) && (e.Join? || e.SubmitFlush? || e.SubmitAppend?)
    ensures Durable(Step(s, e))
  {
    LeavesDurable(s, Step(s, e));
  }

  lemma LoadFailedIsDurable(s: State)
    requires Wf(s) && Durable(s)
    ensures Durable(Step(s, LoadFailed))
  {
  }

  lemma SyncedIsDurable(s: State, w: nat)
    requires Wf(s) && Durable(s)
    ensures Durable(Step(s, AttachmentsSynced(w, true)))
  {
  }

  lemma TimerIsDurable(s: State, t: nat)
    requires Wf(s) && Durable(s) && Benign(s, TimerFired(t))
    ensures Durable(Step(s, TimerFired(t)))
  {
  }

  lemma StepIsDurable(s: State, e: Event, h: History)
    requires Agrees(s, h) && Durable(s) && EventIn(e, h) && Benign(s, e) && Faithful(s, e)
    ensures Durable(Step(s, e))
  {
    match e
    case Loaded(doc, ws) => if s.cur.None? { LoadedIsDurable(s, doc, ws, h); }
    case LoadFailed => LoadFailedIsDurable(s);
    case Join(_) => ClientsAreDurable(s, e);
    case Leave(socket) => LeaveIsDurable(s, socket);
    case Sync(_, _, _, _) => if s.cur.Some? { SyncIsDurable(s, e, h); }
    case SubmitFlush => ClientsAreDurable(s, e);
    case SubmitAppend(_, _, _) => ClientsAreDurable(s, e);
    case TimerFired(t) => TimerIsDurable(s, t);
    case Begin => if s.queue != [] && s.pc.Waiting? { BeginIsDurable(s, h); }
    case RedisReply(ok) => if s.redisSent != [] { ReplyIsDurable(s); }
    case DbCommit(w, now) =>
      if w < |s.writes| && s.writes[w].phase.Opened? && s.row.Some? { CommitIsDurable(s, w, now); }
    case AttachmentsSynced(w, ok) => SyncedIsDurable(s, w);
    case Finish => if BothDone(s) { FinishIsDurable(s); }
    case EmbedDone => if s.pc.Embedding? { EndIsDurable(s, s.pc.result); }
  }

  // ── Growth over time ───────────────────────────────────────────────────────

  /** No record is forgotten and none loses a struct or a deletion. */
  ghost predicate DocsGrow(s: State, r: State) {
    |s.insts| <= |r.insts| && forall i :: 0 <= i < |s.insts| ==> Within(s.insts[i].doc, r.insts[i].doc)
  }

  lemma DocsGrowOn(s: State, t: State, r: State)
    requires DocsGrow(s, t) && DocsGrow(t, r)
    ensures DocsGrow(s, r)
  {
  }

  lemma FlushGrows(s: State)
    requires Wf(s) && s.queue != [] && !s.pc.Saving?
    ensures DocsGrow(s, Flush(s))
  {
  }

  lemma AppendGrows(s: State, h: History)
    requires Sound(s, h) && s.queue != [] && s.queue[0].AppendTask? && s.cur.Some? && !s.pc.Saving?
    ensures DocsGrow(s, AppendAndFlush(s))
  {
    assert s.queue[0] in s.queue;
    MergeIsAbove(h, s.insts[s.cur.value].doc, s.queue[0].update);
    FlushGrows(WithText(s));
    DocsGrowOn(s, WithText(s), AppendAndFlush(s));
  }

  lemma RevivedAppendGrows(s: State, h: History)
    requires Sound(s, h) && s.queue != [] && s.queue[0].AppendTask? && s.cur.Some? && s.pc.Waiting?
    ensures DocsGrow(s, AppendAndFlush(Revive(s)))
  {
    var s1 := Revive(s);
    ReviveIsLight(s);
    LightKeepsSound(s, s1, h);
    AppendGrows(s1, h);
    forall i | 0 <= i < |s.insts| ensures Within(s.insts[i].doc, s1.insts[i].doc) {
      assert SameContents(s.insts[i], s1.insts[i]);
    }
    DocsGrowOn(s, s1, AppendAndFlush(s1));
  }

  lemma BeginGrows(s: State, h: History)
    requires Sound(s, h) && s.queue != [] && s.pc.Waiting?
    ensures DocsGrow(s, BeginTask(s))
  {
    if s.queue[0].FlushTask? {
      FlushGrows(s);
    } else if s.cur.Some? {
      RevivedAppendGrows(s, h);
    }
  }

  lemma LoadedGrows(s: State, doc: YDoc, ws: string, h: History)
    requires Sound(s, h) && ValidIn(doc, h) && s.cur.None?
    ensures DocsGrow(s, Step(s, Loaded(doc, ws)))
  {
    if s.pc.Loading? {
      var s1 := s.(pc := Waiting);
      QuietKeepsSound(s, s1, h);
      InsertKeepsSound(s1, doc, ws, h);
      AppendGrows(Insert(s1, doc, ws), h);
      DocsGrowOn(s, Insert(s1, doc, ws), Step(s, Loaded(doc, ws)));
    }
  }

  lemma SyncGrows(s: State, e: Event, h: History)
    requires Sound(s, h) && e.Sync? && EventIn(e, h) && s.cur.Some?
    ensures DocsGrow(s, Step(s, e))
  {
    MergeIsAbove(h, s.insts[s.cur.value].doc, e.update);
  }

  lemma FinishGrows(s: State)
    requires Wf(s) && BothDone(s)
    ensures DocsGrow(s, Conclude(WithResult(s)))
  {
  }

  lemma ClientsGrow(s: State, e: Event)
    requires Wf(s) && (e.Join? || e.Leave?)
    ensures DocsGrow(s, Step(s, e))
  {
  }

  lemma StoresKeepDocs(s: State, e: Event)
    requires Wf(s) && (e.SubmitAppend? || e.DbCommit? || e.DbMissing? || e.DbError? || e.AttachmentsSynced?)
    ensures Step(s, e).insts == s.insts
  {
    if !e.SubmitAppend? && Owns(s, e.write) {
      EndIsQuiet(s, Persisted(0, 0), e.DbMissing?);
    }
  }

  lemma StepGrows(s: State, e: Event, h: History)
    requires Sound(s, h) && EventIn(e, h)
    ensures DocsGrow(s, Step(s, e))
  {
    if IsQuiet(e) {
      QuietSteps(s, e);
    } else if e.Loaded? {
      if s.cur.None? { LoadedGrows(s, e.doc, e.workspaceId, h); }
    } else if e.Begin? {
      if s.queue != [] && s.pc.Waiting? { BeginGrows(s, h); }
    } else if e.Sync? {
      if s.cur.Some? { SyncGrows(s, e, h); }
    } else if e.Finish? {
      if BothDone(s) { FinishGrows(s); }
    } else if e.Join? || e.Leave? {
      ClientsGrow(s, e);
    } else {
      StoresKeepDocs(s, e);
    }
  }

  // ── Runs ───────────────────────────────────────────────────────────────────

  lemma {:induction false} RunIsDurable(s: State, es: seq<Event>, h: History)
    requires Agrees(s, h) && Covered(s) && Durable(s) && RunIn(es, h) && BenignRun(s, es) && FaithfulRun(s, es)
    ensures var r := Run(s, es); Agrees(r, h) && Covered(r) && Durable(r) && DocsGrow(s, r)
    decreases |es|
  {
    if es != [] {
      var t := Step(s, es[0]);
      StepKeepsAgrees(s, es[0], h);
      StepCovers(s, es[0], h);
      StepIsDurable(s, es[0], h);
      StepGrows(s, es[0], h);
      RunIsDurable(t, es[1..], h);
      DocsGrowOn(s, t, Run(s, es));
    }
  }

  lemma {:induction false} RunsSplit(s: State, first: seq<Event>, second: seq<Event>)
    requires Wf(s) && BenignRun(s, first + second) && FaithfulRun(s, first + second)
    ensures BenignRun(s, first) && FaithfulRun(s, first)
    ensures Run(s, first + second) == Run(Run(s, first), second)
    ensures BenignRun(Run(s, first), second) && FaithfulRun(Run(s, first), second)
    decreases |first|
  {
    if first == [] {
      assert first + second == second;
    } else {
      assert (first + second)[1..] == first[1..] + second;
      RunsSplit(Step(s, first[0]), first[1..], second);
    }
  }

  /** A node that nothing was loaded for yet. */
  lemma InitIsDurable(row: Option<Row>, redis: Option<YDoc>, h: History)
    requires row.Some? ==> ValidIn(row.value.state, h)
    ensures Agrees(Init(row, redis), h) && Covered(Init(row, redis)) && Durable(Init(row, redis))
  {
    InitIsSound(row, redis, h);
  }

  lemma RunInSplit(first: seq<Event>, second: seq<Event>, h: History)
    requires RunIn(first + second, h)
    ensures RunIn(first, h) && RunIn(second, h)
  {
    forall e | e in first ensures EventIn(e, h) { assert e in first + second; }
    forall e | e in second ensures EventIn(e, h) { assert e in first + second; }
  }

  /** A record and all later ones hold what the record held at an earlier moment. */
  lemma RecordsGrow(s: State, r: State, i: nat, j: nat)
    requires DocsGrow(s, r) && LivesGrow(r) && i <= j && i < |s.insts| && j < |r.insts|
    ensures Within(s.insts[i].doc, r.insts[j].doc)
  {
    if i < j {
      WithinTransitive(s.insts[i].doc, r.insts[i].doc, r.insts[j].doc);
    }
  }

  /**
   What a loaded document held at any moment of a benign run, structs and deletions, it and
   every later load of the node hold at every later moment, however often the document was
   dropped in between.
   */
  lemma NothingIsEverLost(row: Option<Row>, redis: Option<YDoc>, first: seq<Event>, second: seq<Event>, h: History,
                          i: nat, j: nat)
    requires row.Some? ==> ValidIn(row.value.state, h)
    requires RunIn(first + second, h)
    requires BenignRun(Init(row, redis), first + second) && FaithfulRun(Init(row, redis), first + second)
    requires i <= j && i < |Run(Init(row, redis), first).insts| && j < |Run(Init(row, redis), first + second).insts|
    ensures Within(Run(Init(row, redis), first).insts[i].doc, Run(Init(row, redis), first + second).insts[j].doc)
  {
    var s0 := Init(row, redis);
    InitIsDurable(row, redis, h);
    RunsSplit(s0, first, second);
    RunInSplit(first, second, h);
    RunIsDurable(s0, first, h);
    RunIsDurable(Run(s0, first), second, h);
    RecordsGrow(Run(s0, first), Run(s0, first + second), i, j);
  }

  /** When a document is dropped, the next load reads exactly that document. */
  lemma DroppedDocumentIsStored(row: Option<Row>, redis: Option<YDoc>, es: seq<Event>, h: History)
    requires row.Some? ==> ValidIn(row.value.state, h)
    requires RunIn(es, h) && BenignRun(Init(row, redis), es) && FaithfulRun(Init(row, redis), es)
    ensures var s := Run(Init(row, redis), es);
            s.cur.None? && s.insts != [] ==> Source(s) == s.insts[|s.insts| - 1].doc
  {
    InitIsDurable(row, redis, h);
    RunIsDurable(Init(row, redis), es, h);
  }
}
