/**
 One node's document, from the manager's cache to the database row, as a state machine.

 The source runs on one thread: the code between two awaits is one step here, and anything
 may happen at an await.  Every map of the manager is keyed by node, so one node is enough.
 A step that is not possible in a state leaves the state as it is.

 `Promise.all` rejects as soon as one of its promises does.  A flush whose Redis write fails
 therefore ends while its database write is still running; such a write stays in `writes`.
 */
module NodeMachine {
  import opened Wrappers
  import opened YDocs
  import opened ManagedDocs

  datatype Timer = Debounce | Idle

  /** A call waiting in, or at the head of, the node's queue; `seen` is the row version its caller read. */
  datatype Task = FlushTask | AppendTask(update: YDoc, user: string, seen: nat)

  datatype RedisOp = SetState(state: YDoc) | Delete

  datatype Phase = Opened | Committed(result: Persisted) | Finished(result: Persisted) | Failed

  /** One `saveToDb` call: the snapshot it carries and how far it got. */
  datatype Write = Write(inst: nat, state: YDoc, phase: Phase)

  /** Where the head of the queue stands; `ahead` and `reply` count the Redis replies due before its own. */
  datatype Pc =
    | Waiting
    | Loading
    | Refreshing(inst: nat, result: Persisted, ahead: nat)
    | Saving(inst: nat, write: nat, reply: Option<nat>)
    | Embedding(inst: nat, result: Persisted)

  datatype Entry =
    | Marked(inst: nat)
    | Commit(write: nat, version: nat)
    | Saved(inst: nat, write: nat, result: Persisted)
    | Job(inst: nat, user: string, workspaceId: string)
    | Skipped(inst: nat, result: Persisted)
    | AppendOk(seen: nat, applied: nat, result: Persisted, added: bool)
    | TaskFailed
    | Evicted(inst: nat)

  datatype Row = Row(state: YDoc, version: nat, updatedAt: nat)

  /**
   `insts` are the records ever inserted and `cur` the one in the `docs` map; tasks keep
   using the record they looked up even after it was dropped.  `base`, `added`,
   `applied` and `log` are history: the document as loaded, whether the running append brought
   a new struct and the row version at that moment, and what has happened.
   */
  datatype State = State(
    cur: Option<nat>,
    insts: seq<Managed>,
    queue: seq<Task>,
    pc: Pc,
    timers: map<nat, Timer>,
    nextTimer: nat,
    writes: seq<Write>,
    row: Option<Row>,
    redisSent: seq<RedisOp>,
    redis: Option<YDoc>,
    base: seq<YDoc>,
    added: bool,
    applied: nat,
    log: seq<Entry>)

  datatype Event =
    | Loaded(doc: YDoc, workspaceId: string)
    | LoadFailed
    | Join(socket: string)
    | Leave(socket: string)
    | Sync(socket: string, update: YDoc, scheduled: bool, editor: Option<string>)
    | SubmitFlush
    | SubmitAppend(update: YDoc, user: string, seen: nat)
    | TimerFired(timer: nat)
    | Cleanup
    | Begin
    | RedisReply(ok: bool)
    | DbCommit(write: nat, now: nat)
    | DbMissing(write: nat)
    | DbError(write: nat)
    | AttachmentsSynced(write: nat, ok: bool)
    | Finish
    | EmbedDone

  function Init(row: Option<Row>, redis: Option<YDoc>): State {
    State(None, [], [], Waiting, map[], 0, [], row, [], redis, [], false, 0, [])
  }

  ghost predicate Wf(s: State) {
    && (s.cur.Some? ==> s.cur.value < |s.insts|)
    && |s.base| == |s.insts|
    && (forall w :: 0 <= w < |s.writes| ==> s.writes[w].inst < |s.insts|)
    && (!s.pc.Waiting? ==> s.queue != [])
    && (s.pc.Loading? ==> s.queue[0].AppendTask? && s.cur.None?)
    && (s.pc.Refreshing? ==> s.pc.inst < |s.insts| && s.pc.ahead < |s.redisSent|)
    && (s.pc.Embedding? ==> s.pc.inst < |s.insts|)
    && (s.pc.Saving? ==>
          && s.pc.inst < |s.insts| && s.pc.write < |s.writes|
          && s.writes[s.pc.write].inst == s.pc.inst
          && !s.writes[s.pc.write].phase.Failed?
          && (s.pc.reply.Some? ==> s.pc.reply.value < |s.redisSent|))
  }

  predicate Owns(s: State, w: nat) {
    s.pc.Saving? && s.pc.write == w
  }

  /** Written so far, and neither committed nor given up. */
  predicate Unsettled(w: Write) {
    w.phase.Opened? || w.phase.Committed?
  }

  function Version(s: State): nat {
    if s.row.Some? then s.row.value.version else 0
  }

  function Disarm(timers: map<nat, Timer>, t: Option<nat>): map<nat, Timer> {
    if t.Some? then timers - {t.value} else timers
  }

  function Logged(s: State, e: Entry): State {
    s.(log := s.log + [e])
  }

  // ── The cache ──────────────────────────────────────────────────────────────

  function Put(s: State, i: nat, m: Managed): (r: State)
    requires Wf(s) && i < |s.insts|
    ensures Wf(r)
  {
    s.(insts := s.insts[i := m])
  }

  function Insert(s: State, doc: YDoc, workspaceId: string): State {
    s.(cur := Some(|s.insts|), insts := s.insts + [Fresh(doc, workspaceId)], base := s.base + [doc])
  }

  /** `getOrCreateDoc` on a loaded document cancels the pending eviction. */
  function Revive(s: State): (r: State)
    requires Wf(s) && s.cur.Some?
    ensures Wf(r) && r.cur == s.cur && r.queue == s.queue && r.pc == s.pc
  {
    var m := s.insts[s.cur.value];
    Put(s.(timers := Disarm(s.timers, m.idleTimer)), s.cur.value, m.(idleTimer := None))
  }

  /** The document leaves the `docs` map, its two known timers cleared. */
  function Drop(s: State): (r: State)
    requires Wf(s) && s.cur.Some?
    ensures Wf(r)
  {
    var m := s.insts[s.cur.value];
    s.(cur := None, timers := Disarm(Disarm(s.timers, m.saveTimer), m.idleTimer))
  }

  function CleanupNode(s: State): (r: State)
    requires Wf(s)
    ensures Wf(r)
  {
    var s1 := if s.cur.Some? then Drop(s) else s;
    s1.(redisSent := s1.redisSent + [Delete])
  }

  function EvictDoc(s: State): (r: State)
    requires Wf(s)
    ensures Wf(r)
  {
    if s.cur.None? || s.insts[s.cur.value].clients != {} then s
    else Logged(Drop(s), Evicted(s.cur.value))
  }

  function ScheduleSave(s: State, user: Option<string>): (r: State)
    requires Wf(s) && s.cur.Some?
    ensures Wf(r)
  {
    var i := s.cur.value;
    var m := s.insts[i];
    var s1 := s.(timers := Disarm(s.timers, m.saveTimer)[s.nextTimer := Debounce], nextTimer := s.nextTimer + 1);
    Logged(Put(s1, i, Touched(m, user).(saveTimer := Some(s.nextTimer))), Marked(i))
  }

  function RemoveClient(s: State, socket: string): (r: State)
    requires Wf(s)
    ensures Wf(r)
  {
    if s.cur.None? then s
    else
      var i := s.cur.value;
      var m := s.insts[i].(clients := s.insts[i].clients - {socket});
      if m.clients != {} then Put(s, i, m)
      else
        var s1 := s.(queue := s.queue + [FlushTask],
                     timers := s.timers[s.nextTimer := Idle], nextTimer := s.nextTimer + 1);
        Put(s1, i, m.(idleTimer := Some(s.nextTimer)))
  }

  // ── The queue's head ───────────────────────────────────────────────────────

  function EndTask(s: State): (r: State)
    requires Wf(s) && s.queue != []
    ensures Wf(r)
  {
    s.(queue := s.queue[1..], pc := Waiting)
  }

  function Succeed(s: State, result: Persisted): (r: State)
    requires Wf(s) && s.queue != []
    ensures Wf(r)
  {
    match s.queue[0]
    case FlushTask => EndTask(s)
    case AppendTask(_, _, seen) => Logged(EndTask(s), AppendOk(seen, s.applied, result, s.added))
  }

  /** A background flush that finds the row gone cleans the node up; an append only reports the error. */
  function Fail(s: State, gone: bool): (r: State)
    requires Wf(s) && s.queue != []
    ensures Wf(r)
  {
    var s1 := Logged(EndTask(s), TaskFailed);
    if gone && s.queue[0].FlushTask? then CleanupNode(s1) else s1
  }

  /** `flushDocLocked` up to its first await. */
  function Flush(s: State): (r: State)
    requires Wf(s) && s.queue != [] && (s.cur.Some? ==> !s.pc.Saving?)
    ensures Wf(r)
  {
    if s.cur.None? then Fail(s, false)
    else
      var i := s.cur.value;
      var m := s.insts[i].(saveTimer := None);
      var s1 := s.(timers := Disarm(s.timers, s.insts[i].saveTimer), redisSent := s.redisSent + [SetState(m.doc)]);
      if NothingToSave(m) then
        s1.(insts := s.insts[i := m.(dirtyForEmbed := false)],
            pc := Refreshing(i, m.lastPersisted.value, |s.redisSent|))
      else
        s1.(insts := s.insts[i := m],
            writes := s.writes + [Write(i, m.doc, Opened)],
            pc := Saving(i, |s.writes|, Some(|s.redisSent|)))
  }

  /** The appended text is in the document, nothing saved yet. */
  function WithText(s: State): (r: State)
    requires Wf(s) && s.queue != [] && s.queue[0].AppendTask? && s.cur.Some? && !s.pc.Saving?
    ensures Wf(r) && r.queue == s.queue && r.cur == s.cur && r.pc.Waiting?
  {
    var i := s.cur.value;
    var m := Appended(s.insts[i], s.queue[0].update, s.queue[0].user);
    Logged(s.(pc := Waiting, insts := s.insts[i := m], added := m.doc.structs != s.insts[i].doc.structs,
              applied := Version(s)), Marked(i))
  }

  /** `appendMarkdown` from the moment it has its document: the flush follows without an await. */
  function AppendAndFlush(s: State): (r: State)
    requires Wf(s) && s.queue != [] && s.queue[0].AppendTask? && s.cur.Some? && !s.pc.Saving?
    ensures Wf(r)
  {
    Flush(WithText(s))
  }

  function BeginTask(s: State): (r: State)
    requires Wf(s) && s.queue != [] && s.pc.Waiting?
    ensures Wf(r)
  {
    if s.queue[0].FlushTask? then Flush(s)
    else if s.cur.Some? then AppendAndFlush(Revive(s))
    else s.(pc := Loading)
  }

  /** The result of the save is remembered. */
  function WithResult(s: State): (r: State)
    requires Wf(s) && s.pc.Saving? && s.writes[s.pc.write].phase.Finished?
    ensures Wf(r) && r.pc == s.pc && r.writes == s.writes
  {
    var i := s.pc.inst;
    var w := s.writes[s.pc.write];
    Logged(s, Saved(i, s.pc.write, w.phase.result))
      .(insts := s.insts[i := Remembered(s.insts[i], Vector(w.state), w.phase.result)])
  }

  /** The embed job is queued if one is due; otherwise the flush returns. */
  function Conclude(s: State): (r: State)
    requires Wf(s) && s.pc.Saving? && s.writes[s.pc.write].phase.Finished?
    ensures Wf(r)
  {
    var i := s.pc.inst;
    var m := s.insts[i];
    var result := s.writes[s.pc.write].phase.result;
    if EmbedDue(m) then
      Logged(s.(insts := s.insts[i := m.(dirtyForEmbed := false)], pc := Embedding(i, result)),
             Job(i, m.lastEditor.value, m.workspaceId))
    else Succeed(s, result)
  }

  /** Both promises of `Promise.all` are fulfilled. */
  predicate BothDone(s: State)
    requires Wf(s)
  {
    s.pc.Saving? && s.pc.reply.None? && s.writes[s.pc.write].phase.Finished?
  }

  // ── The stores ─────────────────────────────────────────────────────────────

  /** What a Redis reply means to the running task, if it is the reply it waits for. */
  function Answered(s: State, ok: bool): (r: State)
    requires Wf(s) && s.redisSent != []
    ensures Wf(r) && r.redisSent == s.redisSent
    ensures r.pc.Refreshing? ==> r.pc.ahead + 1 < |s.redisSent|
    ensures r.pc.Saving? && r.pc.reply.Some? ==> r.pc.reply.value + 1 < |s.redisSent|
  {
    match s.pc
    case Refreshing(i, p, ahead) =>
      if ahead > 0 then s.(pc := Refreshing(i, p, ahead - 1))
      else if ok then Logged(Succeed(s, p), Skipped(i, p))
      else Fail(s, false)
    case Saving(i, w, Some(ahead)) =>
      if ahead > 0 then s.(pc := Saving(i, w, Some(ahead - 1)))
      else if ok then s.(pc := Saving(i, w, None))
      else Fail(s, false)
    case _ => s
  }

  /** Commands on one Redis connection take effect, and are answered, in the order they were sent. */
  function Reply(s: State, ok: bool): (r: State)
    requires Wf(s) && s.redisSent != []
    ensures Wf(r)
  {
    var cell := if !ok then s.redis else if s.redisSent[0].SetState? then Some(s.redisSent[0].state) else None;
    Answered(s, ok).(redisSent := s.redisSent[1..], redis := cell)
  }

  function SetPhase(s: State, w: nat, phase: Phase): (r: State)
    requires Wf(s) && w < |s.writes| && (phase.Failed? ==> !Owns(s, w))
    ensures Wf(r)
  {
    s.(writes := s.writes[w := s.writes[w].(phase := phase)])
  }

  /** The row transaction: the snapshot goes in and the version goes up by one. */
  function CommitRow(s: State, w: nat, now: nat): (r: State)
    requires Wf(s) && w < |s.writes| && s.row.Some?
    ensures Wf(r)
  {
    var v := s.row.value.version + 1;
    Logged(SetPhase(s, w, Committed(Persisted(v, now))).(row := Some(Row(s.writes[w].state, v, now))), Commit(w, v))
  }

  /** A failing `saveToDb` fails its flush, if that flush still waits for it. */
  function WriteFails(s: State, w: nat, gone: bool): (r: State)
    requires Wf(s) && w < |s.writes|
    ensures Wf(r)
  {
    var s1 := if Owns(s, w) then Fail(s, gone) else s;
    s1.(writes := s1.writes[w := s1.writes[w].(phase := Failed)])
  }

  // ── Steps and runs ─────────────────────────────────────────────────────────

  function Step(s: State, e: Event): (r: State)
    requires Wf(s)
    ensures Wf(r)
  {
    match e
    case Loaded(doc, ws) =>
      if s.cur.Some? then s
      else if s.pc.Loading? then AppendAndFlush(Insert(s.(pc := Waiting), doc, ws))
      else Insert(s, doc, ws)
    case LoadFailed => if s.pc.Loading? then Fail(s, false) else s
    case Join(socket) =>
      if s.cur.None? then s
      else
        var s1 := Revive(s);
        Put(s1, s.cur.value, s1.insts[s.cur.value].(clients := s1.insts[s.cur.value].clients + {socket}))
    case Leave(socket) => RemoveClient(s, socket)
    case Sync(_, update, scheduled, user) =>
      if s.cur.None? then s
      else
        var m := s.insts[s.cur.value];
        var s1 := Put(s, s.cur.value, m.(doc := Merge(m.doc, update)));
        if scheduled then ScheduleSave(s1, user) else s1
    case SubmitFlush => s.(queue := s.queue + [FlushTask])
    case SubmitAppend(update, user, seen) =>
      if s.row.None? || s.row.value.version < seen then s
      else s.(queue := s.queue + [AppendTask(update, user, seen)])
    case TimerFired(t) =>
      if t !in s.timers then s
      else
        var s1 := s.(timers := s.timers - {t});
        if s.timers[t].Debounce? then s1.(queue := s.queue + [FlushTask]) else EvictDoc(s1)
    case Cleanup => CleanupNode(s)
    case Begin => if s.queue != [] && s.pc.Waiting? then BeginTask(s) else s
    case RedisReply(ok) => if s.redisSent != [] then Reply(s, ok) else s
    case DbCommit(w, now) =>
      if w < |s.writes| && s.writes[w].phase.Opened? && s.row.Some? then CommitRow(s, w, now) else s
    case DbMissing(w) =>
      if w < |s.writes| && s.writes[w].phase.Opened? && s.row.None? then WriteFails(s, w, true) else s
    case DbError(w) => if w < |s.writes| && s.writes[w].phase.Opened? then WriteFails(s, w, false) else s
    case AttachmentsSynced(w, ok) =>
      if w < |s.writes| && s.writes[w].phase.Committed? then
        if ok then SetPhase(s, w, Finished(s.writes[w].phase.result)) else WriteFails(s, w, false)
      else s
    case Finish =>
      if BothDone(s) then Conclude(WithResult(s)) else s
    case EmbedDone => if s.pc.Embedding? then Succeed(s, s.pc.result) else s
  }

  function Run(s: State, es: seq<Event>): (r: State)
    requires Wf(s)
    ensures Wf(r)
    decreases |es|
  {
    if es == [] then s else Run(Step(s, es[0]), es[1..])
  }
}
