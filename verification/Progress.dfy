/** How much the queued operations of a node have left to do, and that the stores' answers use it up. */
module Progress {
  import opened Wrappers
  import opened YDocs
  import opened ManagedDocs
  import opened NodeMachine
  import opened NodeFrames

  /** A load, a store call or a continuation settles; nothing new is asked for. */
  predicate Settles(e: Event) {
    e.LoadFailed? || e.Begin? || e.RedisReply? || e.DbCommit? || e.DbMissing? || e.DbError?
    || e.AttachmentsSynced? || e.Finish? || e.EmbedDone? || e.Loaded?
  }

  /** Replies and settlements the stores still owe for one write. */
  function WriteWork(w: Write): nat {
    if w.phase.Opened? then 2 else if w.phase.Committed? then 1 else 0
  }

  function WritesWork(ws: seq<Write>): nat {
    if ws == [] then 0 else WritesWork(ws[..|ws| - 1]) + WriteWork(ws[|ws| - 1])
  }

  /** How far the head of the queue still has to go. */
  function HeadWork(s: State): nat {
    match s.pc
    case Waiting => 8
    case Loading => 7
    case Saving(_, _, _) => 2
    case Refreshing(_, _, _) => 2
    case Embedding(_, _) => 1
  }

  /** The measure: steps of the queued tasks, Redis replies due, settlements of database writes due. */
  function Work(s: State): nat {
    (if s.queue == [] then 0 else 8 * (|s.queue| - 1) + HeadWork(s)) + |s.redisSent| + WritesWork(s.writes)
  }

  lemma {:induction false} WorkOfUpdate(ws: seq<Write>, w: nat, x: Write)
    requires w < |ws|
    ensures WritesWork(ws[w := x]) == WritesWork(ws) - WriteWork(ws[w]) + WriteWork(x)
    decreases |ws|
  {
    var n := |ws| - 1;
    if w < n {
      WorkOfUpdate(ws[..n], w, x);
      assert ws[w := x][..n] == ws[..n][w := x];
    } else {
      assert ws[w := x][..n] == ws[..n];
    }
  }

  lemma EndLessens(s: State, result: Persisted, gone: bool)
    requires Wf(s) && s.queue != []
    ensures Work(Succeed(s, result)) == Work(s) - HeadWork(s)
    ensures Work(Fail(s, gone)) <= Work(s) - HeadWork(s) + 1
    ensures !gone ==> Work(Fail(s, gone)) == Work(s) - HeadWork(s)
  {
  }

  lemma FlushLessens(s: State)
    requires Wf(s) && s.queue != [] && s.pc.Waiting?
    ensures Work(Flush(s)) <= Work(s) - 3
  {
  }

  lemma BeginLessens(s: State)
    requires Wf(s) && s.queue != [] && s.pc.Waiting?
    ensures Work(BeginTask(s)) < Work(s)
  {
    if s.queue[0].FlushTask? {
      FlushLessens(s);
    } else if s.cur.Some? {
      FlushLessens(WithText(Revive(s)));
    }
  }

  lemma LoadedLessens(s: State, doc: YDoc, ws: string)
    requires Wf(s) && s.pc.Loading?
    ensures Work(Step(s, Loaded(doc, ws))) < Work(s)
  {
  }

  lemma ReplyLessens(s: State, ok: bool)
    requires Wf(s) && s.redisSent != []
    ensures Work(Reply(s, ok)) < Work(s)
  {
    if s.pc.Refreshing? {
      EndLessens(s, s.pc.result, false);
    } else if s.pc.Saving? {
      EndLessens(s, Persisted(0, 0), false);
    }
  }

  lemma WriteFailsLessens(s: State, w: nat, gone: bool)
    requires Wf(s) && w < |s.writes| && Unsettled(s.writes[w])
    ensures Work(WriteFails(s, w, gone)) < Work(s)
  {
    var s1 := if Owns(s, w) then Fail(s, gone) else s;
    if Owns(s, w) {
      EndLessens(s, Persisted(0, 0), gone);
      EndIsQuiet(s, Persisted(0, 0), gone);
    }
    WorkOfUpdate(s1.writes, w, s1.writes[w].(phase := Failed));
  }

  lemma MoveLessens(s: State, w: nat, phase: Phase)
    requires Wf(s) && w < |s.writes| && (phase.Failed? ==> !Owns(s, w))
    requires WriteWork(s.writes[w].(phase := phase)) < WriteWork(s.writes[w])
    ensures Work(SetPhase(s, w, phase)) < Work(s)
  {
    WorkOfUpdate(s.writes, w, s.writes[w].(phase := phase));
  }

  lemma FinishLessens(s: State)
    requires Wf(s) && BothDone(s)
    ensures Work(Conclude(WithResult(s))) < Work(s)
  {
  }

  /** Every settling step that does anything brings the node's operations closer to their end. */
  lemma SettlingLessens(s: State, e: Event)
    requires Wf(s) && Settles(e) && Step(s, e) != s
    requires e.Loaded? ==> s.pc.Loading?
    ensures Work(Step(s, e)) < Work(s)
  {
    match e
    case Loaded(doc, ws) => LoadedLessens(s, doc, ws);
    case LoadFailed => EndLessens(s, Persisted(0, 0), false);
    case Begin => BeginLessens(s);
    case RedisReply(ok) => ReplyLessens(s, ok);
    case DbCommit(w, now) => MoveLessens(s, w, Committed(Persisted(s.row.value.version + 1, now)));
    case DbMissing(w) => WriteFailsLessens(s, w, true);
    case DbError(w) => WriteFailsLessens(s, w, false);
    case AttachmentsSynced(w, ok) =>
      if ok {
        MoveLessens(s, w, Finished(s.writes[w].phase.result));
      } else {
        WriteFailsLessens(s, w, false);
      }
    case Finish => FinishLessens(s);
    case EmbedDone => EndLessens(s, s.pc.result, false);
  }

  /** The settlement the running task waits for; its outcome is the store's choice. */
  function Awaited(s: State, ok: bool, now: nat): Event
    requires Wf(s) && s.queue != []
  {
    match s.pc
    case Waiting => Begin
    case Loading => if ok then Loaded(EMPTY_DOC, "") else LoadFailed
    case Refreshing(_, _, _) => RedisReply(ok)
    case Embedding(_, _) => EmbedDone
    case Saving(_, w, reply) =>
      match s.writes[w].phase
      case Opened => if !ok then DbError(w) else if s.row.Some? then DbCommit(w, now) else DbMissing(w)
      case Committed(_) => AttachmentsSynced(w, ok)
      case Finished(_) => if reply.Some? then RedisReply(ok) else Finish
      case Failed => Finish
  }

  lemma WriteIsNeverStuck(s: State, ok: bool, now: nat)
    requires Wf(s) && s.pc.Saving? && Unsettled(s.writes[s.pc.write])
    ensures Work(Step(s, Awaited(s, ok, now))) < Work(s)
  {
    var w := s.pc.write;
    if !ok || (s.writes[w].phase.Opened? && s.row.None?) {
      WriteFailsLessens(s, w, ok);
    } else if s.writes[w].phase.Opened? {
      MoveLessens(s, w, Committed(Persisted(s.row.value.version + 1, now)));
    } else {
      MoveLessens(s, w, Finished(s.writes[w].phase.result));
    }
  }

  lemma SaveIsNeverStuck(s: State, ok: bool, now: nat)
    requires Wf(s) && s.pc.Saving?
    ensures Work(Step(s, Awaited(s, ok, now))) < Work(s)
  {
    if Unsettled(s.writes[s.pc.write]) {
      WriteIsNeverStuck(s, ok, now);
    } else if s.pc.reply.Some? {
      ReplyLessens(s, ok);
    } else {
      FinishLessens(s);
    }
  }

  /** No deadlock: while anything is queued, what its head waits for is a store's answer, and it moves the head on. */
  lemma HeadIsNeverStuck(s: State, ok: bool, now: nat)
    requires Wf(s) && s.queue != []
    ensures Settles(Awaited(s, ok, now)) && Work(Step(s, Awaited(s, ok, now))) < Work(s)
  {
    match s.pc
    case Waiting => BeginLessens(s);
    case Loading => if ok { LoadedLessens(s, EMPTY_DOC, ""); } else { EndLessens(s, Persisted(0, 0), false); }
    case Refreshing(_, _, _) => ReplyLessens(s, ok);
    case Embedding(_, result) => EndLessens(s, result, false);
    case Saving(_, _, _) => SaveIsNeverStuck(s, ok, now);
  }

  /** The answers of the stores, one after the other, until the queue is empty or they run out. */
  ghost function Drain(s: State, answers: seq<bool>, now: nat): (r: State)
    requires Wf(s)
    ensures Wf(r)
    decreases |answers|
  {
    if s.queue == [] || answers == [] then s
    else Drain(Step(s, Awaited(s, answers[0], now)), answers[1..], now)
  }

  /** If nothing new is asked for: whatever the stores answer, every queued operation has finished after `Work` answers. */
  lemma {:induction false} EveryOperationFinishes(s: State, answers: seq<bool>, now: nat)
    requires Wf(s) && Work(s) <= |answers|
    ensures Drain(s, answers, now).queue == []
    decreases |answers|
  {
    if s.queue != [] {
      HeadIsNeverStuck(s, answers[0], now);
      EveryOperationFinishes(Step(s, Awaited(s, answers[0], now)), answers[1..], now);
    }
  }
}
