/**
 The row holds what memory thinks it holds, as long as no flush ends before its own database
 write.  `Promise.all` gives up on the first rejection, so the exception is a failing Redis write.
 */
module Agreement {
  import opened Wrappers
  import opened YDocs
  import opened ManagedDocs
  import opened NodeMachine
  import opened NodeFrames
  import opened SaveChain

  /** Every database write under way belongs to the running flush. */
  ghost predicate OnlyOwnWrite(s: State) {
    forall w :: 0 <= w < |s.writes| && Unsettled(s.writes[w]) ==> Owns(s, w)
  }

  /** The Redis write of the running flush fails before its database write has settled. */
  ghost predicate Abandons(s: State, e: Event) {
    && e == RedisReply(false) && s.redisSent != []
    && s.pc.Saving? && s.pc.reply == Some(0)
    && s.pc.write < |s.writes| && Unsettled(s.writes[s.pc.write])
  }

  lemma WriteFailsKeepsOwn(s: State, w: nat, gone: bool)
    requires Wf(s) && OnlyOwnWrite(s) && w < |s.writes| && Unsettled(s.writes[w])
    ensures OnlyOwnWrite(WriteFails(s, w, gone))
  {
  }

  lemma ReplyKeepsOwn(s: State, ok: bool)
    requires Wf(s) && OnlyOwnWrite(s) && s.redisSent != []
    ensures OnlyOwnWrite(Reply(s, ok)) <==> !Abandons(s, RedisReply(ok))
  {
    ReplyIsQuiet(s, ok);
    if Abandons(s, RedisReply(ok)) {
      assert Unsettled(Reply(s, ok).writes[s.pc.write]);
    }
  }

  lemma TailKeepsOwn(s: State)
    requires Wf(s) && OnlyOwnWrite(s) && BothDone(s)
    ensures OnlyOwnWrite(Conclude(WithResult(s)))
  {
  }

  lemma FlushKeepsOwn(s: State)
    requires Wf(s) && OnlyOwnWrite(s) && s.queue != [] && !s.pc.Saving?
    ensures OnlyOwnWrite(Flush(s))
  {
    if s.cur.None? {
      EndIsQuiet(s, Persisted(0, 0), false);
    }
  }

  lemma BeginKeepsOwn(s: State)
    requires Wf(s) && OnlyOwnWrite(s) && s.queue != [] && s.pc.Waiting?
    ensures OnlyOwnWrite(BeginTask(s))
  {
    if s.queue[0].FlushTask? {
      FlushKeepsOwn(s);
    } else if s.cur.Some? {
      FlushKeepsOwn(WithText(Revive(s)));
    }
  }

  lemma LoadedKeepsOwn(s: State, doc: YDoc, workspaceId: string)
    requires Wf(s) && OnlyOwnWrite(s)
    ensures OnlyOwnWrite(Step(s, Loaded(doc, workspaceId)))
  {
  }

  lemma QuietKeepsOwn(s: State, e: Event)
    requires Wf(s) && OnlyOwnWrite(s) && IsQuiet(e) && !e.RedisReply?
    ensures OnlyOwnWrite(Step(s, e))
  {
    QuietSteps(s, e);
  }

  lemma StoreKeepsOwn(s: State, e: Event)
    requires Wf(s) && OnlyOwnWrite(s) && (e.DbCommit? || e.DbMissing? || e.DbError? || e.AttachmentsSynced?)
    ensures OnlyOwnWrite(Step(s, e))
  {
    if e.write < |s.writes| && Unsettled(s.writes[e.write]) && !e.DbCommit? {
      WriteFailsKeepsOwn(s, e.write, e.DbMissing?);
    }
  }

  /** Exactly an early Redis failure leaves a database write of the node without a flush waiting for it. */
  lemma OnlyOwnWriteUnlessAbandoned(s: State, e: Event)
    requires Wf(s) && OnlyOwnWrite(s)
    ensures OnlyOwnWrite(Step(s, e)) <==> !Abandons(s, e)
  {
    if IsQuiet(e) && !e.RedisReply? {
      QuietKeepsOwn(s, e);
    } else if e.DbCommit? || e.DbMissing? || e.DbError? || e.AttachmentsSynced? {
      StoreKeepsOwn(s, e);
    } else {
      match e
      case RedisReply(ok) => if s.redisSent != [] { ReplyKeepsOwn(s, ok); }
      case Loaded(doc, ws) => LoadedKeepsOwn(s, doc, ws);
      case Begin => if s.queue != [] && s.pc.Waiting? { BeginKeepsOwn(s); }
      case Finish => if BothDone(s) { TailKeepsOwn(s); }
      case Leave(socket) => LeaveIsLight(s, socket);
      case _ =>
    }
  }

  /** A committed save is the row. */
  ghost predicate RowIsLastCommit(s: State)
    requires Wf(s)
  {
    s.pc.Saving? && !s.writes[s.pc.write].phase.Opened? ==>
      s.row.Some? && s.row.value.state == s.writes[s.pc.write].state
  }

  /** The state vectors differ, so of two snapshots of one document the later has new structs. */
  predicate Newer(a: YDoc, b: YDoc) {
    Vector(a) != Vector(b)
  }

  /**
   The row lies between what the loaded document remembers as saved and what it holds now.  It
   is that very snapshot, or a later one with new structs; and a save under way has new structs.
   */
  ghost predicate RowBetween(s: State)
    requires Wf(s)
  {
    s.cur.Some? ==>
      match LastSave(s.log, s.cur.value)
      case None => true
      case Some((w, _)) =>
        && s.row.Some? && w < |s.writes|
        && (s.pc.Saving? ==> s.pc.inst == s.cur.value && Newer(s.writes[s.pc.write].state, s.writes[w].state))
        && Within(s.writes[w].state, s.row.value.state)
        && Within(s.row.value.state, s.insts[s.cur.value].doc)
        && (s.row.value.state == s.writes[w].state || Newer(s.row.value.state, s.writes[w].state))
  }

  ghost predicate Agrees(s: State, h: History) {
    Sound(s, h) && OnlyOwnWrite(s) && RowIsLastCommit(s) && RowBetween(s)
  }

  lemma LightKeepsRow(s: State, r: State)
    requires Wf(s) && Wf(r) && Light(s, r) && RowIsLastCommit(s) && RowBetween(s)
    ensures RowIsLastCommit(r) && RowBetween(r)
  {
    if r.cur.Some? {
      SameLastSave(s.log, r.log, r.cur.value);
    }
  }

  lemma GrowKeepsRow(s: State, i: nat, m: Managed)
    requires Wf(s) && i < |s.insts| && RowIsLastCommit(s) && RowBetween(s)
    requires Within(s.insts[i].doc, m.doc)
    ensures RowIsLastCommit(s.(insts := s.insts[i := m])) && RowBetween(s.(insts := s.insts[i := m]))
  {
  }

  /** A flush that goes to the database brings structs its document has not saved. */
  lemma FlushKeepsRow(s: State)
    requires Remembers(s) && s.queue != [] && !s.pc.Saving? && RowIsLastCommit(s) && RowBetween(s)
    ensures RowIsLastCommit(Flush(s)) && RowBetween(Flush(s))
  {
    if s.cur.Some? {
      assert RemembersAt(s, s.cur.value);
    }
  }

  lemma TextKeepsRow(s: State, h: History)
    requires Sound(s, h) && s.queue != [] && s.queue[0].AppendTask? && s.cur.Some? && !s.pc.Saving?
    requires RowIsLastCommit(s) && RowBetween(s)
    ensures RowIsLastCommit(WithText(s)) && RowBetween(WithText(s))
  {
    var i := s.cur.value;
    var m := Appended(s.insts[i], s.queue[0].update, s.queue[0].user);
    assert s.queue[0] in s.queue;
    MergeIsAbove(h, s.insts[i].doc, s.queue[0].update);
    GrowKeepsRow(s, i, m);
    LightKeepsRow(s.(insts := s.insts[i := m]), WithText(s));
  }

  lemma InsertKeepsRow(s: State, doc: YDoc, workspaceId: string)
    requires Remembers(s) && Wf(Insert(s, doc, workspaceId)) && RowIsLastCommit(s)
    ensures RowIsLastCommit(Insert(s, doc, workspaceId)) && RowBetween(Insert(s, doc, workspaceId))
  {
    assert RemembersAt(s, |s.insts|);
  }

  /** The running flush's own commit: the row moves up the chain of its document's snapshots. */
  lemma CommitKeepsRow(s: State, w: nat, now: nat, h: History)
    requires Agrees(s, h) && w < |s.writes| && s.row.Some? && s.writes[w].phase.Opened?
    ensures RowIsLastCommit(CommitRow(s, w, now)) && RowBetween(CommitRow(s, w, now))
  {
    var r := CommitRow(s, w, now);
    assert Owns(s, w);
    if s.cur.Some? {
      var c := s.cur.value;
      assert RemembersAt(s, c);
      SameLastSave(s.log, r.log, c);
    }
  }

  lemma PhaseKeepsRow(s: State, w: nat, phase: Phase)
    requires Remembers(s) && w < |s.writes| && Unsettled(s.writes[w]) && !phase.Opened? && (phase.Failed? ==> !Owns(s, w))
    requires s.writes[w].phase.Committed? || !Owns(s, w)
    requires RowIsLastCommit(s) && RowBetween(s)
    ensures RowIsLastCommit(SetPhase(s, w, phase)) && RowBetween(SetPhase(s, w, phase))
  {
  }

  lemma WriteFailsKeepsRow(s: State, w: nat, gone: bool, h: History)
    requires Agrees(s, h) && w < |s.writes| && Unsettled(s.writes[w])
    ensures RowIsLastCommit(WriteFails(s, w, gone)) && RowBetween(WriteFails(s, w, gone))
  {
  }

  /** What the end of a flush leaves alone. */
  lemma ConcludeLooks(s: State)
    requires Wf(s) && BothDone(s)
    ensures var r := Conclude(WithResult(s));
            && r.row == s.row && r.cur == s.cur && r.writes == s.writes && r.base == s.base && !r.pc.Saving?
            && |r.insts| == |s.insts| && forall i :: 0 <= i < |s.insts| ==> r.insts[i].doc == s.insts[i].doc
  {
  }

  lemma TailKeepsRow(s: State, h: History)
    requires Agrees(s, h) && BothDone(s)
    ensures RowIsLastCommit(Conclude(WithResult(s))) && RowBetween(Conclude(WithResult(s)))
  {
    ResultKeepsSound(s, h);
    ConcludeKeepsSound(WithResult(s), h);
    ConcludeLooks(s);
  }

  lemma BeginKeepsRow(s: State, h: History)
    requires Agrees(s, h) && s.queue != [] && s.pc.Waiting?
    ensures RowIsLastCommit(BeginTask(s)) && RowBetween(BeginTask(s))
  {
    if s.queue[0].FlushTask? {
      FlushKeepsRow(s);
    } else if s.cur.Some? {
      ReviveIsLight(s);
      LightKeepsRow(s, Revive(s));
      LightKeepsSound(s, Revive(s), h);
      TextKeepsRow(Revive(s), h);
      TextKeepsSound(Revive(s), h);
      FlushKeepsRow(WithText(Revive(s)));
    }
  }

  lemma LoadedKeepsRow(s: State, doc: YDoc, ws: string, h: History)
    requires Agrees(s, h) && ValidIn(doc, h) && s.cur.None?
    ensures RowIsLastCommit(Step(s, Loaded(doc, ws))) && RowBetween(Step(s, Loaded(doc, ws)))
  {
    var s1 := s.(pc := if s.pc.Loading? then Waiting else s.pc);
    QuietKeepsSound(s, s1, h);
    InsertKeepsRow(s1, doc, ws);
    if s.pc.Loading? {
      InsertKeepsSound(s1, doc, ws, h);
      TextKeepsRow(Insert(s1, doc, ws), h);
      TextKeepsSound(Insert(s1, doc, ws), h);
      FlushKeepsRow(WithText(Insert(s1, doc, ws)));
    }
  }

  lemma SyncKeepsRow(s: State, e: Event, h: History)
    requires Agrees(s, h) && e.Sync? && EventIn(e, h) && s.cur.Some?
    ensures RowIsLastCommit(Step(s, e)) && RowBetween(Step(s, e))
  {
    var m := s.insts[s.cur.value];
    MergeIsAbove(h, m.doc, e.update);
    GrowKeepsRow(s, s.cur.value, m.(doc := Merge(m.doc, e.update)));
    var s1 := Put(s, s.cur.value, m.(doc := Merge(m.doc, e.update)));
    if e.scheduled {
      ScheduleIsLight(s1, e.editor);
      LightKeepsRow(s1, ScheduleSave(s1, e.editor));
    }
  }

  lemma ClientsKeepRow(s: State, e: Event, h: History)
    requires Agrees(s, h) && EventIn(e, h) && (e.Join? || e.Leave? || e.Sync?)
    ensures RowIsLastCommit(Step(s, e)) && RowBetween(Step(s, e))
  {
    if e.Join? {
      JoinIsLight(s, e.socket);
      LightKeepsRow(s, Step(s, e));
    } else if e.Leave? {
      LeaveIsLight(s, e.socket);
      LightKeepsRow(s, Step(s, e));
    } else if s.cur.Some? {
      SyncKeepsRow(s, e, h);
    }
  }

  lemma StoreKeepsRow(s: State, e: Event, h: History)
    requires Agrees(s, h) && (e.DbMissing? || e.DbError? || e.AttachmentsSynced?)
    ensures RowIsLastCommit(Step(s, e)) && RowBetween(Step(s, e))
  {
    if e.write < |s.writes| && Unsettled(s.writes[e.write]) {
      WriteFailsKeepsRow(s, e.write, e.DbMissing?, h);
      if e.AttachmentsSynced? && s.writes[e.write].phase.Committed? {
        PhaseKeepsRow(s, e.write, Finished(s.writes[e.write].phase.result));
      }
    }
  }

  lemma StepKeepsRow(s: State, e: Event, h: History)
    requires Agrees(s, h) && EventIn(e, h)
    ensures RowIsLastCommit(Step(s, e)) && RowBetween(Step(s, e))
  {
    if IsQuiet(e) {
      QuietSteps(s, e);
      QuietIsLight(s, Step(s, e));
      LightKeepsRow(s, Step(s, e));
    } else if e.Join? || e.Leave? || e.Sync? {
      ClientsKeepRow(s, e, h);
    } else if e.DbMissing? || e.DbError? || e.AttachmentsSynced? {
      StoreKeepsRow(s, e, h);
    } else {
      match e
      case Loaded(doc, ws) => if s.cur.None? { LoadedKeepsRow(s, doc, ws, h); }
      case SubmitAppend(_, _, _) =>
      case Begin => if s.queue != [] && s.pc.Waiting? { BeginKeepsRow(s, h); }
      case DbCommit(w, now) =>
        if w < |s.writes| && s.writes[w].phase.Opened? && s.row.Some? { CommitKeepsRow(s, w, now, h); }
      case Finish => if BothDone(s) { TailKeepsRow(s, h); }
    }
  }

  lemma StepKeepsAgrees(s: State, e: Event, h: History)
    requires Agrees(s, h) && EventIn(e, h) && !Abandons(s, e)
    ensures Agrees(Step(s, e), h)
  {
    StepKeepsSound(s, e, h);
    OnlyOwnWriteUnlessAbandoned(s, e);
    StepKeepsRow(s, e, h);
  }

  /** No flush of the run ends before its own database write. */
  ghost predicate NothingAbandoned(s: State, es: seq<Event>)
    requires Wf(s)
    decreases |es|
  {
    es == [] || (!Abandons(s, es[0]) && NothingAbandoned(Step(s, es[0]), es[1..]))
  }

  lemma {:induction false} RunKeepsAgrees(s: State, es: seq<Event>, h: History)
    requires Agrees(s, h) && RunIn(es, h) && NothingAbandoned(s, es)
    ensures Agrees(Run(s, es), h)
    decreases |es|
  {
    if es != [] {
      StepKeepsAgrees(s, es[0], h);
      RunKeepsAgrees(Step(s, es[0]), es[1..], h);
    }
  }

  // ── What a skip leaves unsaved ─────────────────────────────────────────────

  /** The snapshot of the loaded document that was last saved successfully. */
  ghost function LastSnapshot(s: State): Option<YDoc>
    requires Wf(s) && s.cur.Some?
  {
    match LastSave(s.log, s.cur.value)
    case Some((w, _)) => if w < |s.writes| then Some(s.writes[w].state) else None
    case None => None
  }

  /** A flush would skip exactly if the document was saved and has gained no struct since. */
  lemma SkipsIffNoNewStructs(s: State, h: History)
    requires Sound(s, h) && s.cur.Some?
    ensures NothingToSave(s.insts[s.cur.value]) <==>
              LastSnapshot(s).Some? && SameStructs(LastSnapshot(s).value, s.insts[s.cur.value].doc)
  {
    var c := s.cur.value;
    assert RemembersAt(s, c);
    if LastSave(s.log, c).Some? {
      VectorDeterminesStructs(h, s.writes[LastSave(s.log, c).value.0].state, s.insts[c].doc);
    }
  }

  /**
   Whenever a flush would skip, the row is exactly the snapshot last saved.  So it holds all
   structs of the live document, and lacks of it exactly the deletions since that snapshot.
   */
  lemma SkipIsCurrent(s: State, h: History)
    requires Agrees(s, h) && s.cur.Some? && NothingToSave(s.insts[s.cur.value])
    ensures s.row.Some? && LastSnapshot(s) == Some(s.row.value.state)
    ensures SameStructs(s.row.value.state, s.insts[s.cur.value].doc)
    ensures s.row.value.state.deletes <= s.insts[s.cur.value].doc.deletes
    ensures s.row.value.state == s.insts[s.cur.value].doc <==>
              s.insts[s.cur.value].doc.deletes <= LastSnapshot(s).value.deletes
  {
    var c := s.cur.value;
    assert RemembersAt(s, c);
    var w := LastSave(s.log, c).value.0;
    VectorDeterminesStructs(h, s.writes[w].state, s.insts[c].doc);
    BelowAntisymmetric(s.row.value.state, s.insts[c].doc);
  }

  /** The same at every moment of every run that abandons no write. */
  lemma SkipMeansRowIsCurrent(row: Option<Row>, redis: Option<YDoc>, es: seq<Event>, h: History)
    requires row.Some? ==> ValidIn(row.value.state, h)
    requires RunIn(es, h) && NothingAbandoned(Init(row, redis), es)
    ensures var s := Run(Init(row, redis), es);
            s.cur.Some? && NothingToSave(s.insts[s.cur.value]) ==>
              var doc := s.insts[s.cur.value].doc;
              && s.row.Some? && LastSnapshot(s) == Some(s.row.value.state)
              && SameStructs(s.row.value.state, doc)
              && (s.row.value.state == doc <==> doc.deletes <= LastSnapshot(s).value.deletes)
  {
    InitIsSound(row, redis, h);
    RunKeepsAgrees(Init(row, redis), es, h);
    var s := Run(Init(row, redis), es);
    if s.cur.Some? && NothingToSave(s.insts[s.cur.value]) {
      SkipIsCurrent(s, h);
    }
  }

  /**
   One edit of a fully saved document: the next flush skips it exactly if it brings no new
   struct, and then the row is still the whole document exactly if it brings no new deletion.
   */
  lemma EditIsSkippedIff(s: State, e: Event, h: History)
    requires Agrees(s, h) && s.cur.Some? && NothingToSave(s.insts[s.cur.value])
    requires s.row.Some? && s.row.value.state == s.insts[s.cur.value].doc
    requires e.Sync? && EventIn(e, h)
    ensures var r, doc := Step(s, e), s.insts[s.cur.value].doc;
            && r.cur == s.cur && r.row == s.row
            && (NothingToSave(r.insts[r.cur.value]) <==> Below(e.update, doc))
            && (Below(e.update, doc) ==>
                  (r.row.value.state == r.insts[r.cur.value].doc <==> e.update.deletes <= doc.deletes))
  {
    var doc := s.insts[s.cur.value].doc;
    MergeOfKnownStructs(h, doc, e.update);
    VectorDeterminesStructs(h, s.row.value.state, doc);
    SkipIsCurrent(s, h);
    assert RemembersAt(s, s.cur.value);
    assert Step(s, e).insts[s.cur.value].doc == Merge(doc, e.update);
  }
}
