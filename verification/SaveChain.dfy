/** What every save writes, and what a record remembers of its last save. */
module SaveChain {
  import opened Wrappers
  import opened YDocs
  import opened ManagedDocs
  import opened NodeMachine
  import opened NodeFrames

  /** Updates and loaded states come from the one history. */
  ghost predicate EventIn(e: Event, h: History) {
    match e
    case Loaded(doc, _) => ValidIn(doc, h)
    case Sync(_, update, _, _) => ValidIn(update, h)
    case SubmitAppend(update, _, _) => ValidIn(update, h)
    case _ => true
  }

  /** Documents are histories' prefixes, and never lose what they were loaded with. */
  ghost predicate DocsIn(s: State, h: History)
    requires Wf(s)
  {
    && (forall i :: 0 <= i < |s.insts| ==>
          ValidIn(s.insts[i].doc, h) && ValidIn(s.base[i], h) && Within(s.base[i], s.insts[i].doc))
    && (forall t :: t in s.queue && t.AppendTask? ==> ValidIn(t.update, h))
    && (s.row.Some? ==> ValidIn(s.row.value.state, h))
  }

  /** The snapshots of one document form an increasing chain below the live document. */
  ghost predicate WritesIn(s: State, h: History)
    requires Wf(s)
  {
    && (forall w :: 0 <= w < |s.writes| ==>
          ValidIn(s.writes[w].state, h) && Within(s.writes[w].state, s.insts[s.writes[w].inst].doc))
    && (forall v, w :: 0 <= v < w < |s.writes| && s.writes[v].inst == s.writes[w].inst ==>
          Within(s.writes[v].state, s.writes[w].state))
  }

  ghost predicate Chain(s: State, h: History) {
    Wf(s) && DocsIn(s, h) && WritesIn(s, h)
  }

  /** The last save a record remembered, read off the history. */
  ghost function LastSave(log: seq<Entry>, i: nat): Option<(nat, Persisted)> {
    if log == [] then None
    else
      var e := log[|log| - 1];
      if e.Saved? && e.inst == i then Some((e.write, e.result)) else LastSave(log[..|log| - 1], i)
  }

  lemma {:induction false} SameLastSave(log: seq<Entry>, longer: seq<Entry>, i: nat)
    requires log <= longer && forall k :: |log| <= k < |longer| ==> !longer[k].Saved?
    ensures LastSave(longer, i) == LastSave(log, i)
    decreases |longer|
  {
    if |log| < |longer| {
      SameLastSave(log, longer[..|longer| - 1], i);
    } else {
      assert log == longer;
    }
  }

  /** A record remembers exactly the last of its saves that came back successful. */
  ghost predicate RemembersAt(s: State, i: nat)
    requires Wf(s)
  {
    match LastSave(s.log, i)
    case None => i < |s.insts| ==> s.insts[i].lastSavedVector.None? && s.insts[i].lastPersisted.None?
    case Some((w, p)) =>
      && i < |s.insts| && w < |s.writes|
      && s.writes[w].inst == i && s.writes[w].phase == Finished(p)
      && s.insts[i].lastSavedVector == Some(Vector(s.writes[w].state))
      && s.insts[i].lastPersisted == Some(p)
  }

  ghost predicate Remembers(s: State) {
    && Wf(s)
    && (s.pc.Saving? ==> s.pc.write == |s.writes| - 1)
    && forall i: nat :: RemembersAt(s, i)
  }

  ghost predicate Sound(s: State, h: History) {
    Chain(s, h) && Remembers(s)
  }

  // ── One handler at a time ──────────────────────────────────────────────────

  lemma LightKeepsChain(s: State, r: State, h: History)
    requires Chain(s, h) && Wf(r) && Light(s, r)
    ensures Chain(r, h)
  {
  }

  lemma LightKeepsRemembers(s: State, r: State)
    requires Remembers(s) && Wf(r) && Light(s, r)
    ensures Remembers(r)
  {
    forall i: nat ensures RemembersAt(r, i) {
      assert RemembersAt(s, i);
      SameLastSave(s.log, r.log, i);
      if i < |s.insts| {
        assert SameContents(s.insts[i], r.insts[i]);
      }
    }
  }

  lemma LightKeepsSound(s: State, r: State, h: History)
    requires Sound(s, h) && Wf(r) && Light(s, r)
    ensures Sound(r, h)
  {
    LightKeepsChain(s, r, h);
    LightKeepsRemembers(s, r);
  }

  lemma QuietKeepsSound(s: State, r: State, h: History)
    requires Sound(s, h) && Wf(r) && Quiet(s, r)
    ensures Sound(r, h)
  {
    QuietIsLight(s, r);
    LightKeepsSound(s, r, h);
  }

  /** A record changed to one whose document is at least as large. */
  lemma GrowKeepsSound(s: State, i: nat, m: Managed, h: History)
    requires Sound(s, h) && i < |s.insts|
    requires ValidIn(m.doc, h) && Within(s.insts[i].doc, m.doc)
    requires m.lastSavedVector == s.insts[i].lastSavedVector && m.lastPersisted == s.insts[i].lastPersisted
    ensures Sound(s.(insts := s.insts[i := m]), h)
  {
    var r := s.(insts := s.insts[i := m]);
    WithinTransitive(s.base[i], s.insts[i].doc, m.doc);
    forall w | 0 <= w < |r.writes| ensures Within(r.writes[w].state, r.insts[r.writes[w].inst].doc) {
      if r.writes[w].inst == i {
        WithinTransitive(s.writes[w].state, s.insts[i].doc, m.doc);
      }
    }
    forall k: nat ensures RemembersAt(r, k) {
      assert RemembersAt(s, k);
    }
  }

  /** A new snapshot is above all earlier ones of its document. */
  lemma SnapshotKeepsChain(s: State, h: History)
    requires Chain(s, h) && s.queue != [] && s.cur.Some? && !s.pc.Saving?
    requires !NothingToSave(s.insts[s.cur.value])
    ensures Chain(Flush(s), h)
  {
    var r := Flush(s);
    var s1 := s.(writes := r.writes, redisSent := r.redisSent, pc := r.pc);
    assert forall w :: 0 <= w < |s.writes| ==> r.writes[w] == s.writes[w];
    assert Chain(s1, h);
    LightKeepsChain(s1, r, h);
  }

  lemma SnapshotKeepsRemembers(s: State)
    requires Remembers(s) && s.queue != [] && s.cur.Some? && !s.pc.Saving?
    requires !NothingToSave(s.insts[s.cur.value])
    ensures Remembers(Flush(s))
  {
    var r := Flush(s);
    forall i: nat ensures RemembersAt(r, i) {
      assert RemembersAt(s, i);
    }
  }

  lemma FlushKeepsSound(s: State, h: History)
    requires Sound(s, h) && s.queue != [] && !s.pc.Saving?
    ensures Sound(Flush(s), h)
  {
    if s.cur.None? {
      EndIsQuiet(s, Persisted(0, 0), false);
      QuietKeepsSound(s, Flush(s), h);
    } else if NothingToSave(s.insts[s.cur.value]) {
      SkipIsLight(s);
      LightKeepsSound(s, Flush(s), h);
    } else {
      SnapshotKeepsChain(s, h);
      SnapshotKeepsRemembers(s);
    }
  }

  lemma TextKeepsSound(s: State, h: History)
    requires Sound(s, h) && s.queue != [] && s.queue[0].AppendTask? && s.cur.Some? && !s.pc.Saving?
    ensures Sound(WithText(s), h)
  {
    var i := s.cur.value;
    var m := Appended(s.insts[i], s.queue[0].update, s.queue[0].user);
    assert s.queue[0] in s.queue;
    MergeIsAbove(h, s.insts[i].doc, s.queue[0].update);
    GrowKeepsSound(s, i, m, h);
    LightKeepsSound(s.(insts := s.insts[i := m]), WithText(s), h);
  }

  lemma InsertKeepsSound(s: State, doc: YDoc, workspaceId: string, h: History)
    requires Sound(s, h) && ValidIn(doc, h) && Wf(Insert(s, doc, workspaceId))
    ensures Sound(Insert(s, doc, workspaceId), h)
  {
    var r := Insert(s, doc, workspaceId);
    assert forall i :: 0 <= i < |s.insts| ==> r.insts[i] == s.insts[i] && r.base[i] == s.base[i];
    forall i: nat ensures RemembersAt(r, i) {
      assert RemembersAt(s, i);
    }
  }

  /** A write that was still under way moves on. */
  lemma PhaseKeepsSound(s: State, w: nat, phase: Phase, h: History)
    requires Sound(s, h) && w < |s.writes| && Unsettled(s.writes[w]) && (phase.Failed? ==> !Owns(s, w))
    ensures Sound(SetPhase(s, w, phase), h)
  {
    var r := SetPhase(s, w, phase);
    forall i: nat ensures RemembersAt(r, i) {
      assert RemembersAt(s, i);
    }
  }

  lemma WriteFailsKeepsSound(s: State, w: nat, gone: bool, h: History)
    requires Sound(s, h) && w < |s.writes| && Unsettled(s.writes[w])
    ensures Sound(WriteFails(s, w, gone), h)
  {
    if Owns(s, w) {
      EndIsQuiet(s, Persisted(0, 0), gone);
      QuietKeepsSound(s, Fail(s, gone), h);
      PhaseKeepsSound(Fail(s, gone), w, Failed, h);
    } else {
      PhaseKeepsSound(s, w, Failed, h);
    }
  }

  lemma CommitKeepsSound(s: State, w: nat, now: nat, h: History)
    requires Sound(s, h) && w < |s.writes| && s.row.Some? && s.writes[w].phase.Opened?
    ensures Sound(CommitRow(s, w, now), h)
  {
    var v := s.row.value.version + 1;
    var s1 := SetPhase(s, w, Committed(Persisted(v, now)));
    PhaseKeepsSound(s, w, Committed(Persisted(v, now)), h);
    var r := CommitRow(s, w, now);
    forall i: nat ensures RemembersAt(r, i) {
      assert RemembersAt(s1, i);
      SameLastSave(s1.log, r.log, i);
    }
  }

  lemma ResultKeepsSound(s: State, h: History)
    requires Sound(s, h) && BothDone(s)
    ensures Sound(WithResult(s), h)
    ensures forall k: nat :: LastSave(WithResult(s).log, k) ==
              if k == s.pc.inst then Some((s.pc.write, s.writes[s.pc.write].phase.result)) else LastSave(s.log, k)
  {
    var r := WithResult(s);
    assert r.log[..|s.log|] == s.log;
    assert forall j :: 0 <= j < |s.insts| ==> r.insts[j].doc == s.insts[j].doc;
    forall k: nat
      ensures RemembersAt(r, k)
      ensures LastSave(r.log, k) ==
              if k == s.pc.inst then Some((s.pc.write, s.writes[s.pc.write].phase.result)) else LastSave(s.log, k)
    {
      assert RemembersAt(s, k);
    }
  }

  lemma ConcludeKeepsSound(s: State, h: History)
    requires Sound(s, h) && BothDone(s)
    ensures Sound(Conclude(s), h)
    ensures forall k: nat :: LastSave(Conclude(s).log, k) == LastSave(s.log, k)
  {
    var r := Conclude(s);
    var i := s.pc.inst;
    if EmbedDue(s.insts[i]) {
      var s1 := s.(insts := r.insts, pc := r.pc);
      QuietIsLight(s, s);
      assert Light(s, s1);
      LightKeepsSound(s, s1, h);
      forall k: nat ensures RemembersAt(r, k) && LastSave(r.log, k) == LastSave(s.log, k) {
        assert RemembersAt(s1, k);
        SameLastSave(s.log, r.log, k);
      }
    } else {
      EndIsQuiet(s, s.writes[s.pc.write].phase.result, false);
      QuietKeepsSound(s, r, h);
      forall k: nat ensures LastSave(r.log, k) == LastSave(s.log, k) {
        SameLastSave(s.log, r.log, k);
      }
    }
  }

  // ── Steps and runs ─────────────────────────────────────────────────────────

  lemma BeginKeepsSound(s: State, h: History)
    requires Sound(s, h) && s.queue != [] && s.pc.Waiting?
    ensures Sound(BeginTask(s), h)
  {
    if s.queue[0].FlushTask? {
      FlushKeepsSound(s, h);
    } else if s.cur.Some? {
      ReviveIsLight(s);
      LightKeepsSound(s, Revive(s), h);
      TextKeepsSound(Revive(s), h);
      FlushKeepsSound(WithText(Revive(s)), h);
    } else {
      QuietKeepsSound(s, BeginTask(s), h);
    }
  }

  lemma LoadedKeepsSound(s: State, doc: YDoc, workspaceId: string, h: History)
    requires Sound(s, h) && ValidIn(doc, h) && s.cur.None?
    ensures Sound(Step(s, Loaded(doc, workspaceId)), h)
  {
    if s.pc.Loading? {
      var s1 := s.(pc := Waiting);
      QuietKeepsSound(s, s1, h);
      InsertKeepsSound(s1, doc, workspaceId, h);
      TextKeepsSound(Insert(s1, doc, workspaceId), h);
      FlushKeepsSound(WithText(Insert(s1, doc, workspaceId)), h);
    } else {
      InsertKeepsSound(s, doc, workspaceId, h);
    }
  }

  lemma SyncKeepsSound(s: State, e: Event, h: History)
    requires Sound(s, h) && e.Sync? && EventIn(e, h) && s.cur.Some?
    ensures Sound(Step(s, e), h)
  {
    var m := s.insts[s.cur.value];
    var m1 := m.(doc := Merge(m.doc, e.update));
    MergeIsAbove(h, m.doc, e.update);
    GrowKeepsSound(s, s.cur.value, m1, h);
    var s1 := Put(s, s.cur.value, m1);
    if e.scheduled {
      ScheduleIsLight(s1, e.editor);
      LightKeepsSound(s1, ScheduleSave(s1, e.editor), h);
    }
  }

  lemma StoreKeepsSound(s: State, e: Event, h: History)
    requires Sound(s, h) && (e.DbMissing? || e.DbError? || e.AttachmentsSynced?)
    ensures Sound(Step(s, e), h)
  {
    if e.write < |s.writes| && Unsettled(s.writes[e.write]) {
      WriteFailsKeepsSound(s, e.write, e.DbMissing?, h);
      if e.AttachmentsSynced? && s.writes[e.write].phase.Committed? {
        PhaseKeepsSound(s, e.write, Finished(s.writes[e.write].phase.result), h);
      }
    }
  }

  lemma CommitStepKeepsSound(s: State, w: nat, now: nat, h: History)
    requires Sound(s, h)
    ensures Sound(Step(s, DbCommit(w, now)), h)
  {
    if w < |s.writes| && s.writes[w].phase.Opened? && s.row.Some? {
      CommitKeepsSound(s, w, now, h);
    }
  }

  lemma FinishKeepsSound(s: State, h: History)
    requires Sound(s, h)
    ensures Sound(Step(s, Finish), h)
  {
    if BothDone(s) {
      ResultKeepsSound(s, h);
      ConcludeKeepsSound(WithResult(s), h);
    }
  }

  lemma ClientsKeepSound(s: State, e: Event, h: History)
    requires Sound(s, h) && EventIn(e, h) && (e.Join? || e.Leave? || e.Sync?)
    ensures Sound(Step(s, e), h)
  {
    if e.Join? {
      JoinIsLight(s, e.socket);
      LightKeepsSound(s, Step(s, e), h);
    } else if e.Leave? {
      LeaveIsLight(s, e.socket);
      LightKeepsSound(s, Step(s, e), h);
    } else if s.cur.Some? {
      SyncKeepsSound(s, e, h);
    }
  }

  lemma SubmitKeepsSound(s: State, e: Event, h: History)
    requires Sound(s, h) && EventIn(e, h) && e.SubmitAppend?
    ensures Sound(Step(s, e), h)
  {
    forall i: nat ensures RemembersAt(Step(s, e), i) {
      assert RemembersAt(s, i);
    }
  }

  lemma StepKeepsSound(s: State, e: Event, h: History)
    requires Sound(s, h) && EventIn(e, h)
    ensures Sound(Step(s, e), h)
  {
    if IsQuiet(e) {
      QuietSteps(s, e);
      QuietKeepsSound(s, Step(s, e), h);
    } else if e.Join? || e.Leave? || e.Sync? {
      ClientsKeepSound(s, e, h);
    } else if e.DbMissing? || e.DbError? || e.AttachmentsSynced? {
      StoreKeepsSound(s, e, h);
    } else if e.SubmitAppend? {
      SubmitKeepsSound(s, e, h);
    } else {
      match e
      case Loaded(doc, ws) => if s.cur.None? { LoadedKeepsSound(s, doc, ws, h); }
      case Begin => if s.queue != [] && s.pc.Waiting? { BeginKeepsSound(s, h); }
      case DbCommit(w, now) => CommitStepKeepsSound(s, w, now, h);
      case Finish => FinishKeepsSound(s, h);
    }
  }

  ghost predicate RunIn(es: seq<Event>, h: History) {
    forall e :: e in es ==> EventIn(e, h)
  }

  /** In every run the snapshots written for a document grow, stay below it, and the last successful one is remembered. */
  lemma {:induction false} RunKeepsSound(s: State, es: seq<Event>, h: History)
    requires Sound(s, h) && RunIn(es, h)
    ensures Sound(Run(s, es), h)
    decreases |es|
  {
    if es != [] {
      StepKeepsSound(s, es[0], h);
      RunKeepsSound(Step(s, es[0]), es[1..], h);
    }
  }

  lemma InitIsSound(row: Option<Row>, redis: Option<YDoc>, h: History)
    requires row.Some? ==> ValidIn(row.value.state, h)
    ensures Sound(Init(row, redis), h)
  {
  }
}
