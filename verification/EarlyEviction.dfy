/** Exactly what an eviction timer loses when it fires before the node's queue is empty. */
module EarlyEviction {
  import opened Wrappers
  import opened YDocs
  import opened ManagedDocs
  import opened NodeMachine
  import opened NodeFrames
  import opened SaveChain
  import opened Agreement
  import opened Versions
  import opened Eviction

  /** A load brings no less than the row. */
  ghost predicate CoversRow(s: State, e: Event) {
    e.Loaded? && s.cur.None? && s.row.Some? ==> Below(s.row.value.state, e.doc)
  }

  ghost predicate LoadsCoverRow(s: State, es: seq<Event>)
    requires Wf(s)
    decreases |es|
  {
    es == [] || (CoversRow(s, es[0]) && LoadsCoverRow(Step(s, es[0]), es[1..]))
  }

  ghost predicate SavingCurrent(s: State) {
    s.pc.Saving? && s.cur == Some(s.pc.inst)
  }

  /** The row is no further than the loaded document's saves: its last snapshot, or at most what was loaded. */
  ghost predicate RowHeld(s: State)
    requires Wf(s)
  {
    s.cur.Some? && s.row.Some? ==>
      if SavingCurrent(s) then Below(s.row.value.state, s.writes[s.pc.write].state)
      else
        match LastSave(s.log, s.cur.value)
        case None => Below(s.row.value.state, s.base[s.cur.value])
        case Some((w, _)) => w < |s.writes| && s.row.value.state == s.writes[w].state
  }

  /** Every snapshot holds what its document was loaded with. */
  ghost predicate WritesHoldBase(s: State)
    requires Wf(s)
  {
    forall w :: 0 <= w < |s.writes| ==> Below(s.base[s.writes[w].inst], s.writes[w].state)
  }

  ghost predicate Held(s: State)
    requires Wf(s)
  {
    RowHeld(s) && WritesHoldBase(s)
  }

  /** Records and history changed only in what the row does not depend on, and no save ended. */
  lemma LightHolds(s: State, r: State)
    requires Wf(s) && Wf(r) && Held(s) && Light(s, r) && (s.pc.Saving? ==> r.pc.Saving?)
    ensures Held(r)
  {
    if r.cur.Some? {
      SameLastSave(s.log, r.log, r.cur.value);
    }
  }

  lemma SnapshotHolds(s: State, h: History)
    requires Agrees(s, h) && Held(s) && s.queue != [] && s.pc.Waiting? && s.cur.Some?
    requires !NothingToSave(s.insts[s.cur.value])
    ensures Held(Flush(s))
  {
    var c := s.cur.value;
    if s.row.Some? && LastSave(s.log, c).None? {
      BelowTransitive(s.row.value.state, s.base[c], s.insts[c].doc);
    }
    assert forall w :: 0 <= w < |s.writes| ==> Flush(s).writes[w] == s.writes[w];
  }

  lemma FlushHolds(s: State, h: History)
    requires Agrees(s, h) && Held(s) && s.queue != [] && s.pc.Waiting?
    ensures Held(Flush(s))
  {
    if s.cur.None? {
      EndIsQuiet(s, Persisted(0, 0), false);
      QuietIsLight(s, Flush(s));
      LightHolds(s, Flush(s));
    } else if NothingToSave(s.insts[s.cur.value]) {
      SkipIsLight(s);
      LightHolds(s, Flush(s));
    } else {
      SnapshotHolds(s, h);
    }
  }

  lemma TextHolds(s: State)
    requires Wf(s) && Held(s) && s.queue != [] && s.queue[0].AppendTask? && s.cur.Some? && s.pc.Waiting?
    ensures Held(WithText(s))
  {
    SameLastSave(s.log, WithText(s).log, s.cur.value);
  }

  lemma AppendHolds(s: State, h: History)
    requires Agrees(s, h) && Held(s) && s.queue != [] && s.queue[0].AppendTask? && s.cur.Some? && s.pc.Waiting?
    ensures Held(AppendAndFlush(s))
  {
    TextHolds(s);
    TextKeepsAgrees(s, h);
    FlushHolds(WithText(s), h);
  }

  lemma BeginHolds(s: State, h: History)
    requires Agrees(s, h) && Held(s) && s.queue != [] && s.pc.Waiting?
    ensures Held(BeginTask(s))
  {
    if s.queue[0].FlushTask? {
      FlushHolds(s, h);
    } else if s.cur.Some? {
      ReviveIsLight(s);
      LightKeepsSound(s, Revive(s), h);
      LightKeepsRow(s, Revive(s));
      LightHolds(s, Revive(s));
      AppendHolds(Revive(s), h);
    }
  }

  lemma InsertHolds(s: State, doc: YDoc, ws: string)
    requires Remembers(s) && Held(s) && s.cur.None? && Wf(Insert(s, doc, ws)) && !s.pc.Saving?
    requires s.row.Some? ==> Below(s.row.value.state, doc)
    ensures Held(Insert(s, doc, ws))
  {
    assert RemembersAt(s, |s.insts|);
  }

  lemma LoadedHolds(s: State, doc: YDoc, ws: string, h: History)
    requires Agrees(s, h) && Covered(s) && Held(s) && ValidIn(doc, h) && s.cur.None?
    requires CoversRow(s, Loaded(doc, ws))
    ensures Held(Step(s, Loaded(doc, ws)))
  {
    var s1 := s.(pc := if s.pc.Loading? then Waiting else s.pc);
    QuietKeepsSound(s, s1, h);
    InsertHolds(s1, doc, ws);
    if s.pc.Loading? {
      InsertKeepsSound(s1, doc, ws, h);
      InsertKeepsRow(s1, doc, ws);
      AppendHolds(Insert(s1, doc, ws), h);
    }
  }

  lemma CommitHolds(s: State, w: nat, now: nat)
    requires Wf(s) && Covered(s) && Held(s) && OnlyOwnWrite(s)
    requires w < |s.writes| && s.writes[w].phase.Opened? && s.row.Some?
    ensures Held(CommitRow(s, w, now))
  {
    assert Owns(s, w);
  }

  lemma SyncedHolds(s: State, w: nat)
    requires Wf(s) && Held(s)
    ensures Held(Step(s, AttachmentsSynced(w, true)))
  {
  }

  /** The save that returned is the one the row holds. */
  lemma SavedHolds(s: State, r: State, p: Persisted)
    requires Wf(s) && Wf(r) && Held(s) && s.pc.Saving? && s.cur == r.cur && RowIsLastCommit(s)
    requires !s.writes[s.pc.write].phase.Opened? && (s.cur.Some? ==> s.cur.value == s.pc.inst)
    requires r.row == s.row && r.writes == s.writes && r.base == s.base && !r.pc.Saving?
    requires LastSave(r.log, s.pc.inst) == Some((s.pc.write, p))
    ensures Held(r)
  {
  }

  lemma FinishHolds(s: State, h: History)
    requires Agrees(s, h) && Covered(s) && Held(s) && BothDone(s)
    ensures Held(Conclude(WithResult(s)))
  {
    ResultKeepsSound(s, h);
    ConcludeKeepsSound(WithResult(s), h);
    ConcludeLooks(s);
    SavedHolds(s, Conclude(WithResult(s)), s.writes[s.pc.write].phase.result);
  }

  lemma SyncHolds(s: State, e: Event)
    requires Wf(s) && Held(s) && e.Sync? && s.cur.Some?
    ensures Held(Step(s, e))
  {
    var m := s.insts[s.cur.value];
    var s1 := Put(s, s.cur.value, m.(doc := Merge(m.doc, e.update)));
    assert Held(s1);
    if e.scheduled {
      ScheduleIsLight(s1, e.editor);
      LightHolds(s1, ScheduleSave(s1, e.editor));
    }
  }

  lemma ReplyHolds(s: State)
    requires Wf(s) && Held(s) && s.redisSent != []
    ensures Held(Reply(s, true))
  {
    ReplyIsQuiet(s, true);
    QuietIsLight(s, Reply(s, true));
    LightHolds(s, Reply(s, true));
  }

  lemma QuietHolds(s: State, e: Event)
    requires Wf(s) && Held(s) && Benign(s, e) && IsQuiet(e) && !e.RedisReply?
    ensures Held(Step(s, e))
  {
    QuietSteps(s, e);
    QuietIsLight(s, Step(s, e));
    LightHolds(s, Step(s, e));
  }

  lemma StepHolds(s: State, e: Event, h: History)
    requires Agrees(s, h) && Covered(s) && Held(s) && EventIn(e, h) && Benign(s, e) && CoversRow(s, e)
    ensures Held(Step(s, e))
  {
    if IsQuiet(e) && !e.RedisReply? {
      QuietHolds(s, e);
    } else {
      match e
      case Loaded(doc, ws) => if s.cur.None? { LoadedHolds(s, doc, ws, h); }
      case Join(socket) =>
        JoinIsLight(s, socket);
        LightHolds(s, Step(s, e));
      case Leave(socket) =>
        LeaveIsLight(s, socket);
        LightHolds(s, Step(s, e));
      case Sync(_, _, _, _) => if s.cur.Some? { SyncHolds(s, e); }
      case SubmitAppend(_, _, _) =>
      case Begin => if s.queue != [] && s.pc.Waiting? { BeginHolds(s, h); }
      case RedisReply(ok) => if s.redisSent != [] { ReplyHolds(s); }
      case DbCommit(w, now) =>
        if w < |s.writes| && s.writes[w].phase.Opened? && s.row.Some? { CommitHolds(s, w, now); }
      case AttachmentsSynced(w, ok) => SyncedHolds(s, w);
      case Finish => if BothDone(s) { FinishHolds(s, h); }
    }
  }

  lemma {:induction false} RunHolds(s: State, es: seq<Event>, h: History)
    requires Agrees(s, h) && Covered(s) && Held(s) && RunIn(es, h) && BenignRun(s, es) && LoadsCoverRow(s, es)
    ensures Agrees(Run(s, es), h) && Covered(Run(s, es)) && Held(Run(s, es))
    decreases |es|
  {
    if es != [] {
      StepKeepsAgrees(s, es[0], h);
      StepCovers(s, es[0], h);
      StepHolds(s, es[0], h);
      RunHolds(Step(s, es[0]), es[1..], h);
    }
  }

  // ── What is lost ───────────────────────────────────────────────────────────

  /** The row, or the write of the loaded document about to commit, holds the struct. */
  ghost predicate Stored(s: State, c: nat, clock: nat)
    requires Wf(s)
  {
    || (s.row.Some? && Holds(s.row.value.state, c, clock))
    || (SavingCurrent(s) && Holds(s.writes[s.pc.write].state, c, clock))
  }

  /** The struct came into the loaded document since it was loaded. */
  ghost predicate Gained(s: State, c: nat, clock: nat)
    requires Wf(s) && s.cur.Some?
  {
    Holds(s.insts[s.cur.value].doc, c, clock) && !Holds(s.base[s.cur.value], c, clock)
  }

  ghost predicate AllStored(s: State)
    requires Wf(s) && s.cur.Some?
  {
    forall c, clock: nat :: Gained(s, c, clock) ==> Stored(s, c, clock)
  }

  lemma SameStructsHold(a: YDoc, b: YDoc)
    requires SameStructs(a, b)
    ensures forall c, clock: nat :: Holds(a, c, clock) <==> Holds(b, c, clock)
  {
  }

  /** A document that has grown beyond another holds a struct right where the other ends. */
  lemma GrewBeyond(h: History, a: YDoc, b: YDoc) returns (c: nat)
    requires ValidIn(a, h) && ValidIn(b, h) && Below(a, b) && Vector(a) != Vector(b)
    ensures Holds(b, c, Clock(a, c)) && !Holds(a, c, Clock(a, c))
  {
    BelowIffClocks(h, a, b);
    if forall c :: Clock(b, c) <= Clock(a, c) {
      SameClocksSameStructs(h, a, b);
      assert false;
    }
    c :| Clock(a, c) < Clock(b, c);
  }

  lemma BelowHolds(a: YDoc, b: YDoc, c: nat, clock: nat)
    requires Below(a, b) && Holds(a, c, clock)
    ensures Holds(b, c, clock)
  {
  }

  /** What saving has reached: the write under way, else the last snapshot, else what was loaded. */
  ghost function Reached(s: State): YDoc
    requires Wf(s) && s.cur.Some?
  {
    if SavingCurrent(s) then s.writes[s.pc.write].state
    else if LastSnapshot(s).Some? then LastSnapshot(s).value
    else s.base[s.cur.value]
  }

  lemma ReachedIsBetween(s: State, h: History)
    requires Agrees(s, h) && Held(s) && s.cur.Some?
    ensures ValidIn(Reached(s), h) && Below(Reached(s), s.insts[s.cur.value].doc)
    ensures Below(s.base[s.cur.value], Reached(s))
    ensures s.row.Some? ==> Below(s.row.value.state, Reached(s))
  {
    assert RemembersAt(s, s.cur.value);
  }

  /** Saving has reached the live document exactly if nothing is behind, or nothing was gained. */
  lemma ReachedIff(s: State, h: History)
    requires Agrees(s, h) && Held(s) && s.cur.Some?
    ensures Vector(Reached(s)) == Vector(s.insts[s.cur.value].doc) <==>
              !Behind(s) || SameStructs(s.insts[s.cur.value].doc, s.base[s.cur.value])
  {
    var c := s.cur.value;
    assert RemembersAt(s, c);
    var doc, base := s.insts[c].doc, s.base[c];
    VectorDeterminesStructs(h, doc, base);
    ReachedIsBetween(s, h);
    VectorDeterminesStructs(h, Reached(s), doc);
    if SameStructs(doc, base) {
      BelowAntisymmetric(Reached(s), doc);
    }
  }

  lemma StoredIffReached(s: State, h: History)
    requires Agrees(s, h) && Held(s) && s.cur.Some?
    ensures AllStored(s) <==> Vector(Reached(s)) == Vector(s.insts[s.cur.value].doc)
  {
    var doc, base := s.insts[s.cur.value].doc, s.base[s.cur.value];
    ReachedIsBetween(s, h);
    if Vector(Reached(s)) == Vector(doc) {
      VectorDeterminesStructs(h, Reached(s), doc);
      forall c, clock: nat | Gained(s, c, clock) ensures Stored(s, c, clock) {
        SameStructsHold(Reached(s), doc);
      }
    } else {
      var c := GrewBeyond(h, Reached(s), doc);
      var clock := Clock(Reached(s), c);
      if Holds(base, c, clock) { BelowHolds(base, Reached(s), c, clock); }
      if s.row.Some? && Holds(s.row.value.state, c, clock) { BelowHolds(s.row.value.state, Reached(s), c, clock); }
      assert Gained(s, c, clock) && !Stored(s, c, clock);
    }
  }

  /**
   An idle timer fires after a benign run, whether or not the queue is empty, and drops the
   document.  What the document gained since its load is in the row or in the write about to
   commit if and only if no struct is behind the saves, or none was gained at all.
   */
  lemma EvictionKeepsAllIff(row: Option<Row>, redis: Option<YDoc>, es: seq<Event>, t: nat, h: History)
    requires row.Some? ==> ValidIn(row.value.state, h)
    requires RunIn(es, h) && BenignRun(Init(row, redis), es) && LoadsCoverRow(Init(row, redis), es)
    requires Evicts(Run(Init(row, redis), es), TimerFired(t))
    ensures var s := Run(Init(row, redis), es);
            AllStored(s) <==> !Behind(s) || SameStructs(s.insts[s.cur.value].doc, s.base[s.cur.value])
  {
    InitIsSound(row, redis, h);
    RunHolds(Init(row, redis), es, h);
    var s := Run(Init(row, redis), es);
    ReachedIff(s, h);
    StoredIffReached(s, h);
  }

  /** In any run that abandons no write, failures and early evictions included, nothing behind means nothing lost. */
  lemma NothingBehindIsStored(s: State, h: History)
    requires Agrees(s, h) && s.cur.Some? && !Behind(s)
    ensures AllStored(s)
  {
    var doc := s.insts[s.cur.value].doc;
    if SavingCurrent(s) {
      VectorDeterminesStructs(h, s.writes[s.pc.write].state, doc);
      SameStructsHold(s.writes[s.pc.write].state, doc);
    } else {
      SkipIsCurrent(s, h);
      SameStructsHold(s.row.value.state, doc);
    }
  }
}
