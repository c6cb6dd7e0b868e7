/** Which committed write the row comes from, in every run, and when a commit sets the row back. */
module RowHistory {
  import opened Wrappers
  import opened YDocs
  import opened ManagedDocs
  import opened NodeMachine
  import opened NodeFrames
  import opened SaveChain
  import opened Agreement

  ghost function LastCommit(log: seq<Entry>): Option<nat> {
    if log == [] then None
    else
      var e := log[|log| - 1];
      if e.Commit? then Some(e.write) else LastCommit(log[..|log| - 1])
  }

  lemma {:induction false} SameLastCommit(log: seq<Entry>, longer: seq<Entry>)
    requires log <= longer && forall k :: |log| <= k < |longer| ==> !longer[k].Commit?
    ensures LastCommit(longer) == LastCommit(log)
    decreases |longer|
  {
    if |log| < |longer| {
      SameLastCommit(log, longer[..|longer| - 1]);
    } else {
      assert log == longer;
    }
  }

  /** The row is the snapshot of the write that committed last. */
  ghost predicate RowIsLastWrite(s: State) {
    match LastCommit(s.log)
    case None => true
    case Some(v) => v < |s.writes| && s.row.Some? && s.row.value.state == s.writes[v].state
  }

  /** A write keeps its record and its snapshot. */
  ghost predicate WritesStay(s: State, r: State) {
    && |s.writes| <= |r.writes|
    && forall w :: 0 <= w < |s.writes| ==> r.writes[w].inst == s.writes[w].inst && r.writes[w].state == s.writes[w].state
  }

  lemma FlushKeepsWrites(s: State)
    requires Wf(s) && s.queue != [] && s.pc.Waiting?
    ensures WritesStay(s, Flush(s))
  {
  }

  lemma BeginKeepsWrites(s: State)
    requires Wf(s) && s.queue != [] && s.pc.Waiting?
    ensures WritesStay(s, BeginTask(s))
  {
    if s.queue[0].FlushTask? {
      FlushKeepsWrites(s);
    } else if s.cur.Some? {
      FlushKeepsWrites(WithText(Revive(s)));
    }
  }

  lemma LoadedKeepsWrites(s: State, doc: YDoc, ws: string)
    requires Wf(s)
    ensures WritesStay(s, Step(s, Loaded(doc, ws)))
  {
    if s.cur.None? && s.pc.Loading? {
      FlushKeepsWrites(WithText(Insert(s.(pc := Waiting), doc, ws)));
    }
  }

  lemma TasksKeepWrites(s: State, e: Event)
    requires Wf(s) && (e.Loaded? || e.Begin? || e.Finish?)
    ensures WritesStay(s, Step(s, e))
  {
    if e.Loaded? {
      LoadedKeepsWrites(s, e.doc, e.workspaceId);
    } else if e.Begin? {
      if s.queue != [] && s.pc.Waiting? { BeginKeepsWrites(s); }
    } else if BothDone(s) {
      ConcludeLooks(s);
    }
  }

  lemma StoresKeepWrites(s: State, e: Event)
    requires Wf(s) && (e.DbMissing? || e.DbError? || e.AttachmentsSynced?)
    ensures WritesStay(s, Step(s, e))
  {
    if Owns(s, e.write) {
      EndIsQuiet(s, Persisted(0, 0), e.DbMissing?);
    }
  }

  lemma CommitKeepsWrites(s: State, w: nat, now: nat)
    requires Wf(s)
    ensures WritesStay(s, Step(s, DbCommit(w, now)))
  {
  }

  lemma ClientsKeepWrites(s: State, e: Event)
    requires Wf(s) && (e.Join? || e.Leave? || e.Sync? || e.SubmitAppend?)
    ensures WritesStay(s, Step(s, e))
  {
  }

  lemma StepKeepsWrites(s: State, e: Event)
    requires Wf(s)
    ensures WritesStay(s, Step(s, e))
  {
    if IsQuiet(e) {
      QuietSteps(s, e);
    } else if e.Loaded? || e.Begin? || e.Finish? {
      TasksKeepWrites(s, e);
    } else if e.Join? || e.Leave? || e.Sync? || e.SubmitAppend? {
      ClientsKeepWrites(s, e);
    } else if e.DbCommit? {
      CommitKeepsWrites(s, e.write, e.now);
    } else {
      StoresKeepWrites(s, e);
    }
  }

  lemma CommitIsLast(s: State, w: nat, now: nat)
    requires Wf(s) && w < |s.writes| && s.row.Some?
    ensures RowIsLastWrite(CommitRow(s, w, now)) && LastCommit(CommitRow(s, w, now).log) == Some(w)
  {
  }

  lemma StepKeepsLastWrite(s: State, e: Event)
    requires Wf(s) && RowIsLastWrite(s)
    ensures RowIsLastWrite(Step(s, e))
  {
    if e.DbCommit? {
      if e.write < |s.writes| && s.row.Some? { CommitIsLast(s, e.write, e.now); }
    } else {
      StepLog(s, e);
      StepKeepsWrites(s, e);
      SameLastCommit(s.log, Step(s, e).log);
    }
  }

  lemma {:induction false} RunKeepsLastWrite(s: State, es: seq<Event>)
    requires Wf(s) && RowIsLastWrite(s)
    ensures RowIsLastWrite(Run(s, es))
    decreases |es|
  {
    if es != [] {
      StepKeepsLastWrite(s, es[0]);
      RunKeepsLastWrite(Step(s, es[0]), es[1..]);
    }
  }

  lemma SnapshotsBelowIff(s: State, w: nat, v: nat, h: History)
    requires Chain(s, h) && w < |s.writes| && v < |s.writes| && s.writes[w].inst == s.writes[v].inst
    ensures Below(s.writes[v].state, s.writes[w].state) <==>
              !(w < v && Newer(s.writes[v].state, s.writes[w].state))
  {
    VectorDeterminesStructs(h, s.writes[v].state, s.writes[w].state);
    if w < v && Below(s.writes[v].state, s.writes[w].state) {
      BelowAntisymmetric(s.writes[v].state, s.writes[w].state);
    }
  }

  /**
   In every run, with any failures: a commit takes a struct out of the row that the same record
   had put there if and only if its write is older than the one that committed last and lacks
   structs of it.  Such a write has been abandoned by its flush.
   */
  lemma CommitSetsRowBackIff(row: Option<Row>, redis: Option<YDoc>, es: seq<Event>, h: History, w: nat, now: nat)
    requires (row.Some? ==> ValidIn(row.value.state, h)) && RunIn(es, h)
    requires var s := Run(Init(row, redis), es);
             && w < |s.writes| && s.writes[w].phase.Opened?
             && LastCommit(s.log).Some? && LastCommit(s.log).value < |s.writes|
             && s.writes[LastCommit(s.log).value].inst == s.writes[w].inst
    ensures var s := Run(Init(row, redis), es);
            var v, r := LastCommit(s.log).value, Step(s, DbCommit(w, now));
            && s.row.Some? && r.row.Some?
            && (!Below(s.row.value.state, r.row.value.state) <==>
                  w < v && Newer(s.writes[v].state, s.writes[w].state))
            && (!Below(s.row.value.state, r.row.value.state) ==> !Owns(s, w))
  {
    InitIsSound(row, redis, h);
    RunKeepsSound(Init(row, redis), es, h);
    RunKeepsLastWrite(Init(row, redis), es);
    var s := Run(Init(row, redis), es);
    SnapshotsBelowIff(s, w, LastCommit(s.log).value, h);
    assert Step(s, DbCommit(w, now)) == CommitRow(s, w, now);
  }
}
