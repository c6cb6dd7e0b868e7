/**
 Attachment syncs of many nodes interleaved at every repository call.  Syncs of one node do not
 overlap, because they run inside that node's operation queue; a release is a sync that
 references nothing.
 */
module AttachmentSyncs {
  import opened AttachmentStore

  datatype Pc =
    | Asked
    | Adding(add: set<string>, remove: set<string>)
    | Activating(add: set<string>, remove: set<string>)
    | Removing(remove: set<string>)
    | Counting(remove: set<string>)
    | Orphaning(orphans: set<string>)
    | Done
    | Failed

  /** One sync; `changed` are the files whose rows it decided to change. */
  datatype Call = Call(node: string, referenced: set<string>, changed: set<string>, pc: Pc)

  datatype State = State(store: Store, calls: seq<Call>)

  datatype Event = Begin(node: string, referenced: set<string>) | Advance(call: nat) | Fail(call: nat)

  predicate Open(c: Call) {
    !c.pc.Done? && !c.pc.Failed?
  }

  predicate NodeBusy(s: State, node: string) {
    exists c :: 0 <= c < |s.calls| && s.calls[c].node == node && Open(s.calls[c])
  }

  function AfterAdding(remove: set<string>): Pc {
    if remove == {} then Done else Removing(remove)
  }

  /** The next repository call of a sync: the tables after it, and where the sync goes on. */
  function NextCall(st: Store, c: Call): (Store, Call) {
    match c.pc
    case Asked =>
      var add, remove := ToAdd(st, c.node, c.referenced), ToRemove(st, c.node, c.referenced);
      (st, c.(changed := add + remove, pc := if add == {} then AfterAdding(remove) else Adding(add, remove)))
    case Adding(add, remove) => (CreateAttachments(st, c.node, add), c.(pc := Activating(add, remove)))
    case Activating(add, remove) => (Mark(st, add, Active), c.(pc := AfterAdding(remove)))
    case Removing(remove) => (DeleteAttachments(st, c.node, remove), c.(pc := Counting(remove)))
    case Counting(remove) =>
      var orphans := Unreferenced(st, remove);
      (st, c.(pc := if orphans == {} then Done else Orphaning(orphans)))
    case Orphaning(orphans) => (Mark(st, orphans, Orphan), c.(pc := Done))
    case _ => (st, c)
  }

  function Step(s: State, e: Event): State {
    match e
    case Begin(node, referenced) =>
      if NodeBusy(s, node) then s else s.(calls := s.calls + [Call(node, referenced, {}, Asked)])
    case Advance(c) =>
      if c < |s.calls| && Open(s.calls[c]) then
        var next := NextCall(s.store, s.calls[c]);
        State(next.0, s.calls[c := next.1])
      else s
    case Fail(c) =>
      if c < |s.calls| && Open(s.calls[c]) then s.(calls := s.calls[c := s.calls[c].(pc := Failed)]) else s
  }

  function Run(s: State, es: seq<Event>): State
    decreases |es|
  {
    if es == [] then s else Run(Step(s, es[0]), es[1..])
  }

  // ── Rows ───────────────────────────────────────────────────────────────────

  /** What the rows of a call's node look like at each point of the call. */
  ghost predicate RowsFit(st: Store, c: Call) {
    var now := AttachedTo(st, c.node);
    match c.pc
    case Adding(add, remove) =>
      add == c.referenced - now && remove == now - c.referenced && c.changed == add + remove
    case Activating(add, remove) => now == c.referenced + remove && remove !! c.referenced && c.changed == add + remove
    case Removing(remove) => now == c.referenced + remove && remove !! c.referenced && remove <= c.changed
    case Counting(remove) => now == c.referenced && remove <= c.changed
    case Orphaning(orphans) => now == c.referenced && orphans <= c.changed
    case _ => true
  }

  ghost predicate RowsValid(s: State) {
    && (forall c :: 0 <= c < |s.calls| ==> RowsFit(s.store, s.calls[c]))
    && (forall c, d :: 0 <= c < d < |s.calls| && Open(s.calls[c]) && Open(s.calls[d]) ==>
          s.calls[c].node != s.calls[d].node)
  }

  /** One repository call of a sync: other nodes' rows stay, and the sync's own rows are as they should be. */
  lemma NextCallRows(st: Store, c: Call)
    requires RowsFit(st, c) && Open(c)
    ensures var next := NextCall(st, c);
            && (forall m :: m != c.node ==> AttachedTo(next.0, m) == AttachedTo(st, m))
            && next.1.node == c.node && next.1.referenced == c.referenced && RowsFit(next.0, next.1)
            && (next.1.pc.Done? ==> AttachedTo(next.0, c.node) == c.referenced)
  {
  }

  lemma FitElsewhere(st: Store, r: Store, c: Call)
    requires RowsFit(st, c) && AttachedTo(r, c.node) == AttachedTo(st, c.node)
    ensures RowsFit(r, c)
  {
  }

  lemma StepKeepsRows(s: State, e: Event)
    requires RowsValid(s)
    ensures RowsValid(Step(s, e))
  {
    var r := Step(s, e);
    if e.Advance? && e.call < |s.calls| && Open(s.calls[e.call]) {
      var c := s.calls[e.call];
      NextCallRows(s.store, c);
      forall d | 0 <= d < |r.calls| ensures RowsFit(r.store, r.calls[d]) {
        if d != e.call && Open(s.calls[d]) {
          FitElsewhere(s.store, r.store, s.calls[d]);
        }
      }
    }
  }

  lemma {:induction false} RunKeepsRows(s: State, es: seq<Event>)
    requires RowsValid(s)
    ensures RowsValid(Run(s, es))
    decreases |es|
  {
    if es != [] {
      StepKeepsRows(s, es[0]);
      RunKeepsRows(Step(s, es[0]), es[1..]);
    }
  }

  /**
   However syncs of other nodes interleave and fail, and whatever the rows were at the start:
   the step that completes a sync leaves its node with exactly the referenced files.
   */
  lemma CompletedSyncFits(st: Store, es: seq<Event>, e: Event, c: nat)
    requires var s := Run(State(st, []), es);
             c < |s.calls| && Open(s.calls[c]) && Step(s, e).calls[c].pc.Done?
    ensures var s := Run(State(st, []), es);
            AttachedTo(Step(s, e).store, s.calls[c].node) == s.calls[c].referenced
  {
    RunKeepsRows(State(st, []), es);
    var s := Run(State(st, []), es);
    NextCallRows(s.store, s.calls[c]);
  }

  /** A step changes rows of no node but the one whose sync advances. */
  lemma StepTouchesOneNode(st: Store, es: seq<Event>, e: Event, node: string)
    requires var s := Run(State(st, []), es);
             !(e.Advance? && e.call < |s.calls| && s.calls[e.call].node == node)
    ensures var s := Run(State(st, []), es);
            AttachedTo(Step(s, e).store, node) == AttachedTo(s.store, node)
  {
  }

  // ── A sync by itself ───────────────────────────────────────────────────────

  /** One sync makes `k` repository calls while nothing else happens. */
  function Driven(s: State, c: nat, k: nat): State
    decreases k
  {
    if k == 0 then s else Driven(Step(s, Advance(c)), c, k - 1)
  }

  lemma MarkingNothing(st: Store, status: Status)
    ensures Mark(st, {}, status) == st
  {
    assert Mark(st, {}, status).status == st.status;
  }

  lemma RowsOfNothing(st: Store, node: string)
    ensures CreateAttachments(st, node, {}) == st && DeleteAttachments(st, node, {}) == st
  {
    assert RowsOf({}, node) == {};
  }

  /** The tables and the call after adding, whether or not there was anything to add. */
  lemma AddingIsDone(s: State, c: nat) returns (k: nat)
    requires c < |s.calls| && s.calls[c].pc.Asked?
    ensures k <= 3
    ensures var call := s.calls[c];
            var add, remove := ToAdd(s.store, call.node, call.referenced), ToRemove(s.store, call.node, call.referenced);
            Driven(s, c, k) == State(SyncUpTo(s.store, call.node, call.referenced, Activated),
                                     s.calls[c := call.(changed := add + remove, pc := AfterAdding(remove))])
  {
    var call := s.calls[c];
    var add, remove := ToAdd(s.store, call.node, call.referenced), ToRemove(s.store, call.node, call.referenced);
    assert Driven(s, c, 0) == s;
    if add == {} {
      k := 1;
      RowsOfNothing(s.store, call.node);
      MarkingNothing(s.store, Active);
      assert Driven(Step(s, Advance(c)), c, 0) == Step(s, Advance(c));
    } else {
      k := 3;
      var s1 := Step(s, Advance(c));
      var s2 := Step(s1, Advance(c));
      var s3 := Step(s2, Advance(c));
      assert Driven(s2, c, 1) == Driven(s3, c, 0) == s3;
      assert Driven(s1, c, 2) == s3;
    }
  }

  lemma {:induction false} DrivenOn(s: State, c: nat, j: nat, k: nat)
    ensures Driven(s, c, j + k) == Driven(Driven(s, c, j), c, k)
    decreases j
  {
    if j > 0 {
      DrivenOn(Step(s, Advance(c)), c, j - 1, k);
    }
  }

  /** The tables after taking off, whether or not there was anything to take off or to orphan. */
  lemma RemovingIsDone(s: State, c: nat, remove: set<string>) returns (k: nat)
    requires c < |s.calls| && s.calls[c].pc == AfterAdding(remove)
    ensures k <= 3
    ensures var removed := DeleteAttachments(s.store, s.calls[c].node, remove);
            Driven(s, c, k) == State(Mark(removed, Unreferenced(removed, remove), Orphan), s.calls[c := s.calls[c].(pc := Done)])
  {
    var removed := DeleteAttachments(s.store, s.calls[c].node, remove);
    assert Driven(s, c, 0) == s;
    if remove == {} {
      k := 0;
      RowsOfNothing(s.store, s.calls[c].node);
      assert Unreferenced(removed, remove) == {};
      MarkingNothing(removed, Orphan);
    } else {
      var s1 := Step(s, Advance(c));
      var s2 := Step(s1, Advance(c));
      assert Driven(s1, c, 1) == Driven(s2, c, 0) == s2;
      if Unreferenced(removed, remove) == {} {
        k := 2;
        MarkingNothing(removed, Orphan);
      } else {
        k := 3;
        var s3 := Step(s2, Advance(c));
        assert Driven(s2, c, 1) == Driven(s3, c, 0) == s3;
        assert Driven(s1, c, 2) == s3;
      }
    }
  }

  /** Undisturbed, a sync is over after at most six repository calls, and has done to the tables all that a sync does. */
  lemma UndisturbedSyncCompletes(s: State, node: string, referenced: set<string>) returns (k: nat)
    requires !NodeBusy(s, node)
    ensures k <= 6
    ensures var c := |s.calls|;
            var r := Driven(Step(s, Begin(node, referenced)), c, k);
            && |r.calls| == c + 1 && r.calls[c].pc.Done? && r.store == Sync(s.store, node, referenced)
            && AttachedTo(r.store, node) == referenced
  {
    var c := |s.calls|;
    var s1 := Step(s, Begin(node, referenced));
    var remove := ToRemove(s.store, node, referenced);
    var j := AddingIsDone(s1, c);
    var i := RemovingIsDone(Driven(s1, c, j), c, remove);
    k := j + i;
    DrivenOn(s1, c, j, i);
    SyncSetsRows(s.store, node, referenced);
  }

  // ── Statuses ───────────────────────────────────────────────────────────────

  /** What the files a call changes look like at each point of the call. */
  ghost predicate StatusFits(st: Store, c: Call, f: string) {
    match c.pc
    case Activating(add, remove) => if f in add then Attached(st, f) else Right(st, f)
    case Counting(remove) => if f in remove then f in st.status ==> st.status[f].Active? else Right(st, f)
    case Orphaning(orphans) => if f in orphans then !Attached(st, f) else Right(st, f)
    case _ => Right(st, f)
  }

  /** Files that no open call is changing are right, the others as far as their call has got. */
  ghost predicate StatusValid(s: State) {
    && (forall c, f :: 0 <= c < |s.calls| && Open(s.calls[c]) && f in s.calls[c].changed ==>
          StatusFits(s.store, s.calls[c], f))
    && (forall f :: (forall c :: 0 <= c < |s.calls| && Open(s.calls[c]) ==> f !in s.calls[c].changed) ==> Right(s.store, f))
  }

  /** Open calls change different files. */
  ghost predicate Apart(s: State) {
    forall c, d :: 0 <= c < d < |s.calls| && Open(s.calls[c]) && Open(s.calls[d]) ==> s.calls[c].changed !! s.calls[d].changed
  }

  /** Where a sync finds nothing left to do for a file, the file is right. */
  ghost predicate Finishes(st: Store, c: Call) {
    forall f :: f in c.changed ==> Right(st, f)
  }

  lemma NextCallStatus(st: Store, c: Call)
    requires Open(c) && RowsFit(st, c) && (c.pc.Asked? ==> c.changed == {})
    requires forall f :: f in c.changed ==> StatusFits(st, c, f)
    requires c.pc.Asked? ==> forall f :: f in NextCall(st, c).1.changed ==> Right(st, f)
    ensures var next := NextCall(st, c);
            && (forall f :: f in next.1.changed ==> StatusFits(next.0, next.1, f))
            && (next.1.pc.Done? ==> Finishes(next.0, next.1))
  {
    match c.pc
    case Adding(add, remove) => CreateEffect(st, c.node, add);
    case Activating(add, remove) => SameRows(st, Mark(st, add, Active));
    case Removing(remove) =>
      DeleteEffect(st, c.node, remove);
      forall f | f in remove ensures Attached(st, f) {
        assert f in AttachedTo(st, c.node);
      }
    case Counting(remove) =>
      assert forall f :: f in remove ==> (f in Unreferenced(st, remove) <==> !Attached(st, f));
    case Orphaning(orphans) => SameRows(st, Mark(st, orphans, Orphan));
    case _ =>
  }

  /** A repository call changes attachment and status of no file outside the call's own. */
  lemma NextCallLeavesOthers(st: Store, c: Call, f: string)
    requires Open(c) && RowsFit(st, c) && f !in NextCall(st, c).1.changed
    ensures var r := NextCall(st, c).0;
            && (Attached(r, f) <==> Attached(st, f))
            && (f in r.status <==> f in st.status) && (f in st.status ==> r.status[f] == st.status[f])
  {
  }

  ghost predicate Valid(s: State) {
    && RowsValid(s) && StatusValid(s) && Apart(s)
    && (forall c :: 0 <= c < |s.calls| && s.calls[c].pc.Asked? ==> s.calls[c].changed == {})
  }

  lemma AdvanceKeepsValid(s: State, k: nat)
    requires Valid(s) && k < |s.calls| && Open(s.calls[k]) && Apart(Step(s, Advance(k)))
    ensures Valid(Step(s, Advance(k)))
  {
    StepKeepsRows(s, Advance(k));
    var r := Step(s, Advance(k));
    var c := s.calls[k];
    var next := NextCall(s.store, c);
    if c.pc.Asked? {
      AskedFilesAreFree(s, k);
    }
    NextCallStatus(s.store, c);
    forall d, f | 0 <= d < |r.calls| && Open(r.calls[d]) && f in r.calls[d].changed
      ensures StatusFits(r.store, r.calls[d], f)
    {
      if d != k {
        if Open(next.1) {
          OthersChangeElse(r, k, d, f);
          NextCallLeavesOthers(s.store, c, f);
        } else {
          assert next.1.changed == c.changed || next.1.changed == {};
          assert f !in c.changed;
          NextCallLeavesOthers(s.store, c, f);
        }
      }
    }
    forall f | forall d :: 0 <= d < |r.calls| && Open(r.calls[d]) ==> f !in r.calls[d].changed
      ensures Right(r.store, f)
    {
      if f in next.1.changed {
        assert r.calls[k] == next.1;
        assert next.1.pc.Done?;
      } else {
        UntouchedStaysRight(s, k, f);
      }
    }
  }

  /** A file in nobody's hands stays right. */
  lemma UntouchedStaysRight(s: State, k: nat, f: string)
    requires Valid(s) && k < |s.calls| && Open(s.calls[k])
    requires var r := Step(s, Advance(k));
             forall d :: 0 <= d < |r.calls| && Open(r.calls[d]) ==> f !in r.calls[d].changed
    requires f !in NextCall(s.store, s.calls[k]).1.changed
    ensures Right(Step(s, Advance(k)).store, f)
  {
    NextCallLeavesOthers(s.store, s.calls[k], f);
    forall d | 0 <= d < |s.calls| && Open(s.calls[d]) ensures f !in s.calls[d].changed {
      if d != k {
        assert Step(s, Advance(k)).calls[d] == s.calls[d];
      }
    }
    assert Right(s.store, f);
  }

  lemma OthersChangeElse(r: State, k: nat, d: nat, f: string)
    requires Apart(r) && k < |r.calls| && d < |r.calls| && k != d && Open(r.calls[k]) && Open(r.calls[d])
    requires f in r.calls[d].changed
    ensures f !in r.calls[k].changed
  {
  }

  /** The files a sync is about to change are in no other open sync's hands, so they are right. */
  lemma AskedFilesAreFree(s: State, k: nat)
    requires Valid(s) && k < |s.calls| && s.calls[k].pc.Asked? && Apart(Step(s, Advance(k)))
    ensures forall f :: f in NextCall(s.store, s.calls[k]).1.changed ==> Right(s.store, f)
  {
    var r := Step(s, Advance(k));
    var next := NextCall(s.store, s.calls[k]);
    forall f | f in next.1.changed ensures Right(s.store, f) {
      forall d | 0 <= d < |s.calls| && Open(s.calls[d]) ensures f !in s.calls[d].changed {
        if d != k {
          assert r.calls[d] == s.calls[d] && r.calls[k] == next.1 && Open(next.1);
        }
      }
    }
  }

  lemma BeginKeepsValid(s: State, node: string, referenced: set<string>)
    requires Valid(s)
    ensures Valid(Step(s, Begin(node, referenced)))
  {
    var r := Step(s, Begin(node, referenced));
    StepKeepsRows(s, Begin(node, referenced));
    forall f | forall d :: 0 <= d < |r.calls| && Open(r.calls[d]) ==> f !in r.calls[d].changed
      ensures Right(r.store, f)
    {
      forall d | 0 <= d < |s.calls| && Open(s.calls[d]) ensures f !in s.calls[d].changed {
        assert r.calls[d] == s.calls[d];
      }
    }
  }

  /** No call fails, and at every moment the open calls change different files. */
  ghost predicate Disjoint(s: State, es: seq<Event>)
    decreases |es|
  {
    es == [] || (!es[0].Fail? && Apart(Step(s, es[0])) && Disjoint(Step(s, es[0]), es[1..]))
  }

  lemma {:induction false} RunKeepsValid(s: State, es: seq<Event>)
    requires Valid(s) && Disjoint(s, es)
    ensures Valid(Run(s, es))
    decreases |es|
  {
    if es != [] {
      match es[0] {
        case Begin(node, referenced) => BeginKeepsValid(s, node, referenced);
        case Advance(k) => if k < |s.calls| && Open(s.calls[k]) { AdvanceKeepsValid(s, k); }
      }
      RunKeepsValid(Step(s, es[0]), es[1..]);
    }
  }

  ghost predicate Quiescent(s: State) {
    forall c :: 0 <= c < |s.calls| ==> !Open(s.calls[c])
  }

  /** "ACTIVE exactly if attached" holds again whenever no sync is open, if overlapping syncs change different files. */
  lemma StatusRestoredAtQuiescence(st: Store, es: seq<Event>)
    requires Good(st) && Disjoint(State(st, []), es) && Quiescent(Run(State(st, []), es))
    ensures Good(Run(State(st, []), es).store)
  {
    RunKeepsValid(State(st, []), es);
  }

  /** In such runs a file turns ORPHAN only when no node has it any more. */
  lemma OrphanOnlyWhenUnreferenced(st: Store, es: seq<Event>, e: Event, f: string)
    requires Good(st) && Disjoint(State(st, []), es)
    requires var s := Run(State(st, []), es);
             f in s.store.status && !s.store.status[f].Orphan?
             && f in Step(s, e).store.status && Step(s, e).store.status[f].Orphan?
    ensures !Attached(Step(Run(State(st, []), es), e).store, f)
  {
    RunKeepsValid(State(st, []), es);
    var s := Run(State(st, []), es);
    var c := s.calls[e.call];
    assert c.pc.Orphaning? && f in c.pc.orphans && f in c.changed;
    assert StatusFits(s.store, c, f);
    SameRows(s.store, Step(s, e).store);
  }

  // ── Which step breaks a file ───────────────────────────────────────────────

  /** Some open sync has created rows for the file and not marked it yet. */
  ghost predicate BeingActivated(s: State, f: string) {
    exists c :: 0 <= c < |s.calls| && s.calls[c].pc.Activating? && f in s.calls[c].pc.add
  }

  /** The sync has deleted a row of the file and not decided about it yet. */
  predicate Decides(c: Call, f: string) {
    (c.pc.Counting? && f in c.pc.remove) || (c.pc.Orphaning? && f in c.pc.orphans)
  }

  /** Some open sync does so. */
  ghost predicate BeingOrphaned(s: State, f: string) {
    exists c :: 0 <= c < |s.calls| && Decides(s.calls[c], f)
  }

  /** An attached file is ACTIVE or about to be, an ACTIVE one is attached or about to be ORPHAN. */
  ghost predicate FileTracked(s: State, f: string) {
    f in s.store.status ==>
      && (Attached(s.store, f) ==> s.store.status[f].Active? || BeingActivated(s, f))
      && (s.store.status[f].Active? ==> Attached(s.store, f) || BeingOrphaned(s, f))
  }

  ghost predicate AllTracked(s: State) {
    forall f :: f in s.store.status ==> FileTracked(s, f)
  }

  /**
   A sync marks a file ORPHAN although another call has created a row for it since the count,
   and no open sync is going to mark it ACTIVE again.
   */
  ghost predicate OrphansTooLate(s: State, e: Event) {
    && e.Advance? && e.call < |s.calls| && s.calls[e.call].pc.Orphaning?
    && exists f :: f in s.calls[e.call].pc.orphans && f in s.store.status
                   && Attached(s.store, f) && !BeingActivated(s, f)
  }

  ghost predicate AddsReferenced(s: State) {
    forall c :: 0 <= c < |s.calls| ==> AddFits(s.calls[c])
  }

  ghost predicate AddFits(c: Call) {
    match c.pc
    case Adding(add, _) => add <= c.referenced
    case Activating(add, _) => add <= c.referenced
    case _ => true
  }

  lemma StepKeepsAdds(s: State, e: Event)
    requires AddsReferenced(s)
    ensures AddsReferenced(Step(s, e))
  {
    if e.Advance? && e.call < |s.calls| && Open(s.calls[e.call]) {
      assert AddFits(s.calls[e.call]);
    }
  }

  lemma AddingTracks(s: State, k: nat, f: string)
    requires FileTracked(s, f) && k < |s.calls| && (s.calls[k].pc.Adding? || s.calls[k].pc.Asked?)
    ensures FileTracked(Step(s, Advance(k)), f)
  {
    var r := Step(s, Advance(k));
    var c := s.calls[k];
    if c.pc.Adding? {
      CreateEffect(s.store, c.node, c.pc.add);
      if f in c.pc.add { assert r.calls[k].pc.Activating? && f in r.calls[k].pc.add; }
    }
    if BeingActivated(s, f) {
      var d :| 0 <= d < |s.calls| && s.calls[d].pc.Activating? && f in s.calls[d].pc.add;
      assert r.calls[d] == s.calls[d];
    }
    if BeingOrphaned(s, f) { OrphaningStands(s, k, f); }
  }

  lemma OrphaningStands(s: State, k: nat, f: string)
    requires k < |s.calls| && Open(s.calls[k]) && !s.calls[k].pc.Counting? && !s.calls[k].pc.Orphaning?
    requires BeingOrphaned(s, f)
    ensures BeingOrphaned(Step(s, Advance(k)), f)
  {
    var d :| 0 <= d < |s.calls| && Decides(s.calls[d], f);
    assert Step(s, Advance(k)).calls[d] == s.calls[d];
  }

  lemma ActivatingStands(s: State, k: nat, f: string)
    requires k < |s.calls| && Open(s.calls[k]) && !s.calls[k].pc.Activating? && BeingActivated(s, f)
    ensures BeingActivated(Step(s, Advance(k)), f)
  {
    var d :| 0 <= d < |s.calls| && s.calls[d].pc.Activating? && f in s.calls[d].pc.add;
    assert Step(s, Advance(k)).calls[d] == s.calls[d];
  }

  lemma ActivatingTracks(s: State, k: nat, f: string)
    requires RowsValid(s) && AddsReferenced(s) && FileTracked(s, f) && k < |s.calls| && s.calls[k].pc.Activating?
    ensures FileTracked(Step(s, Advance(k)), f)
  {
    var c := s.calls[k];
    var r := Step(s, Advance(k));
    assert RowsFit(s.store, c) && AddFits(c);
    if f in c.pc.add {
      assert f in AttachedTo(s.store, c.node);
      assert Attached(r.store, f);
    } else if BeingActivated(s, f) {
      var d :| 0 <= d < |s.calls| && s.calls[d].pc.Activating? && f in s.calls[d].pc.add;
      assert r.calls[d] == s.calls[d];
    }
    if BeingOrphaned(s, f) { OrphaningStands(s, k, f); }
  }

  lemma RemovingTracks(s: State, k: nat, f: string)
    requires FileTracked(s, f) && k < |s.calls| && s.calls[k].pc.Removing?
    ensures FileTracked(Step(s, Advance(k)), f)
  {
    var c := s.calls[k];
    var r := Step(s, Advance(k));
    DeleteEffect(s.store, c.node, c.pc.remove);
    if f in c.pc.remove { assert r.calls[k].pc.Counting? && f in r.calls[k].pc.remove; }
    if BeingActivated(s, f) { ActivatingStands(s, k, f); }
    if BeingOrphaned(s, f) { OrphaningStands(s, k, f); }
  }

  lemma CountingTracks(s: State, k: nat, f: string)
    requires FileTracked(s, f) && k < |s.calls| && s.calls[k].pc.Counting?
    ensures FileTracked(Step(s, Advance(k)), f)
  {
    var c := s.calls[k];
    var r := Step(s, Advance(k));
    if BeingActivated(s, f) { ActivatingStands(s, k, f); }
    if f in s.store.status && s.store.status[f].Active? && !Attached(s.store, f) {
      var d :| 0 <= d < |s.calls| && Decides(s.calls[d], f);
      if d == k {
        assert f in Unreferenced(s.store, c.pc.remove);
        assert r.calls[k].pc.Orphaning? && f in r.calls[k].pc.orphans;
      } else {
        assert r.calls[d] == s.calls[d];
      }
    }
  }

  /** The last call of a sync is right about a file exactly if the file is still unattached, or is about to be ACTIVE. */
  lemma OrphaningTracksIff(s: State, k: nat, f: string)
    requires FileTracked(s, f) && k < |s.calls| && s.calls[k].pc.Orphaning? && f in s.store.status
    ensures FileTracked(Step(s, Advance(k)), f) <==>
            !(f in s.calls[k].pc.orphans && Attached(s.store, f) && !BeingActivated(s, f))
  {
    var c := s.calls[k];
    var r := Step(s, Advance(k));
    SameRows(s.store, r.store);
    if BeingActivated(s, f) { ActivatingStands(s, k, f); }
    if BeingActivated(r, f) {
      var d :| 0 <= d < |r.calls| && r.calls[d].pc.Activating? && f in r.calls[d].pc.add;
      assert r.calls[d] == s.calls[d];
    }
    if f !in c.pc.orphans && BeingOrphaned(s, f) {
      var d :| 0 <= d < |s.calls| && Decides(s.calls[d], f);
      assert r.calls[d] == s.calls[d];
    }
  }

  lemma AdvanceTracks(s: State, k: nat, f: string)
    requires RowsValid(s) && AddsReferenced(s) && FileTracked(s, f)
    requires k < |s.calls| && Open(s.calls[k]) && !s.calls[k].pc.Orphaning?
    ensures FileTracked(Step(s, Advance(k)), f)
  {
    match s.calls[k].pc
    case Asked => AddingTracks(s, k, f);
    case Adding(_, _) => AddingTracks(s, k, f);
    case Activating(_, _) => ActivatingTracks(s, k, f);
    case Removing(_) => RemovingTracks(s, k, f);
    case Counting(_) => CountingTracks(s, k, f);
  }

  lemma BeginTracks(s: State, node: string, referenced: set<string>, f: string)
    requires FileTracked(s, f)
    ensures FileTracked(Step(s, Begin(node, referenced)), f)
  {
    var r := Step(s, Begin(node, referenced));
    assert forall c :: 0 <= c < |s.calls| ==> r.calls[c] == s.calls[c];
  }

  /** Another open sync than the given one is about to mark the file ACTIVE. */
  ghost predicate ActivatedByOther(s: State, k: nat, f: string) {
    exists c :: 0 <= c < |s.calls| && c != k && s.calls[c].pc.Activating? && f in s.calls[c].pc.add
  }

  /** Another open sync than the given one is about to decide about the file. */
  ghost predicate OrphanedByOther(s: State, k: nat, f: string) {
    exists c :: 0 <= c < |s.calls| && c != k && Decides(s.calls[c], f)
  }

  /** A sync fails before it has set the status of a file whose rows it changed, and no other open sync will. */
  ghost predicate LeavesFileWrong(s: State, e: Event) {
    && e.Fail? && e.call < |s.calls|
    && exists f :: f in s.store.status && FileDependsOn(s, e.call, f)
  }

  ghost predicate FileDependsOn(s: State, k: nat, f: string)
    requires k < |s.calls|
  {
    f in s.store.status &&
    var c := s.calls[k];
    || (c.pc.Activating? && f in c.pc.add && Attached(s.store, f)
        && !s.store.status[f].Active? && !ActivatedByOther(s, k, f))
    || (Decides(c, f) && !Attached(s.store, f) && s.store.status[f].Active? && !OrphanedByOther(s, k, f))
  }

  lemma FailTracksIff(s: State, k: nat, f: string)
    requires FileTracked(s, f) && k < |s.calls| && Open(s.calls[k]) && f in s.store.status
    ensures FileTracked(Step(s, Fail(k)), f) <==> !FileDependsOn(s, k, f)
  {
    var r := Step(s, Fail(k));
    assert r.store == s.store && forall c :: 0 <= c < |s.calls| && c != k ==> r.calls[c] == s.calls[c];
    assert BeingActivated(r, f) <==> ActivatedByOther(s, k, f) by {
      if ActivatedByOther(s, k, f) {
        var c :| 0 <= c < |s.calls| && c != k && s.calls[c].pc.Activating? && f in s.calls[c].pc.add;
        assert r.calls[c] == s.calls[c];
      }
    }
    assert BeingOrphaned(r, f) <==> OrphanedByOther(s, k, f) by {
      if OrphanedByOther(s, k, f) {
        var c :| 0 <= c < |s.calls| && c != k && Decides(s.calls[c], f);
        assert r.calls[c] == s.calls[c];
      }
    }
  }

  /** However syncs overlap and fail, a late ORPHAN and an untimely failure alone break the tie between statuses and rows. */
  lemma TieBreaksIff(s: State, e: Event)
    requires RowsValid(s) && AddsReferenced(s) && AllTracked(s)
    ensures AllTracked(Step(s, e)) <==> !OrphansTooLate(s, e) && !LeavesFileWrong(s, e)
  {
    if e.Fail? {
      if e.call < |s.calls| && Open(s.calls[e.call]) {
        forall f | f in s.store.status ensures FileTracked(Step(s, e), f) <==> !FileDependsOn(s, e.call, f) {
          FailTracksIff(s, e.call, f);
        }
      }
    } else {
      OnlyLateOrphansBreak(s, e);
    }
  }

  /** Without failures exactly a late ORPHAN breaks the tie between statuses and rows. */
  lemma OnlyLateOrphansBreak(s: State, e: Event)
    requires RowsValid(s) && AddsReferenced(s) && AllTracked(s) && !e.Fail?
    ensures AllTracked(Step(s, e)) <==> !OrphansTooLate(s, e)
  {
    var r := Step(s, e);
    assert r.store.status.Keys == s.store.status.Keys;
    forall f | f in s.store.status
      ensures FileTracked(r, f) <==>
              !(OrphansTooLate(s, e) && f in s.calls[e.call].pc.orphans && Attached(s.store, f) && !BeingActivated(s, f))
    {
      assert FileTracked(s, f);
      match e
      case Begin(node, referenced) => BeginTracks(s, node, referenced, f);
      case Advance(k) =>
        if k < |s.calls| && Open(s.calls[k]) {
          if s.calls[k].pc.Orphaning? { OrphaningTracksIff(s, k, f); } else { AdvanceTracks(s, k, f); }
        }
    }
  }

  /** No sync of the run orphans too late, or fails with a file depending on it. */
  ghost predicate NothingBreaks(s: State, es: seq<Event>)
    decreases |es|
  {
    es == [] || (!LeavesFileWrong(s, es[0]) && !OrphansTooLate(s, es[0]) && NothingBreaks(Step(s, es[0]), es[1..]))
  }

  lemma {:induction false} RunTracks(s: State, es: seq<Event>)
    requires RowsValid(s) && AddsReferenced(s) && AllTracked(s) && NothingBreaks(s, es)
    ensures AllTracked(Run(s, es))
    decreases |es|
  {
    if es != [] {
      StepKeepsRows(s, es[0]);
      StepKeepsAdds(s, es[0]);
      TieBreaksIff(s, es[0]);
      RunTracks(Step(s, es[0]), es[1..]);
    }
  }

  /** In such runs "ACTIVE exactly if attached" holds whenever no sync is open, also for files in many hands. */
  lemma StatusRestoredIfNothingBreaks(st: Store, es: seq<Event>)
    requires Good(st) && NothingBreaks(State(st, []), es) && Quiescent(Run(State(st, []), es))
    ensures Good(Run(State(st, []), es).store)
  {
    RunTracks(State(st, []), es);
    var s := Run(State(st, []), es);
    forall f | f in s.store.status ensures Right(s.store, f) {
      assert FileTracked(s, f);
    }
  }

  lemma {:induction false} RunSplit(s: State, first: seq<Event>, second: seq<Event>)
    ensures Run(s, first + second) == Run(Run(s, first), second)
    decreases |first|
  {
    if first == [] {
      assert first + second == second;
    } else {
      assert (first + second)[1..] == first[1..] + second;
      RunSplit(Step(s, first[0]), first[1..], second);
    }
  }

  const SHARED := Store({("f", "m")}, map["f" := Active])

  const COUNTED := Call("m", {}, {"f"}, Orphaning({"f"}))

  /** Node m has dropped the file and counted its rows. */
  lemma Drops()
    ensures Run(State(SHARED, []), [Begin("m", {}), Advance(0), Advance(0), Advance(0)]) ==
            State(Store({}, map["f" := Active]), [COUNTED])
  {
    var s1 := State(SHARED, [Call("m", {}, {}, Asked)]);
    assert ("f", "m") in SHARED.rows;
    assert AttachedTo(SHARED, "m") == {"f"};
    assert ToAdd(SHARED, "m", {}) == {} && ToRemove(SHARED, "m", {}) == {"f"} && {} + {"f"} == {"f"};
    var s2 := State(SHARED, [Call("m", {}, {"f"}, Removing({"f"}))]);
    assert Step(s1, Advance(0)) == s2;
    assert RowsOf({"f"}, "m") == {("f", "m")};
    var s3 := State(Store({}, map["f" := Active]), [Call("m", {}, {"f"}, Counting({"f"}))]);
    assert Step(s2, Advance(0)) == s3;
    assert Unreferenced(s3.store, {"f"}) == {"f"};
    var s4 := Step(s3, Advance(0));
    assert Run(s3, [Advance(0)]) == s4;
    assert Run(s2, [Advance(0), Advance(0)]) == s4;
    assert Run(s1, [Advance(0), Advance(0), Advance(0)]) == s4;
  }

  /** Meanwhile node n takes the file up, completely. */
  lemma TakesUp()
    ensures Run(State(Store({}, map["f" := Active]), [COUNTED]), [Begin("n", {"f"}), Advance(1), Advance(1), Advance(1)]) ==
            State(Store({("f", "n")}, map["f" := Active]), [COUNTED, Call("n", {"f"}, {"f"}, Done)])
  {
    var st := Store({}, map["f" := Active]);
    var s1 := State(st, [COUNTED, Call("n", {"f"}, {}, Asked)]);
    assert AttachedTo(st, "n") == {};
    assert ToAdd(st, "n", {"f"}) == {"f"} && ToRemove(st, "n", {"f"}) == {} && {"f"} + {} == {"f"};
    var s2 := State(st, [COUNTED, Call("n", {"f"}, {"f"}, Adding({"f"}, {}))]);
    assert Step(s1, Advance(1)) == s2;
    assert RowsOf({"f"}, "n") == {("f", "n")};
    var s3 := State(Store({("f", "n")}, map["f" := Active]), [COUNTED, Call("n", {"f"}, {"f"}, Activating({"f"}, {}))]);
    assert Step(s2, Advance(1)) == s3;
    var s4 := Step(s3, Advance(1));
    assert Run(s3, [Advance(1)]) == s4;
    assert Run(s2, [Advance(1), Advance(1)]) == s4;
    assert Run(s1, [Advance(1), Advance(1), Advance(1)]) == s4;
  }

  /** Then m's sync goes on with what it counted before. */
  lemma OrphansLate()
    ensures Run(State(Store({("f", "n")}, map["f" := Active]), [COUNTED, Call("n", {"f"}, {"f"}, Done)]), [Advance(0)]) ==
            State(Store({("f", "n")}, map["f" := Orphan]), [Call("m", {}, {"f"}, Done), Call("n", {"f"}, {"f"}, Done)])
  {
  }

  /** Two overlapping syncs of one file: one node drops it, the other takes it up, and it ends ORPHAN though attached. */
  lemma OverlapOnOneFileBreaksStatus() returns (es: seq<Event>)
    ensures var s := Run(State(SHARED, []), es);
            Good(SHARED) && Quiescent(s) && Attached(s.store, "f") && s.store.status == map["f" := Orphan]
  {
    var first := [Begin("m", {}), Advance(0), Advance(0), Advance(0)];
    var second := [Begin("n", {"f"}), Advance(1), Advance(1), Advance(1)];
    es := first + (second + [Advance(0)]);
    assert ("f", "m") in SHARED.rows;
    Drops();
    TakesUp();
    OrphansLate();
    RunSplit(State(SHARED, []), first, second + [Advance(0)]);
    RunSplit(Run(State(SHARED, []), first), second, [Advance(0)]);
    assert ("f", "n") in Run(State(SHARED, []), es).store.rows;
  }
}
