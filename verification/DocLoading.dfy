/** `getOrCreateDoc` and `loadDoc`: concurrent callers share one load of a node. */
module DocLoading {
  import opened Wrappers

  datatype LoadStatus = Reading | LoadedAs(inst: nat) | LoadFailed

  /** One `loadDoc` call; `swept` once its starter has removed it from the `loading` map. */
  datatype Load = Load(status: LoadStatus, swept: bool)

  datatype Caller = WaitsFor(load: nat) | Got(source: Option<nat>, inst: nat) | Rejected(load: nat)

  /** `docs` and `loading` are the node's entries in the two maps; `insts` counts the records ever inserted. */
  datatype State = State(docs: Option<nat>, loading: Option<nat>, insts: nat, loads: seq<Load>, callers: seq<Caller>)

  datatype Event =
    | Call
    | Succeed(load: nat)
    | Fail(load: nat)
    | Sweep(load: nat)
    | Deliver(caller: nat)
    | DropDoc

  const EMPTY := State(None, None, 0, [], [])

  function Step(s: State, e: Event): State {
    match e
    case Call =>
      if s.docs.Some? then s.(callers := s.callers + [Got(None, s.docs.value)])
      else if s.loading.Some? then s.(callers := s.callers + [WaitsFor(s.loading.value)])
      else
        s.(loads := s.loads + [Load(Reading, false)], loading := Some(|s.loads|),
           callers := s.callers + [WaitsFor(|s.loads|)])
    case Succeed(l) =>
      if l < |s.loads| && s.loads[l].status.Reading? then
        s.(docs := Some(s.insts), insts := s.insts + 1, loads := s.loads[l := Load(LoadedAs(s.insts), s.loads[l].swept)])
      else s
    case Fail(l) =>
      if l < |s.loads| && s.loads[l].status.Reading? then
        s.(loads := s.loads[l := Load(LoadFailed, s.loads[l].swept)])
      else s
    case Sweep(l) =>
      if l < |s.loads| && !s.loads[l].status.Reading? && !s.loads[l].swept then
        s.(loads := s.loads[l := s.loads[l].(swept := true)], loading := None)
      else s
    case Deliver(c) =>
      if c < |s.callers| && s.callers[c].WaitsFor? && s.callers[c].load < |s.loads| then
        match s.loads[s.callers[c].load].status
        case Reading => s
        case LoadedAs(i) => s.(callers := s.callers[c := Got(Some(s.callers[c].load), i)])
        case LoadFailed => s.(callers := s.callers[c := Rejected(s.callers[c].load)])
      else s
    case DropDoc => s.(docs := None)
  }

  function Run(s: State, es: seq<Event>): State
    decreases |es|
  {
    if es == [] then s else Run(Step(s, es[0]), es[1..])
  }

  ghost predicate LoadsValid(s: State) {
    && (s.docs.Some? ==> s.docs.value < s.insts)
    // exactly the load in the map has not been swept
    && (s.loading.Some? ==> s.loading.value < |s.loads| && !s.loads[s.loading.value].swept)
    && (forall l :: 0 <= l < |s.loads| && !s.loads[l].swept ==> s.loading == Some(l))
    // a load still reading, or failed and not swept, keeps the node out of the cache
    && (forall l :: 0 <= l < |s.loads| && s.loads[l] == Load(LoadFailed, false) ==> s.docs.None?)
    && (forall l :: 0 <= l < |s.loads| && s.loads[l].status.Reading? ==> !s.loads[l].swept && s.docs.None?)
    && (forall l :: 0 <= l < |s.loads| && s.loads[l].status.LoadedAs? ==> s.loads[l].status.inst < s.insts)
    // no record is inserted twice
    && (forall k, l :: 0 <= k < l < |s.loads| && s.loads[k].status.LoadedAs? && s.loads[l].status.LoadedAs? ==>
          s.loads[k].status.inst != s.loads[l].status.inst)
  }

  ghost predicate CallerValid(s: State, c: Caller) {
    match c
    case WaitsFor(l) => l < |s.loads|
    case Got(Some(l), i) => l < |s.loads| && s.loads[l].status == LoadedAs(i)
    case Got(None, i) => i < s.insts
    case Rejected(l) => l < |s.loads| && s.loads[l].status == LoadFailed
  }

  ghost predicate Valid(s: State) {
    LoadsValid(s) && forall c :: 0 <= c < |s.callers| ==> CallerValid(s, s.callers[c])
  }

  lemma CallKeepsLoads(s: State, e: Event)
    requires LoadsValid(s) && (e.Call? || e.Deliver? || e.DropDoc?)
    ensures LoadsValid(Step(s, e))
  {
  }

  lemma SettleKeepsLoads(s: State, e: Event)
    requires LoadsValid(s) && (e.Succeed? || e.Fail? || e.Sweep?)
    ensures LoadsValid(Step(s, e))
  {
  }

  /** A load keeps its outcome, and records are only ever added. */
  lemma OutcomesStay(s: State, e: Event, c: Caller)
    requires CallerValid(s, c)
    ensures CallerValid(Step(s, e), c)
  {
  }

  lemma DeliveryIsValid(s: State, c: nat)
    requires Valid(s) && c < |s.callers|
    ensures CallerValid(s, Step(s, Deliver(c)).callers[c])
  {
  }

  lemma StepKeepsValid(s: State, e: Event)
    requires Valid(s)
    ensures Valid(Step(s, e))
  {
    if e.Call? || e.Deliver? || e.DropDoc? { CallKeepsLoads(s, e); } else { SettleKeepsLoads(s, e); }
    var r := Step(s, e);
    forall c | 0 <= c < |r.callers| ensures CallerValid(r, r.callers[c]) {
      if c < |s.callers| {
        OutcomesStay(s, e, s.callers[c]);
        if e == Deliver(c) {
          DeliveryIsValid(s, c);
        }
      }
    }
  }

  lemma {:induction false} RunKeepsValid(s: State, es: seq<Event>)
    requires Valid(s)
    ensures Valid(Run(s, es))
    decreases |es|
  {
    if es != [] {
      StepKeepsValid(s, es[0]);
      RunKeepsValid(Step(s, es[0]), es[1..]);
    }
  }

  /** A call gets the cached document itself, else shares the load under way, else starts the one load. */
  lemma CallFinds(s: State)
    ensures var r := Step(s, Call);
            && r.docs == s.docs && r.insts == s.insts && |r.callers| == |s.callers| + 1
            && (forall c :: 0 <= c < |s.callers| ==> r.callers[c] == s.callers[c])
            && var caller := r.callers[|s.callers|];
            match (s.docs, s.loading)
            case (Some(i), _) => caller == Got(None, i) && r.loads == s.loads && r.loading == s.loading
            case (None, Some(l)) => caller == WaitsFor(l) && r.loads == s.loads && r.loading == s.loading
            case (None, None) =>
              caller == WaitsFor(|s.loads|) && r.loads == s.loads + [Load(Reading, false)] && r.loading == Some(|s.loads|)
  {
  }

  /** Two callers of a node that is not cached: one load, one new record, and both come away with it. */
  lemma SharedLoadGoesThrough(s: State)
    requires s.docs.None? && s.loading.None?
    ensures var l, c := |s.loads|, |s.callers|;
            var r := Run(s, [Call, Call, Succeed(l), Sweep(l), Deliver(c), Deliver(c + 1)]);
            && r.docs == Some(s.insts) && r.loading.None? && r.insts == s.insts + 1 && |r.loads| == l + 1
            && r.callers == s.callers + [Got(Some(l), s.insts), Got(Some(l), s.insts)]
  {
    var l, c := |s.loads|, |s.callers|;
    var s1 := Step(s, Call);
    var s2 := Step(s1, Call);
    var s3 := Step(s2, Succeed(l));
    var s4 := Step(s3, Sweep(l));
    var s5 := Step(s4, Deliver(c));
    var s6 := Step(s5, Deliver(c + 1));
    assert Run(s5, [Deliver(c + 1)]) == s6;
    assert Run(s4, [Deliver(c), Deliver(c + 1)]) == s6;
    assert Run(s3, [Sweep(l), Deliver(c), Deliver(c + 1)]) == s6;
    assert Run(s2, [Succeed(l), Sweep(l), Deliver(c), Deliver(c + 1)]) == s6;
    assert Run(s1, [Call, Succeed(l), Sweep(l), Deliver(c), Deliver(c + 1)]) == s6;
  }

  /** A dropped document is loaded anew by the next call. */
  lemma DroppedNodeLoadsAnew(s: State)
    requires s.loading.None?
    ensures var r := Step(s, DropDoc);
            && r == s.(docs := None)
            && Step(r, Call).callers == s.callers + [WaitsFor(|s.loads|)]
            && Step(r, Call).loads == s.loads + [Load(Reading, false)]
  {
  }

  /** A load that fails rejects its callers and leaves no trace in the cache. */
  lemma FailedLoadRejects(s: State)
    requires s.docs.None? && s.loading.None?
    ensures var l, c := |s.loads|, |s.callers|;
            var r := Run(s, [Call, Fail(l), Sweep(l), Deliver(c)]);
            r.docs.None? && r.loading.None? && r.insts == s.insts && r.callers == s.callers + [Rejected(l)]
  {
    var l, c := |s.loads|, |s.callers|;
    var s1 := Step(s, Call);
    var s2 := Step(s1, Fail(l));
    var s3 := Step(s2, Sweep(l));
    var s4 := Step(s3, Deliver(c));
    assert Run(s3, [Deliver(c)]) == s4;
    assert Run(s2, [Sweep(l), Deliver(c)]) == s4;
    assert Run(s1, [Fail(l), Sweep(l), Deliver(c)]) == s4;
  }

  /** At most one load of the node is reading, and the node is not in the cache while it does. */
  lemma OneLoadAtATime(es: seq<Event>, k: nat, l: nat)
    requires var s := Run(EMPTY, es);
             k < |s.loads| && l < |s.loads| && s.loads[k].status.Reading? && s.loads[l].status.Reading?
    ensures k == l && Run(EMPTY, es).docs.None? && Run(EMPTY, es).loading == Some(k)
  {
    RunKeepsValid(EMPTY, es);
  }

  /** A finished load never overwrites a live entry: inserting one requires, and finds, the node absent. */
  lemma InsertNeverOverwrites(es: seq<Event>, e: Event)
    requires Step(Run(EMPTY, es), e).docs.Some? && Step(Run(EMPTY, es), e).docs != Run(EMPTY, es).docs
    ensures Run(EMPTY, es).docs.None? && Step(Run(EMPTY, es), e).docs == Some(Run(EMPTY, es).insts)
  {
    RunKeepsValid(EMPTY, es);
  }

  /** Callers that shared a load came away with the same document, or all with its failure. */
  lemma SharersAgree(es: seq<Event>, c: nat, d: nat, l: nat)
    requires var s := Run(EMPTY, es);
             && c < |s.callers| && d < |s.callers|
             && ((s.callers[c].Got? && s.callers[c].source == Some(l)) || s.callers[c] == Rejected(l))
             && ((s.callers[d].Got? && s.callers[d].source == Some(l)) || s.callers[d] == Rejected(l))
    ensures Run(EMPTY, es).callers[c] == Run(EMPTY, es).callers[d]
  {
    RunKeepsValid(EMPTY, es);
  }

  /** Once a failed load is swept, the next caller starts a load of its own. */
  lemma FailedLoadLeavesRoom(es: seq<Event>, l: nat)
    requires var s := Run(EMPTY, es); l < |s.loads| && s.loads[l] == Load(LoadFailed, false)
    ensures var s := Step(Run(EMPTY, es), Sweep(l));
            && Step(s, Call).loads == s.loads + [Load(Reading, false)]
            && Step(s, Call).loading == Some(|s.loads|)
  {
    RunKeepsValid(EMPTY, es);
  }

  /** After the last load is swept, no waiting caller is left behind: every settled load delivers. */
  lemma SettledLoadDelivers(es: seq<Event>, c: nat)
    requires var s := Run(EMPTY, es);
             c < |s.callers| && s.callers[c].WaitsFor? && s.loading.None?
    ensures var s := Run(EMPTY, es); !Step(s, Deliver(c)).callers[c].WaitsFor?
  {
    RunKeepsValid(EMPTY, es);
  }
}
