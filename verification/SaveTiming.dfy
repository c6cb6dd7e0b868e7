/**
 The debounce and safety timers of one loaded document against a clock, with flushes that
 take no time and succeed.  Timers fire when they are due, not later.
 */
module SaveTiming {
  import opened Wrappers

  const DEBOUNCE_SAVE_MS: nat := 2_000
  const SAFETY_FLUSH_INTERVAL_MS: nat := 30_000

  /**
   `arrivals` and `saves` are the times at which the structs of the document came in and were
   saved; the structs from `|saves|` on are unsaved.  `debounced` counts debounced flushes,
   `lastEdit` is the time of the last scheduled edit, and `cut` says whether some other flush
   cancelled the debounce armed for it.
   */
  datatype State = State(
    now: nat,
    arrivals: seq<nat>,
    saves: seq<nat>,
    saveTimer: Option<nat>,
    nextSafety: nat,
    debounced: nat,
    lastEdit: nat,
    cut: bool)

  datatype Event = Elapse(until: nat) | Edit | Grow | DebounceFires | SafetyFires | FlushRequested

  function Init(loadedAt: nat, nextSafety: nat): State {
    State(loadedAt, [], [], None, nextSafety, 0, loadedAt, false)
  }

  /** A flush saves all that is there and cancels the debounce. */
  function Flush(s: State): State {
    var unsaved := if |s.saves| < |s.arrivals| then |s.arrivals| - |s.saves| else 0;
    s.(saves := s.saves + seq(unsaved, _ => s.now), saveTimer := None)
  }

  predicate DebounceDue(s: State) {
    s.saveTimer == Some(s.now)
  }

  predicate MayElapse(s: State, until: nat) {
    s.now <= until <= s.nextSafety && (s.saveTimer.Some? ==> until <= s.saveTimer.value)
  }

  function Step(s: State, e: Event): State {
    match e
    case Elapse(until) => if MayElapse(s, until) then s.(now := until) else s
    case Edit =>
      s.(arrivals := s.arrivals + [s.now], saveTimer := Some(s.now + DEBOUNCE_SAVE_MS), lastEdit := s.now, cut := false)
    case Grow => s.(arrivals := s.arrivals + [s.now])
    case DebounceFires => if DebounceDue(s) then Flush(s).(debounced := s.debounced + 1) else s
    case SafetyFires =>
      if s.now == s.nextSafety then
        Flush(s).(nextSafety := s.nextSafety + SAFETY_FLUSH_INTERVAL_MS, cut := s.cut || s.saveTimer.Some?)
      else s
    case FlushRequested => Flush(s).(cut := s.cut || s.saveTimer.Some?)
  }

  /** The next safety flush is at most one interval after anything that is still unsaved. */
  ghost predicate Timely(s: State) {
    && |s.saves| <= |s.arrivals|
    && s.now <= s.nextSafety <= s.now + SAFETY_FLUSH_INTERVAL_MS
    && (forall k :: 0 <= k < |s.arrivals| ==> s.arrivals[k] <= s.now)
    && (forall k :: 0 <= k < |s.saves| ==>
          s.arrivals[k] <= s.saves[k] <= s.arrivals[k] + SAFETY_FLUSH_INTERVAL_MS)
    && (forall k :: |s.saves| <= k < |s.arrivals| ==> s.nextSafety <= s.arrivals[k] + SAFETY_FLUSH_INTERVAL_MS)
    && (s.saveTimer.Some? ==> s.now <= s.saveTimer.value)
  }

  lemma StepKeepsTimely(s: State, e: Event)
    requires Timely(s)
    ensures Timely(Step(s, e))
  {
  }

  function Run(s: State, es: seq<Event>): State
    decreases |es|
  {
    if es == [] then s else Run(Step(s, es[0]), es[1..])
  }

  lemma {:induction false} RunKeepsTimely(s: State, es: seq<Event>)
    requires Timely(s)
    ensures Timely(Run(s, es))
    decreases |es|
  {
    if es != [] {
      StepKeepsTimely(s, es[0]);
      RunKeepsTimely(Step(s, es[0]), es[1..]);
    }
  }

  /**
   However edits keep resetting the debounce, and also for structs that come in without
   scheduling a save: nothing stays unsaved longer than the safety interval.
   */
  lemma NothingUnsavedBeyondInterval(loadedAt: nat, nextSafety: nat, es: seq<Event>, k: nat)
    requires loadedAt <= nextSafety <= loadedAt + SAFETY_FLUSH_INTERVAL_MS
    requires k < |Run(Init(loadedAt, nextSafety), es).arrivals|
    ensures var s := Run(Init(loadedAt, nextSafety), es);
            var savedAt := if k < |s.saves| then s.saves[k] else s.now;
            savedAt - s.arrivals[k] <= SAFETY_FLUSH_INTERVAL_MS
  {
    RunKeepsTimely(Init(loadedAt, nextSafety), es);
  }

  /** An edit after which nothing happens for the debounce delay is saved, with all before it, when the delay has run out. */
  lemma QuietEditIsSavedAfterDelay(s: State)
    requires Timely(s) && s.now + DEBOUNCE_SAVE_MS <= s.nextSafety
    ensures var r := Run(s, [Edit, Elapse(s.now + DEBOUNCE_SAVE_MS), DebounceFires]);
            && r.now == s.now + DEBOUNCE_SAVE_MS && r.arrivals == s.arrivals + [s.now]
            && |r.saves| == |r.arrivals| && r.saves[|s.arrivals|] == r.now
            && r.debounced == s.debounced + 1 && r.saveTimer.None?
  {
    var s1 := Step(s, Edit);
    var s2 := Step(s1, Elapse(s.now + DEBOUNCE_SAVE_MS));
    var s3 := Step(s2, DebounceFires);
    assert Run(s2, [DebounceFires]) == s3;
    assert Run(s1, [Elapse(s.now + DEBOUNCE_SAVE_MS), DebounceFires]) == s3;
  }

  /** When the safety interval has run out everything is saved, scheduled or not, and the next interval begins. */
  lemma SafetyFlushSavesAll(s: State)
    requires Timely(s) && (s.saveTimer.Some? ==> s.nextSafety <= s.saveTimer.value)
    ensures var r := Run(s, [Grow, Elapse(s.nextSafety), SafetyFires]);
            && r.now == s.nextSafety && |r.saves| == |r.arrivals| == |s.arrivals| + 1 && r.saves[|s.arrivals|] == r.now
            && r.nextSafety == s.nextSafety + SAFETY_FLUSH_INTERVAL_MS
  {
    var s1 := Step(s, Grow);
    var s2 := Step(s1, Elapse(s.nextSafety));
    var s3 := Step(s2, SafetyFires);
    assert Run(s2, [SafetyFires]) == s3;
    assert Run(s1, [Elapse(s.nextSafety), SafetyFires]) == s3;
  }

  /** A flush that is asked for saves all there is at once, and the debounce has nothing left to do. */
  lemma RequestedFlushSavesAll(s: State)
    requires Timely(s)
    ensures var r := Step(s, FlushRequested);
            && |r.saves| == |r.arrivals| && r.arrivals == s.arrivals && s.saves <= r.saves && r.saveTimer.None?
            && (forall k :: |s.saves| <= k < |r.saves| ==> r.saves[k] == s.now)
            && r.debounced == s.debounced && r.now == s.now && r.nextSafety == s.nextSafety
            && (r.cut <==> s.cut || s.saveTimer.Some?)
  {
  }

  /** Every edit comes within the debounce delay of the one before. */
  ghost predicate GapsBelowDebounce(s: State, es: seq<Event>)
    decreases |es|
  {
    es == [] ||
    ((es[0].Edit? ==> s.now < s.lastEdit + DEBOUNCE_SAVE_MS) && GapsBelowDebounce(Step(s, es[0]), es[1..]))
  }

  /** Inside a burst: the debounce is armed for the last edit, or has fired for it, or another flush cancelled it. */
  ghost predicate InBurst(s: State, before: nat) {
    match s.saveTimer
    case Some(t) => t == s.lastEdit + DEBOUNCE_SAVE_MS && s.debounced == before && !s.cut
    case None =>
      if s.cut then s.debounced == before
      else s.debounced == before + 1 && s.lastEdit + DEBOUNCE_SAVE_MS <= s.now
  }

  lemma {:induction false} BurstStaysInBurst(s: State, es: seq<Event>, before: nat)
    requires Timely(s) && InBurst(s, before) && GapsBelowDebounce(s, es)
    ensures InBurst(Run(s, es), before)
    decreases |es|
  {
    if es != [] {
      StepKeepsTimely(s, es[0]);
      BurstStaysInBurst(Step(s, es[0]), es[1..], before);
    }
  }

  /**
   A burst of edits closer together than the debounce delay causes at most one debounced
   flush, and none before the delay after the last edit has run out.  From then on it has
   caused exactly one, if and only if no other flush cancelled the debounce of the last edit.
   */
  lemma BurstIsFlushedOnce(s: State, es: seq<Event>)
    requires Timely(s) && s.saveTimer == Some(s.lastEdit + DEBOUNCE_SAVE_MS) && !s.cut
    requires GapsBelowDebounce(s, es)
    ensures var r := Run(s, es);
            && s.debounced <= r.debounced <= s.debounced + 1
            && (r.now < r.lastEdit + DEBOUNCE_SAVE_MS ==> r.debounced == s.debounced)
            && (r.lastEdit + DEBOUNCE_SAVE_MS < r.now ==> (r.debounced == s.debounced + 1 <==> !r.cut))
  {
    RunKeepsTimely(s, es);
    BurstStaysInBurst(s, es, s.debounced);
  }

  /** A safety flush soon after the only edit of a burst leaves the debounce nothing to do. */
  lemma SafetyFlushReplacesDebounce()
    ensures var s := Step(Init(0, 1_000), Edit);
            var es := [Elapse(1_000), SafetyFires, Elapse(10_000)];
            GapsBelowDebounce(s, es) && Run(s, es).now == 10_000 && Run(s, es).debounced == 0
  {
  }
}
