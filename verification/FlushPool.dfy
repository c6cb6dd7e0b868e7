/** `flushAll`: a bounded number of workers share one cursor over the loaded nodes. */
module FlushPool {

  const FLUSH_CONCURRENCY: nat := 4

  datatype Worker = AtLoop | Flushing(index: nat) | Gone

  /** `settled` are the indices whose flush has come back, successfully or not. */
  datatype State = State(n: nat, cursor: nat, workers: seq<Worker>, started: seq<nat>, settled: set<nat>)

  datatype Event = Take(worker: nat) | Settle(worker: nat, ok: bool)

  function Min(a: nat, b: nat): nat {
    if a < b then a else b
  }

  function Init(n: nat): State {
    State(n, 0, seq(Min(FLUSH_CONCURRENCY, n), _ => AtLoop), [], {})
  }

  /** Reading the cursor, testing it and moving it happen without an await in between. */
  function Step(s: State, e: Event): State {
    match e
    case Take(w) =>
      if w < |s.workers| && s.workers[w].AtLoop? then
        if s.cursor < s.n then
          s.(workers := s.workers[w := Flushing(s.cursor)], started := s.started + [s.cursor], cursor := s.cursor + 1)
        else s.(workers := s.workers[w := Gone])
      else s
    case Settle(w, _) =>
      if w < |s.workers| && s.workers[w].Flushing? then
        s.(workers := s.workers[w := AtLoop], settled := s.settled + {s.workers[w].index})
      else s
  }

  function Run(s: State, es: seq<Event>): State
    decreases |es|
  {
    if es == [] then s else Run(Step(s, es[0]), es[1..])
  }

  ghost predicate HeldBy(s: State, k: nat, w: nat) {
    w < |s.workers| && s.workers[w] == Flushing(k)
  }

  /** Indices below the cursor were started once each, in order, and are with one worker or settled. */
  ghost predicate Valid(s: State) {
    && s.cursor <= s.n
    && |s.workers| == Min(FLUSH_CONCURRENCY, s.n)
    && |s.started| == s.cursor && (forall k :: 0 <= k < s.cursor ==> s.started[k] == k)
    && (forall k :: k in s.settled ==> k < s.cursor)
    && (forall w :: 0 <= w < |s.workers| && s.workers[w].Flushing? ==>
          s.workers[w].index < s.cursor && s.workers[w].index !in s.settled)
    && (forall v, w :: 0 <= v < w < |s.workers| && s.workers[v].Flushing? && s.workers[w].Flushing? ==>
          s.workers[v].index != s.workers[w].index)
    && (forall k: nat :: k < s.cursor && k !in s.settled ==> exists w: nat :: HeldBy(s, k, w))
    && (forall w :: 0 <= w < |s.workers| && s.workers[w].Gone? ==> s.cursor == s.n)
  }

  lemma StepKeepsValid(s: State, e: Event)
    requires Valid(s)
    ensures Valid(Step(s, e))
  {
    var r := Step(s, e);
    forall k: nat | k < r.cursor && k !in r.settled ensures exists w: nat :: HeldBy(r, k, w) {
      if k == s.cursor {
        assert HeldBy(r, k, e.worker);
      } else {
        var w: nat :| HeldBy(s, k, w);
        assert HeldBy(r, k, w);
      }
    }
  }

  lemma {:induction false} RunKeepsValid(s: State, es: seq<Event>)
    requires Valid(s)
    ensures Valid(Run(s, es)) && Run(s, es).n == s.n
    decreases |es|
  {
    if es != [] {
      StepKeepsValid(s, es[0]);
      RunKeepsValid(Step(s, es[0]), es[1..]);
    }
  }

  function InFlight(ws: seq<Worker>): nat {
    if ws == [] then 0 else InFlight(ws[1..]) + if ws[0].Flushing? then 1 else 0
  }

  lemma {:induction false} InFlightBounded(ws: seq<Worker>)
    ensures InFlight(ws) <= |ws|
  {
    if ws != [] {
      InFlightBounded(ws[1..]);
    }
  }

  /** In every interleaving no flush is started twice, and the limit holds at every moment. */
  lemma PoolIsBounded(n: nat, es: seq<Event>)
    ensures var s := Run(Init(n), es);
            && s.started == seq(s.cursor, k => k)
            && InFlight(s.workers) <= Min(FLUSH_CONCURRENCY, n)
  {
    RunKeepsValid(Init(n), es);
    InFlightBounded(Run(Init(n), es).workers);
  }

  ghost predicate Finished(s: State) {
    forall w :: 0 <= w < |s.workers| ==> s.workers[w].Gone?
  }

  /** When the pool is through, every listed node was flushed once and has settled, failures or not. */
  lemma PoolIsComplete(n: nat, es: seq<Event>)
    requires Finished(Run(Init(n), es))
    ensures var s := Run(Init(n), es); s.started == seq(n, k => k) && forall k: nat :: k in s.settled <==> k < n
  {
    RunKeepsValid(Init(n), es);
    var s := Run(Init(n), es);
    if n > 0 {
      assert s.workers[0].Gone?;
    }
    forall k: nat | k < n ensures k in s.settled {
      assert k in s.settled || exists w: nat :: HeldBy(s, k, w);
    }
  }

  function WorkerLeft(w: Worker): nat {
    match w
    case AtLoop => 1
    case Flushing(_) => 2
    case Gone => 0
  }

  function WorkersLeft(ws: seq<Worker>): nat {
    if ws == [] then 0 else WorkersLeft(ws[1..]) + WorkerLeft(ws[0])
  }

  /** Remaining indices and workers still at it. */
  function Left(s: State): nat
    requires s.cursor <= s.n
  {
    2 * (s.n - s.cursor) + WorkersLeft(s.workers)
  }

  lemma {:induction false} WorkersLeftUpdate(ws: seq<Worker>, w: nat, x: Worker)
    requires w < |ws|
    ensures WorkersLeft(ws[w := x]) == WorkersLeft(ws) - WorkerLeft(ws[w]) + WorkerLeft(x)
  {
    if w > 0 {
      WorkersLeftUpdate(ws[1..], w - 1, x);
      assert ws[w := x][1..] == ws[1..][w - 1 := x];
    } else {
      assert ws[w := x][1..] == ws[1..];
    }
  }

  /** What the worker does next: another turn of its loop, or the end of its flush. */
  function Turn(s: State, w: nat, ok: bool): Event
    requires w < |s.workers|
  {
    if s.workers[w].AtLoop? then Take(w) else Settle(w, ok)
  }

  /** Every effective step brings the pool closer to its end, and a worker that is not gone can take one. */
  lemma PoolTerminates(s: State, w: nat, ok: bool)
    requires Valid(s) && w < |s.workers| && !s.workers[w].Gone?
    ensures var r := Step(s, Turn(s, w, ok)); Valid(r) && Left(r) < Left(s)
  {
    var r := Step(s, Turn(s, w, ok));
    StepKeepsValid(s, Turn(s, w, ok));
    WorkersLeftUpdate(s.workers, w, r.workers[w]);
  }

  // ── The loop, under a scheduler that picks any worker at every await ───────

  lemma {:induction false} RunThenStep(s: State, es: seq<Event>, e: Event)
    ensures Run(s, es + [e]) == Step(Run(s, es), e)
    decreases |es|
  {
    if es == [] {
      assert es + [e] == [e];
    } else {
      assert (es + [e])[1..] == es[1..] + [e];
      RunThenStep(Step(s, es[0]), es[1..], e);
    }
  }

  /** A run goes on with the next turn of a worker that is not gone. */
  lemma TurnExtends(n: nat, es: seq<Event>, w: nat, ok: bool)
    requires w < |Run(Init(n), es).workers| && !Run(Init(n), es).workers[w].Gone?
    ensures var s := Run(Init(n), es);
            var r := Step(s, Turn(s, w, ok));
            && r == Run(Init(n), es + [Turn(s, w, ok)]) && r.n == n && |r.workers| == |s.workers|
            && s.cursor <= s.n && r.cursor <= n && Left(r) < Left(s)
  {
    var s := Run(Init(n), es);
    RunKeepsValid(Init(n), es);
    RunThenStep(Init(n), es, Turn(s, w, ok));
    PoolTerminates(s, w, ok);
  }

  lemma FinishedTookAll(n: nat, es: seq<Event>)
    requires Finished(Run(Init(n), es))
    ensures Run(Init(n), es).cursor == n
  {
    RunKeepsValid(Init(n), es);
    PoolIsComplete(n, es);
  }

  /** Runs the pool to its end; `started` lists the flushes in the order they were begun. */
  method FlushAll(nodeIds: seq<string>, outcome: nat -> bool) returns (started: seq<string>, peak: nat)
    ensures started == nodeIds
    ensures peak <= Min(FLUSH_CONCURRENCY, |nodeIds|)
  {
    var n := |nodeIds|;
    var workers := seq(Min(FLUSH_CONCURRENCY, n), _ => AtLoop);
    var cursor := 0;
    ghost var s := Init(n);
    ghost var es: seq<Event> := [];
    started, peak := [], 0;
    while exists w :: 0 <= w < |workers| && !workers[w].Gone?
      invariant s == Run(Init(n), es) && s.n == n && s.cursor == cursor <= n && s.workers == workers
      invariant |workers| == Min(FLUSH_CONCURRENCY, n)
      invariant started == nodeIds[..cursor]
      invariant peak <= |workers|
      decreases Left(s)
    {
      var w: nat :| w < |workers| && !workers[w].Gone?;
      TurnExtends(n, es, w, outcome(w));
      es := es + [Turn(s, w, outcome(w))];
      s := Step(s, Turn(s, w, outcome(w)));
      if workers[w].AtLoop? {
        if cursor < n {
          started := started + [nodeIds[cursor]];
          workers := workers[w := Flushing(cursor)];
          cursor := cursor + 1;
        } else {
          workers := workers[w := Gone];
        }
      } else {
        workers := workers[w := AtLoop];
      }
      InFlightBounded(workers);
      if InFlight(workers) > peak {
        peak := InFlight(workers);
      }
    }
    FinishedTookAll(n, es);
  }
}
