/**
 Idempotent appends to a node's body: every request that shares one idempotency key, from the
 HTTP endpoint or the event bus, against the Redis cell of that key.

 One step is the code between two awaits.  `Expire` is the cell's time to live running out.
 */
module NodeContent {
  import opened Wrappers
  import ManagedDocs

  /** `operationId` is fresh per request, so the request's number stands for it. */
  datatype Response = Response(operationId: nat, previousVersion: nat, version: nat, duplicate: bool)

  datatype Cell = Absent | InProgress(hash: string) | Recorded(hash: string, response: Response) | Applied

  datatype Failure =
    | NotFound | KeyReused | OperationInProgress | VersionConflict(current: nat) | AppendFailed | BroadcastFailed
    | StoreFailed

  datatype Path = Http(hash: string, expected: Option<nat>) | Bus

  datatype Pc =
    | Arrived
    | Read(previous: nat)
    | Claiming(previous: nat)
    | Appending(previous: nat)
    | Flushing(previous: nat, applied: nat)
    | Recording(response: Response)
    | Releasing
    | Succeeded(response: Response)
    | Finished
    | AlreadyApplied
    | Rejected(failure: Failure)

  /** `applied` is the row version when the text went in.  `added` tells whether the request's append brought the document a new struct. */
  datatype Request = Request(path: Path, pc: Pc, added: bool)

  /**
   `appended` lists the requests whose text went into the document; `failedFlushes` counts
   flushes lost after that, `failedBroadcasts` the event bus requests whose flush succeeded and
   whose broadcast threw.
   */
  datatype State = State(
    cell: Cell, rowVersion: nat, requests: seq<Request>, appended: seq<nat>, failedFlushes: nat, failedBroadcasts: nat)

  datatype Event =
    | Arrive(path: Path)
    | ReadNode(r: nat, found: bool)
    | CheckCache(r: nat)
    | Claim(r: nat)
    | ClaimLost(r: nat, landed: bool)
    | TextApplied(r: nat, added: bool)
    | AppendFails(r: nat)
    | FlushSucceeds(r: nat, reported: nat)
    | FlushFails(r: nat)
    | BroadcastFails(r: nat, reported: nat)
    | Record(r: nat)
    | RecordLost(r: nat, landed: bool)
    | Release(r: nat)
    | ReleaseLost(r: nat, landed: bool)
    | RowCommits
    | Expire

  function Init(rowVersion: nat): State {
    State(Absent, rowVersion, [], [], 0, 0)
  }

  function ClaimOf(p: Path): Cell {
    match p
    case Http(hash, _) => InProgress(hash)
    case Bus => Applied
  }

  function At(s: State, r: nat, pc: Pc): State
    requires r < |s.requests|
  {
    s.(requests := s.requests[r := s.requests[r].(pc := pc)])
  }

  /** What the HTTP path makes of the cell before it tries to claim it. */
  function CacheAnswer(cell: Cell, hash: string, expected: Option<nat>, previous: nat): Pc {
    match cell
    case InProgress(h) => if h != hash then Rejected(KeyReused) else Rejected(OperationInProgress)
    case Recorded(h, response) =>
      if h != hash then Rejected(KeyReused) else Succeeded(response.(duplicate := true))
    case Applied => Rejected(KeyReused)
    case Absent =>
      if expected.Some? && expected.value != previous then Rejected(VersionConflict(previous)) else Claiming(previous)
  }

  /** The request has its claim, and has not given it back or turned it into a record. */
  predicate Holds(q: Request) {
    q.pc.Appending? || q.pc.Flushing? || q.pc.Recording? || q.pc.Releasing?
  }

  function Step(s: State, e: Event): State {
    match e
    case Arrive(path) => s.(requests := s.requests + [Request(path, Arrived, false)])
    case ReadNode(r, found) =>
      if r < |s.requests| && s.requests[r].pc.Arrived? then
        if !found then At(s, r, Rejected(NotFound))
        else if s.requests[r].path.Http? then At(s, r, Read(s.rowVersion))
        else At(s, r, Claiming(s.rowVersion))
      else s
    case CheckCache(r) =>
      if r < |s.requests| && s.requests[r].pc.Read? && s.requests[r].path.Http? then
        var p := s.requests[r].path;
        At(s, r, CacheAnswer(s.cell, p.hash, p.expected, s.requests[r].pc.previous))
      else s
    case Claim(r) =>
      if r < |s.requests| && s.requests[r].pc.Claiming? then
        if s.cell.Absent? then
          At(s, r, Appending(s.requests[r].pc.previous)).(cell := ClaimOf(s.requests[r].path))
        else At(s, r, if s.requests[r].path.Http? then Rejected(OperationInProgress) else AlreadyApplied)
      else s
    case ClaimLost(r, landed) =>
      if r < |s.requests| && s.requests[r].pc.Claiming? then
        At(s, r, Rejected(StoreFailed))
          .(cell := if landed && s.cell.Absent? then ClaimOf(s.requests[r].path) else s.cell)
      else s
    case TextApplied(r, added) =>
      if r < |s.requests| && s.requests[r].pc.Appending? then
        s.(requests := s.requests[r := Request(s.requests[r].path, Flushing(s.requests[r].pc.previous, s.rowVersion), added)],
           appended := s.appended + [r])
      else s
    case AppendFails(r) =>
      if r < |s.requests| && s.requests[r].pc.Appending? then At(s, r, Releasing) else s
    case FlushSucceeds(r, reported) =>
      // what the manager's flush may report, by `Appends.AppendAdvancesVersion`
      if r < |s.requests| && s.requests[r].pc.Flushing?
         && ManagedDocs.ReportFits(s.requests[r].pc.applied, s.requests[r].added, reported, s.rowVersion) then
        var response := Response(r, s.requests[r].pc.previous, reported, false);
        At(s, r, if s.requests[r].path.Http? then Recording(response) else Finished)
      else s
    case FlushFails(r) =>
      if r < |s.requests| && s.requests[r].pc.Flushing? then
        At(s, r, Releasing).(failedFlushes := s.failedFlushes + 1)
      else s
    case BroadcastFails(r, reported) =>
      // the flush succeeded; the event bus path has the broadcast inside its `try`, the HTTP path after it
      if r < |s.requests| && s.requests[r].pc.Flushing?
         && ManagedDocs.ReportFits(s.requests[r].pc.applied, s.requests[r].added, reported, s.rowVersion) then
        if s.requests[r].path.Bus? then At(s, r, Releasing).(failedBroadcasts := s.failedBroadcasts + 1)
        else At(s, r, Rejected(BroadcastFailed))
      else s
    case Record(r) =>
      if r < |s.requests| && s.requests[r].pc.Recording? && s.requests[r].path.Http? then
        var response := s.requests[r].pc.response;
        At(s, r, Succeeded(response)).(cell := Recorded(s.requests[r].path.hash, response))
      else s
    case RecordLost(r, landed) =>
      if r < |s.requests| && s.requests[r].pc.Recording? && s.requests[r].path.Http? then
        At(s, r, Rejected(StoreFailed))
          .(cell := if landed then Recorded(s.requests[r].path.hash, s.requests[r].pc.response) else s.cell)
      else s
    case Release(r) =>
      if r < |s.requests| && s.requests[r].pc.Releasing? then
        At(s, r, Rejected(AppendFailed)).(cell := Absent)
      else s
    case ReleaseLost(r, landed) =>
      if r < |s.requests| && s.requests[r].pc.Releasing? then
        At(s, r, Rejected(StoreFailed)).(cell := if landed then Absent else s.cell)
      else s
    case RowCommits => s.(rowVersion := s.rowVersion + 1)
    case Expire => s.(cell := Absent)
  }

  function Run(s: State, es: seq<Event>): State
    decreases |es|
  {
    if es == [] then s else Run(Step(s, es[0]), es[1..])
  }

  // ── Mutual exclusion ───────────────────────────────────────────────────────

  ghost predicate OneHolder(s: State) {
    && (forall r :: 0 <= r < |s.requests| && Holds(s.requests[r]) ==> s.cell == ClaimOf(s.requests[r].path))
    && (forall q, r :: 0 <= q < r < |s.requests| ==> !(Holds(s.requests[q]) && Holds(s.requests[r])))
    && (forall r :: 0 <= r < |s.requests| && s.requests[r].pc.Recording? ==> s.requests[r].path.Http?)
  }

  /** The steps that read or write the cell on behalf of a request. */
  predicate OnCell(e: Event) {
    e.Claim? || e.ClaimLost? || e.Record? || e.RecordLost? || e.Release? || e.ReleaseLost?
  }

  /** The steps of the append and its flush. */
  predicate OnDocument(e: Event) {
    e.TextApplied? || e.AppendFails? || e.FlushSucceeds? || e.FlushFails? || e.BroadcastFails?
  }

  lemma ClaimKeepsOneHolder(s: State, e: Event)
    requires OneHolder(s) && (e.Claim? || e.ClaimLost?)
    ensures OneHolder(Step(s, e))
  {
  }

  lemma CellStepKeepsOneHolder(s: State, e: Event)
    requires OneHolder(s) && OnCell(e)
    ensures OneHolder(Step(s, e))
  {
    if e.Claim? || e.ClaimLost? {
      ClaimKeepsOneHolder(s, e);
    }
  }

  lemma DocumentStepKeepsOneHolder(s: State, e: Event)
    requires OneHolder(s) && OnDocument(e)
    ensures OneHolder(Step(s, e))
  {
  }

  lemma OtherStepKeepsOneHolder(s: State, e: Event)
    requires OneHolder(s) && !OnCell(e) && !OnDocument(e) && !e.Expire?
    ensures OneHolder(Step(s, e))
  {
  }

  lemma StepKeepsOneHolder(s: State, e: Event)
    requires OneHolder(s) && !e.Expire?
    ensures OneHolder(Step(s, e))
  {
    if OnCell(e) {
      CellStepKeepsOneHolder(s, e);
    } else if OnDocument(e) {
      DocumentStepKeepsOneHolder(s, e);
    } else {
      OtherStepKeepsOneHolder(s, e);
    }
  }

  // ── At most one append ─────────────────────────────────────────────────────

  /** The key is free, or claimed for a text that is not in the document or whose flush has failed. */
  ghost predicate NoTextPending(s: State) {
    s.cell.Absent? ||
    exists r :: 0 <= r < |s.requests| && (s.requests[r].pc.Appending? || s.requests[r].pc.Releasing?)
  }

  /** How often the key was given back with the text in the document. */
  function GivenBack(s: State): nat {
    s.failedFlushes + s.failedBroadcasts
  }

  /** Each time left a text behind; beyond those there is at most the text of the standing claim. */
  ghost predicate AppendsPaid(s: State) {
    && GivenBack(s) <= |s.appended| <= GivenBack(s) + 1
    && (NoTextPending(s) ==> |s.appended| == GivenBack(s))
    && (forall r :: 0 <= r < |s.requests| && s.requests[r].pc.Flushing? ==> |s.appended| == GivenBack(s) + 1)
  }

  lemma StepKeepsAppendsPaid(s: State, e: Event)
    requires OneHolder(s) && AppendsPaid(s) && !e.Expire?
    ensures AppendsPaid(Step(s, e))
  {
  }

  // ── The recorded answer ────────────────────────────────────────────────────

  ghost predicate Fresh(s: State, response: Response) {
    && !response.duplicate
    && response.operationId < |s.requests| && response.operationId in s.appended
    && response.version <= s.rowVersion
    && (s.requests[response.operationId].added ==> response.previousVersion < response.version)
  }

  ghost predicate RequestRight(s: State, r: nat)
    requires r < |s.requests|
  {
    match s.requests[r].pc
    case Read(previous) => previous <= s.rowVersion
    case Claiming(previous) => previous <= s.rowVersion
    case Appending(previous) => previous <= s.rowVersion
    case Flushing(previous, applied) => previous <= applied <= s.rowVersion && r in s.appended
    case Recording(response) => Fresh(s, response) && response.operationId == r
    case Succeeded(response) =>
      && s.requests[r].path.Http?
      && s.cell == Recorded(s.requests[r].path.hash, response.(duplicate := false))
      && (!response.duplicate ==> response.operationId == r)
    case _ => true
  }

  ghost predicate AnswersRight(s: State) {
    && (s.cell.Recorded? ==> Fresh(s, s.cell.response))
    && forall r :: 0 <= r < |s.requests| ==> RequestRight(s, r)
  }

  lemma {:induction false} FreshStays(s: State, t: State, response: Response)
    requires Fresh(s, response) && |s.requests| <= |t.requests| && s.rowVersion <= t.rowVersion
    requires s.appended <= t.appended
    requires t.requests[response.operationId].added == s.requests[response.operationId].added
    ensures Fresh(t, response)
  {
  }

  /** Nothing happened to a request and the cell still says what its answer says. */
  lemma RequestStays(s: State, t: State, r: nat)
    requires r < |s.requests| <= |t.requests| && RequestRight(s, r) && t.requests[r] == s.requests[r]
    requires s.rowVersion <= t.rowVersion && s.appended <= t.appended
    requires s.requests[r].pc.Succeeded? ==> t.cell == s.cell
    ensures RequestRight(t, r)
  {
  }

  /** Which request an event belongs to. */
  function Actor(e: Event): Option<nat> {
    match e
    case Arrive(_) => None
    case RowCommits => None
    case Expire => None
    case _ => Some(e.r)
  }

  /** Requests other than the one that acts are as they were, and a recorded cell stays recorded. */
  lemma StepIsLocal(s: State, e: Event)
    requires OneHolder(s) && !e.Expire?
    ensures var t := Step(s, e);
            && |s.requests| <= |t.requests| && s.rowVersion <= t.rowVersion && s.appended <= t.appended
            && (s.cell.Recorded? ==> t.cell == s.cell)
            && (forall r :: 0 <= r < |s.requests| && Actor(e) != Some(r) ==> t.requests[r] == s.requests[r])
  {
  }

  lemma {:induction false} ActorIsRight(s: State, e: Event)
    requires OneHolder(s) && AnswersRight(s) && !e.Expire? && Actor(e).Some? && Actor(e).value < |s.requests|
    ensures RequestRight(Step(s, e), Actor(e).value)
  {
    var r := Actor(e).value;
    assert RequestRight(s, r);
    var t := Step(s, e);
    if t == s {
    } else if e.TextApplied? {
      assert t.appended[|s.appended|] == r;
    } else if e.FlushSucceeds? {
      var i :| 0 <= i < |s.appended| && s.appended[i] == r;
    }
  }

  lemma {:induction false} StepKeepsAnswers(s: State, e: Event)
    requires OneHolder(s) && AnswersRight(s) && !e.Expire?
    ensures AnswersRight(Step(s, e))
  {
    StepIsLocal(s, e);
    var t := Step(s, e);
    forall r | 0 <= r < |t.requests| ensures RequestRight(t, r) {
      if r < |s.requests| {
        if Actor(e) == Some(r) {
          ActorIsRight(s, e);
        } else {
          assert RequestRight(s, r);
          RequestStays(s, t, r);
        }
      }
    }
    if t.cell.Recorded? {
      if s.cell.Recorded? {
        CellStays(s, e);
      } else {
        assert RequestRight(s, e.r);
        FreshStays(s, t, t.cell.response);
      }
    }
  }

  lemma {:induction false} CellStays(s: State, e: Event)
    requires OneHolder(s) && !e.Expire? && s.cell.Recorded? && Fresh(s, s.cell.response)
    ensures Fresh(Step(s, e), s.cell.response)
  {
  }

  ghost predicate Valid(s: State) {
    OneHolder(s) && AppendsPaid(s) && AnswersRight(s)
  }

  lemma {:induction false} RunKeepsValid(s: State, es: seq<Event>)
    requires Valid(s) && Expire !in es
    ensures Valid(Run(s, es))
    decreases |es|
  {
    if es != [] {
      assert es[0] in es;
      StepKeepsOneHolder(s, es[0]);
      StepKeepsAppendsPaid(s, es[0]);
      StepKeepsAnswers(s, es[0]);
      RunKeepsValid(Step(s, es[0]), es[1..]);
    }
  }

  /** Any number of requests on both paths, no expiry: one holder of the claim, one append and one more per key given back. */
  lemma AtMostOneAppend(rowVersion: nat, es: seq<Event>)
    requires Expire !in es
    ensures var s := Run(Init(rowVersion), es);
            && (forall q, r :: 0 <= q < r < |s.requests| ==> !(Holds(s.requests[q]) && Holds(s.requests[r])))
            && GivenBack(s) <= |s.appended| <= 1 + GivenBack(s)
  {
    RunKeepsValid(Init(rowVersion), es);
  }

  /**
   Text goes in again exactly if a flush failed before, or the broadcast on the event bus path: the
   key stops every other repetition, and those it lets through.
   */
  lemma RepeatsIffGivenBack(rowVersion: nat, es: seq<Event>, r: nat, added: bool)
    requires Expire !in es
    requires var s := Run(Init(rowVersion), es); r < |s.requests| && s.requests[r].pc.Appending?
    ensures var s := Run(Init(rowVersion), es);
            && (s.appended != [] <==> s.failedFlushes > 0 || s.failedBroadcasts > 0)
            && |Step(s, TextApplied(r, added)).appended| == GivenBack(s) + 1
  {
    RunKeepsValid(Init(rowVersion), es);
    assert NoTextPending(Run(Init(rowVersion), es));
  }

  /** All successful answers to one body agree except for `duplicate`, only one is fresh, and its text was appended. */
  lemma AnswersAgree(rowVersion: nat, es: seq<Event>, q: nat, r: nat)
    requires Expire !in es
    requires var s := Run(Init(rowVersion), es);
             q < |s.requests| && r < |s.requests| && s.requests[q].pc.Succeeded? && s.requests[r].pc.Succeeded?
    ensures var s := Run(Init(rowVersion), es);
            var a, b := s.requests[q].pc.response, s.requests[r].pc.response;
            && s.requests[q].path.Http? && s.requests[r].path.Http? && s.requests[q].path.hash == s.requests[r].path.hash
            && a.(duplicate := b.duplicate) == b
            && (!a.duplicate && !b.duplicate ==> q == r)
            && a.operationId in s.appended
  {
    RunKeepsValid(Init(rowVersion), es);
    var s := Run(Init(rowVersion), es);
    assert RequestRight(s, q) && RequestRight(s, r);
  }

  /** A fresh success whose text added a struct reports a version above the one its caller was told of. */
  lemma FreshVersionAdvances(rowVersion: nat, es: seq<Event>, r: nat)
    requires Expire !in es
    requires var s := Run(Init(rowVersion), es);
             r < |s.requests| && s.requests[r].pc.Succeeded? && !s.requests[r].pc.response.duplicate
             && s.requests[r].added
    ensures var response := Run(Init(rowVersion), es).requests[r].pc.response;
            response.previousVersion < response.version
  {
    RunKeepsValid(Init(rowVersion), es);
    assert RequestRight(Run(Init(rowVersion), es), r);
  }

  lemma {:induction false} RunSplit(s: State, first: seq<Event>, second: seq<Event>)
    ensures Run(s, first + second) == Run(Run(s, first), second)
    decreases |first|
  {
    if first == [] {
      assert first + second == second;
    } else {
      assert (first + second)[1..] == first[1..] + second;
      RunSplit(Step(s, first[0]), first[1..], second);
    }
  }

  /** A request of the event bus comes in, finds the node, claims the free key and appends its text. */
  lemma BusAppends(s: State) returns (es: seq<Event>)
    requires s.cell.Absent?
    ensures var r := Run(s, es);
            && r.cell == Applied && r.rowVersion == s.rowVersion && r.failedFlushes == s.failedFlushes && r.failedBroadcasts == s.failedBroadcasts && r.appended == s.appended + [|s.requests|]
            && r.requests == s.requests + [Request(Bus, Flushing(s.rowVersion, s.rowVersion), true)]
    ensures Expire !in es
  {
    var n := |s.requests|;
    es := [Arrive(Bus), ReadNode(n, true), Claim(n), TextApplied(n, true)];
    var s1 := Step(s, es[0]);
    var s2 := Step(s1, es[1]);
    var s3 := Step(s2, es[2]);
    var s4 := Step(s3, es[3]);
    assert es[3..] == [es[3]] && Run(s3, es[3..]) == s4;
    assert es[2..][1..] == es[3..] && Run(s2, es[2..]) == s4;
    assert es[1..][1..] == es[2..] && Run(s1, es[1..]) == s4;
  }

  /** A request of the HTTP endpoint comes in, finds the node and no answer, claims the free key and appends its text. */
  lemma HttpAppends(s: State, hash: string) returns (es: seq<Event>)
    requires s.cell.Absent?
    ensures var r := Run(s, es);
            && r.cell == InProgress(hash) && r.failedFlushes == s.failedFlushes && r.failedBroadcasts == s.failedBroadcasts && r.appended == s.appended + [|s.requests|]
            && r.requests == s.requests + [Request(Http(hash, None), Flushing(s.rowVersion, s.rowVersion), true)]
    ensures Expire !in es
  {
    var n := |s.requests|;
    es := [Arrive(Http(hash, None)), ReadNode(n, true), CheckCache(n), Claim(n), TextApplied(n, true)];
    var s1 := Step(s, es[0]);
    var s2 := Step(s1, es[1]);
    var s3 := Step(s2, es[2]);
    var s4 := Step(s3, es[3]);
    var s5 := Step(s4, es[4]);
    assert es[4..] == [es[4]] && Run(s4, es[4..]) == s5;
    assert es[3..][1..] == es[4..] && Run(s3, es[3..]) == s5;
    assert es[2..][1..] == es[3..] && Run(s2, es[2..]) == s5;
    assert es[1..][1..] == es[2..] && Run(s1, es[1..]) == s5;
  }

  /** Once the claim expires under a running append, the repeated request appends too, without any failure. */
  lemma ExpiryAllowsSecondAppend() returns (es: seq<Event>)
    ensures GivenBack(Run(Init(0), es)) == 0 && |Run(Init(0), es).appended| == 2
    ensures forall r :: 0 <= r < |Run(Init(0), es).requests| ==>
              Holds(Run(Init(0), es).requests[r]) && Run(Init(0), es).requests[r].path == Http("body", None)
  {
    var first := HttpAppends(Init(0), "body");
    var s := Step(Run(Init(0), first), Expire);
    var second := HttpAppends(s, "body");
    es := first + ([Expire] + second);
    RunSplit(Init(0), first, [Expire] + second);
    assert ([Expire] + second)[1..] == second;
  }

  /** A flush that fails after the text went in releases the key: the repeated command appends the text again. */
  lemma FailedFlushAllowsSecondAppend() returns (es: seq<Event>)
    ensures Expire !in es && Run(Init(0), es).failedFlushes == 1 && |Run(Init(0), es).appended| == 2
  {
    var first := BusAppends(Init(0));
    var s0 := Run(Init(0), first);
    var s1 := Step(s0, FlushFails(0));
    var s := Step(s1, Release(0));
    var second := BusAppends(s);
    es := first + ([FlushFails(0)] + ([Release(0)] + second));
    assert ([Release(0)] + second)[1..] == second;
    assert ([FlushFails(0)] + ([Release(0)] + second))[1..] == [Release(0)] + second;
    RunSplit(Init(0), first, [FlushFails(0)] + ([Release(0)] + second));
  }

  // ── What a request gets ────────────────────────────────────────────────────

  /** A version the caller expects is the given one. */
  predicate Fits(path: Path, version: nat) {
    path.Http? && path.expected.Some? ==> path.expected.value == version
  }

  /** The request goes by the row version it read: it gets past the check only if it fits, and reports it. */
  predicate GoesBy(q: Request, version: nat) {
    match q.pc
    case Arrived => false
    case Read(previous) => previous == version
    case Claiming(previous) => previous == version && Fits(q.path, version)
    case Appending(previous) => previous == version && Fits(q.path, version)
    case Flushing(previous, _) => previous == version && Fits(q.path, version)
    case Recording(response) => response.previousVersion == version && Fits(q.path, version) && !response.duplicate
    case Releasing => Fits(q.path, version)
    case Succeeded(response) => !response.duplicate ==> response.previousVersion == version && Fits(q.path, version)
    case Rejected(VersionConflict(current)) => current == version && !Fits(q.path, version)
    case _ => true
  }

  lemma StepGoesBy(s: State, e: Event, r: nat, version: nat)
    requires r < |s.requests| && GoesBy(s.requests[r], version)
    ensures r < |Step(s, e).requests| && GoesBy(Step(s, e).requests[r], version)
  {
  }

  lemma {:induction false} RunGoesBy(s: State, es: seq<Event>, r: nat, version: nat)
    requires r < |s.requests| && GoesBy(s.requests[r], version)
    ensures r < |Run(s, es).requests| && GoesBy(Run(s, es).requests[r], version)
    decreases |es|
  {
    if es != [] {
      StepGoesBy(s, es[0], r, version);
      RunGoesBy(Step(s, es[0]), es[1..], r, version);
    }
  }

  /**
   In every run, expiry included: a request is held to the row version at the moment it read the
   node.  It writes only if the version it expects is that one, is refused for its version only
   if it is not, and a fresh answer names that version as the previous one.
   */
  lemma VersionIsCheckedAtRead(s: State, r: nat, es: seq<Event>)
    requires r < |s.requests| && s.requests[r].pc.Arrived?
    ensures var t := Run(Step(s, ReadNode(r, true)), es);
            r < |t.requests| && GoesBy(t.requests[r], s.rowVersion)
  {
    RunGoesBy(Step(s, ReadNode(r, true)), es, r, s.rowVersion);
  }

  /** What the cached cell decides, case by case; nothing else changes. */
  lemma CellDecides(s: State, r: nat)
    requires r < |s.requests| && s.requests[r].pc.Read? && s.requests[r].path.Http?
    ensures var path, previous, t := s.requests[r].path, s.requests[r].pc.previous, Step(s, CheckCache(r));
            var pc := t.requests[r].pc;
            && t == s.(requests := t.requests) && t.requests == s.requests[r := s.requests[r].(pc := pc)]
            && (pc == Rejected(VersionConflict(previous)) <==> s.cell.Absent? && !Fits(path, previous))
            && (pc == Claiming(previous) <==> s.cell.Absent? && Fits(path, previous))
            && (pc.Succeeded? <==> s.cell.Recorded? && s.cell.hash == path.hash)
            && (pc.Succeeded? ==> pc.response == s.cell.response.(duplicate := true))
            && (pc == Rejected(OperationInProgress) <==> s.cell == InProgress(path.hash))
            && (pc == Rejected(KeyReused) <==>
                  s.cell.Applied? || ((s.cell.InProgress? || s.cell.Recorded?) && s.cell.hash != path.hash))
  {
  }

  /** A request that fits, on a free key, goes through: its answer is recorded and names both versions. */
  lemma HttpGoesThrough(s: State, hash: string, expected: Option<nat>) returns (es: seq<Event>)
    requires s.cell.Absent? && (expected.Some? ==> expected.value == s.rowVersion)
    ensures var n := |s.requests|;
            var response := Response(n, s.rowVersion, s.rowVersion + 1, false);
            && Run(s, es).requests == s.requests + [Request(Http(hash, expected), Succeeded(response), true)]
            && Run(s, es).cell == Recorded(hash, response)
            && Run(s, es).appended == s.appended + [n] && Run(s, es).rowVersion == s.rowVersion + 1
  {
    var n := |s.requests|;
    var start := [Arrive(Http(hash, expected)), ReadNode(n, true), CheckCache(n), Claim(n)];
    var s1 := Step(s, start[0]);
    var s2 := Step(s1, start[1]);
    var s3 := Step(s2, start[2]);
    var s4 := Step(s3, start[3]);
    assert s4 == s.(requests := s.requests + [Request(Http(hash, expected), Appending(s.rowVersion), false)],
                    cell := InProgress(hash));
    assert start[3..] == [start[3]] && Run(s3, start[3..]) == s4;
    assert start[2..][1..] == start[3..] && Run(s2, start[2..]) == s4;
    assert start[1..][1..] == start[2..] && Run(s1, start[1..]) == s4;
    var rest := AppendGoesThrough(s4, n);
    RunSplit(s, start, rest);
    es := start + rest;
  }

  lemma AppendGoesThrough(s: State, n: nat) returns (es: seq<Event>)
    requires n < |s.requests| && s.requests[n].pc.Appending? && s.requests[n].path.Http?
    requires s.cell == InProgress(s.requests[n].path.hash) && s.requests[n].pc.previous == s.rowVersion
    ensures var path, response := s.requests[n].path, Response(n, s.rowVersion, s.rowVersion + 1, false);
            Run(s, es) == s.(requests := s.requests[n := Request(path, Succeeded(response), true)],
                             cell := Recorded(path.hash, response), appended := s.appended + [n], rowVersion := s.rowVersion + 1)
  {
    es := [TextApplied(n, true), RowCommits, FlushSucceeds(n, s.rowVersion + 1), Record(n)];
    var s1 := Step(s, es[0]);
    var s2 := Step(s1, es[1]);
    var s3 := Step(s2, es[2]);
    var s4 := Step(s3, es[3]);
    assert es[3..] == [es[3]] && Run(s3, es[3..]) == s4;
    assert es[2..][1..] == es[3..] && Run(s2, es[2..]) == s4;
    assert es[1..][1..] == es[2..] && Run(s1, es[1..]) == s4;
  }

  /** Once an answer is recorded, a request with the same body gets it as a duplicate, and one with another body is refused. */
  lemma RecordedAnswersRepeat(s: State, hash: string, expected: Option<nat>)
    requires s.cell.Recorded?
    ensures var n := |s.requests|;
            var t := Run(s, [Arrive(Http(hash, expected)), ReadNode(n, true), CheckCache(n)]);
            && |t.requests| == n + 1 && t.cell == s.cell && t.appended == s.appended
            && t.requests[n].pc ==
                 if hash == s.cell.hash then Succeeded(s.cell.response.(duplicate := true)) else Rejected(KeyReused)
  {
    var n := |s.requests|;
    var s1 := Step(s, Arrive(Http(hash, expected)));
    var s2 := Step(s1, ReadNode(n, true));
    var s3 := Step(s2, CheckCache(n));
    assert Run(s2, [CheckCache(n)]) == s3;
    assert Run(s1, [ReadNode(n, true), CheckCache(n)]) == s3;
  }

  /** A command of the event bus whose key is taken is not applied. */
  lemma TakenKeyIsNotApplied(s: State)
    requires !s.cell.Absent?
    ensures var n := |s.requests|;
            var t := Run(s, [Arrive(Bus), ReadNode(n, true), Claim(n)]);
            |t.requests| == n + 1 && t.requests[n].pc == AlreadyApplied && t.cell == s.cell && t.appended == s.appended
  {
    var n := |s.requests|;
    var s1 := Step(s, Arrive(Bus));
    var s2 := Step(s1, ReadNode(n, true));
    var s3 := Step(s2, Claim(n));
    assert Run(s2, [Claim(n)]) == s3;
    assert Run(s1, [ReadNode(n, true), Claim(n)]) == s3;
  }

  /** A claim wins on an absent cell; else an HTTP request is told of the operation in progress, and a command is taken for applied. */
  lemma ClaimDecides(s: State, r: nat)
    requires r < |s.requests| && s.requests[r].pc.Claiming?
    ensures var q, t := s.requests[r], Step(s, Claim(r));
            && t == s.(cell := t.cell, requests := s.requests[r := q.(pc := t.requests[r].pc)])
            && t.cell == (if !s.cell.Absent? then s.cell
                          else if q.path.Http? then InProgress(q.path.hash) else Applied)
            && t.requests[r].pc == (if s.cell.Absent? then Appending(q.pc.previous)
                                    else if q.path.Http? then Rejected(OperationInProgress) else AlreadyApplied)
  {
  }

  /** A command of the event bus on a free key is applied once, and its key stays taken. */
  lemma BusGoesThrough(s: State) returns (es: seq<Event>)
    requires s.cell.Absent?
    ensures var r := Run(s, es);
            && r.requests == s.requests + [Request(Bus, Finished, true)] && r.cell == Applied
            && r.appended == s.appended + [|s.requests|] && r.rowVersion == s.rowVersion + 1
  {
    var n := |s.requests|;
    var first := BusAppends(s);
    var second := [RowCommits, FlushSucceeds(n, s.rowVersion + 1)];
    es := first + second;
    var s0 := Run(s, first);
    var s1 := Step(s0, RowCommits);
    var s2 := Step(s1, FlushSucceeds(n, s.rowVersion + 1));
    assert Run(s1, [FlushSucceeds(n, s.rowVersion + 1)]) == s2;
    assert Run(s0, second) == s2;
    RunSplit(s, first, second);
  }

  /** A broadcast that throws after a successful flush: a command gives its key back, an HTTP request leaves it taken. */
  lemma FailedBroadcast(s: State, r: nat, reported: nat)
    requires r < |s.requests| && s.requests[r].pc.Flushing?
    requires ManagedDocs.ReportFits(s.requests[r].pc.applied, s.requests[r].added, reported, s.rowVersion)
    ensures var t := Step(s, BroadcastFails(r, reported));
            && t.appended == s.appended && t.cell == s.cell
            && (s.requests[r].path.Http? ==> t.requests[r].pc == Rejected(BroadcastFailed))
            && (s.requests[r].path.Bus? ==>
                  t.requests[r].pc == Releasing && t.failedBroadcasts == s.failedBroadcasts + 1
                  && Step(t, Release(r)).cell == Absent)
  {
  }

  /** A store call that fails rejects its request; whether it took effect shows in the cell alone. */
  lemma LostCallsReject(s: State, r: nat, landed: bool)
    requires r < |s.requests|
    ensures s.requests[r].pc.Claiming? ==>
              var t := Step(s, ClaimLost(r, landed));
              && t.requests[r].pc == Rejected(StoreFailed)
              && t.cell == if landed && s.cell.Absent? then ClaimOf(s.requests[r].path) else s.cell
    ensures s.requests[r].pc.Recording? && s.requests[r].path.Http? ==>
              var t := Step(s, RecordLost(r, landed));
              && t.requests[r].pc == Rejected(StoreFailed)
              && t.cell == if landed then Recorded(s.requests[r].path.hash, s.requests[r].pc.response) else s.cell
    ensures s.requests[r].pc.Releasing? ==>
              var t := Step(s, ReleaseLost(r, landed));
              t.requests[r].pc == Rejected(StoreFailed) && t.cell == if landed then Absent else s.cell
    ensures s.requests[r].pc.Arrived? ==> Step(s, ReadNode(r, false)).requests[r].pc == Rejected(NotFound)
  {
  }

  /** A failed append gives the key back on either path, and then new requests of either path can write. */
  lemma FailureFreesKey(s: State, r: nat, e: Event) returns (http: seq<Event>, bus: seq<Event>)
    requires r < |s.requests| && (s.requests[r].pc.Appending? || s.requests[r].pc.Flushing?)
    requires e == if s.requests[r].pc.Appending? then AppendFails(r) else FlushFails(r)
    ensures var t := Step(Step(s, e), Release(r));
            && t.cell == Absent && t.requests[r].pc == Rejected(AppendFailed) && t.appended == s.appended
            && Run(t, http).requests ==
                 t.requests + [Request(Http("body", None), Flushing(t.rowVersion, t.rowVersion), true)]
            && Run(t, bus).requests == t.requests + [Request(Bus, Flushing(t.rowVersion, t.rowVersion), true)]
  {
    var t := Step(Step(s, e), Release(r));
    http := HttpAppends(t, "body");
    bus := BusAppends(t);
  }

  // ── The service as it is written ───────────────────────────────────────────

  class ContentOperations {
    var cell: Cell
    var rowVersion: nat
    var requests: seq<Request>
    var appended: seq<nat>
    var failedFlushes: nat
    var failedBroadcasts: nat

    ghost function Model(): State
      reads this
    {
      State(cell, rowVersion, requests, appended, failedFlushes, failedBroadcasts)
    }

    constructor (version: nat)
      ensures Model() == Init(version)
    {
      cell, rowVersion, requests, appended := Absent, version, [], [];
      failedFlushes, failedBroadcasts := 0, 0;
    }

    method MoveTo(r: nat, pc: Pc)
      requires r < |requests|
      modifies this`requests
      ensures requests == old(requests)[r := old(requests)[r].(pc := pc)]
    {
      requests := requests[r := requests[r].(pc := pc)];
    }

    /** The HTTP path between reading the cell and claiming it. */
    method ReadCell(r: nat)
      requires r < |requests| && requests[r].pc.Read? && requests[r].path.Http?
      modifies this`requests
      ensures Model() == Step(old(Model()), CheckCache(r))
    {
      var requestHash := requests[r].path.hash;
      var previous := requests[r].pc.previous;
      if !cell.Absent? {
        // an `APPLIED` cell carries no request hash, so no hash equals it
        if cell.Applied? || cell.hash != requestHash {
          MoveTo(r, Rejected(KeyReused));
          return;
        }
        if cell.InProgress? {
          MoveTo(r, Rejected(OperationInProgress));
          return;
        }
        MoveTo(r, Succeeded(cell.response.(duplicate := true)));
        return;
      }
      if requests[r].path.expected.Some? && requests[r].path.expected.value != previous {
        MoveTo(r, Rejected(VersionConflict(previous)));
        return;
      }
      MoveTo(r, Claiming(previous));
    }

    /** `SET ... NX` on either path. */
    method ClaimCell(r: nat) returns (claimed: bool)
      requires r < |requests| && requests[r].pc.Claiming?
      modifies this`cell, this`requests
      ensures claimed == old(cell).Absent?
      ensures Model() == Step(old(Model()), Claim(r))
    {
      claimed := cell.Absent?;
      if claimed {
        match requests[r].path {
          case Http(hash, _) => cell := InProgress(hash);
          case Bus => cell := Applied;
        }
        MoveTo(r, Appending(requests[r].pc.previous));
      } else if requests[r].path.Http? {
        MoveTo(r, Rejected(OperationInProgress));
      } else {
        MoveTo(r, AlreadyApplied);
      }
    }

    /** `SET` of the answer, and its return to the caller. */
    method RecordAnswer(r: nat) returns (response: Response)
      requires r < |requests| && requests[r].pc.Recording? && requests[r].path.Http?
      modifies this`cell, this`requests
      ensures response == old(requests)[r].pc.response
      ensures Model() == Step(old(Model()), Record(r))
    {
      response := requests[r].pc.response;
      cell := Recorded(requests[r].path.hash, response);
      MoveTo(r, Succeeded(response));
    }

    /** The `catch` block: give the key back and pass the error on. */
    method ReleaseCell(r: nat)
      requires r < |requests| && requests[r].pc.Releasing?
      modifies this`cell, this`requests
      ensures Model() == Step(old(Model()), Release(r))
    {
      cell := Absent;
      MoveTo(r, Rejected(AppendFailed));
    }
  }
}
