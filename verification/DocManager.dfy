/**
 The manager as it is written: records updated in place, reached through the `docs` map or
 held by a running flush.  Each method takes, as a ghost, any state of the node's machine that
 looks like the node does, and leaves the node looking like that machine after its step; every
 other node stays as it was.
 */
module DocManager {
  import opened Wrappers
  import opened YDocs
  import opened ManagedDocs
  import opened NodeMachine

  class ManagedDoc {
    var doc: YDoc
    var clients: set<string>
    const workspaceId: string
    var saveTimer: Option<nat>
    var idleTimer: Option<nat>
    var dirtyForEmbed: bool
    var lastEditorUserId: Option<string>
    var lastSavedStateVector: Option<StateVector>
    var lastPersisted: Option<Persisted>

    constructor (doc: YDoc, workspaceId: string)
      ensures Value() == Fresh(doc, workspaceId)
    {
      this.doc := doc;
      this.workspaceId := workspaceId;
      clients, dirtyForEmbed := {}, false;
      saveTimer, idleTimer, lastEditorUserId := None, None, None;
      lastSavedStateVector, lastPersisted := None, None;
    }

    method MarkEdited(userId: Option<string>)
      modifies this`dirtyForEmbed, this`lastEditorUserId
      ensures dirtyForEmbed
      ensures lastEditorUserId == if Truthy(userId) then userId else old(lastEditorUserId)
      ensures Value() == Touched(old(Value()), userId)
    {
      dirtyForEmbed := true;
      if Truthy(userId) {
        lastEditorUserId := userId;
      }
    }

    /** The save is remembered, and a job taken when one is due. */
    method Conclude(stateVector: StateVector, persisted: Persisted) returns (job: Option<(string, string)>)
      modifies this
      ensures var m := Remembered(old(Value()), stateVector, persisted);
              && Value() == (if EmbedDue(m) then m.(dirtyForEmbed := false) else m)
              && job == if EmbedDue(m) then Some((m.lastEditor.value, m.workspaceId)) else None
    {
      lastSavedStateVector := Some(stateVector);
      lastPersisted := Some(persisted);
      if dirtyForEmbed && Truthy(lastEditorUserId) {
        dirtyForEmbed := false;
        return Some((lastEditorUserId.value, workspaceId));
      }
      job := None;
    }

    function Value(): Managed
      reads this
    {
      Managed(doc, clients, workspaceId, saveTimer, idleTimer, dirtyForEmbed, lastEditorUserId,
              lastSavedStateVector, lastPersisted)
    }
  }

  /** The timers armed for a node, by name, and the next unused name. */
  datatype Alarms = Alarms(armed: map<nat, Timer>, next: nat)

  /** All that the manager holds for one node. */
  datatype Slot = Slot(managed: Option<Managed>, alarms: Alarms, queue: seq<Task>)

  ghost function SlotOf(s: State): Slot
    requires Wf(s)
  {
    Slot(if s.cur.Some? then Some(s.insts[s.cur.value]) else None, Alarms(s.timers, s.nextTimer), s.queue)
  }

  /** The step after both stores have answered. */
  ghost function Returned(s: State): State
    requires Wf(s) && BothDone(s)
  {
    Conclude(WithResult(s))
  }

  lemma ReturnedLooks(s: State)
    requires Wf(s) && BothDone(s)
    ensures var i, w, r := s.pc.inst, s.writes[s.pc.write], Returned(s);
            var m := Remembered(s.insts[i], Vector(w.state), w.phase.result);
            && Wf(r)
            && r.insts == s.insts[i := if EmbedDue(m) then m.(dirtyForEmbed := false) else m]
            && SlotOf(r) == Slot(if s.cur.Some? then Some(r.insts[s.cur.value]) else None, SlotOf(s).alarms,
                                 if EmbedDue(m) then s.queue else s.queue[1..])
            && (r.pc.Embedding? <==> EmbedDue(m))
  {
  }

  /** What a flush found before its first await; it keeps the record it found. */
  datatype Decision =
    | NotLoaded
    | Skip(managed: ManagedDoc, state: YDoc, result: Persisted)
    | Save(managed: ManagedDoc, state: YDoc, vector: StateVector)

  class YjsDocManager {
    var docs: map<string, ManagedDoc>
    var alarms: map<string, Alarms>
    var operations: map<string, seq<Task>>

    /** No record is listed under two nodes. */
    ghost predicate Valid()
      reads this
    {
      forall m, n :: m in docs && n in docs && docs[m] == docs[n] ==> m == n
    }

    function AlarmsOf(n: string): Alarms
      reads this
    {
      if n in alarms then alarms[n] else Alarms(map[], 0)
    }

    function QueueOf(n: string): seq<Task>
      reads this
    {
      if n in operations then operations[n] else []
    }

    ghost function SlotAt(n: string): Slot
      reads this, docs.Values
    {
      Slot(if n in docs then Some(docs[n].Value()) else None, AlarmsOf(n), QueueOf(n))
    }

    ghost predicate Shows(n: string, s: State)
      reads this, docs.Values
    {
      Wf(s) && SlotAt(n) == SlotOf(s)
    }

    twostate predicate OnlyAt(n: string)
      reads this, docs.Values
    {
      forall m :: m != n ==> SlotAt(m) == old(SlotAt(m))
    }

    constructor ()
      ensures Valid() && forall n, row, cell :: Shows(n, Init(row, cell))
    {
      docs, alarms, operations := map[], map[], map[];
    }

    method ClearTimer(n: string, timer: Option<nat>)
      modifies this`alarms
      ensures alarms == old(alarms)[n := Alarms(Disarm(old(AlarmsOf(n)).armed, timer), old(AlarmsOf(n)).next)]
    {
      alarms := alarms[n := AlarmsOf(n).(armed := Disarm(AlarmsOf(n).armed, timer))];
    }

    method SetTimer(n: string, kind: Timer) returns (timer: nat)
      modifies this`alarms
      ensures timer == old(AlarmsOf(n)).next
      ensures alarms == old(alarms)[n := Alarms(old(AlarmsOf(n)).armed[timer := kind], timer + 1)]
    {
      timer := AlarmsOf(n).next;
      alarms := alarms[n := Alarms(AlarmsOf(n).armed[timer := kind], timer + 1)];
    }

    method ClearTimers(n: string, save: Option<nat>, idle: Option<nat>)
      modifies this`alarms
      ensures var before := old(AlarmsOf(n));
              alarms == old(alarms)[n := Alarms(Disarm(Disarm(before.armed, save), idle), before.next)]
    {
      ClearTimer(n, save);
      ClearTimer(n, idle);
    }

    method ResetTimer(n: string, armed: Option<nat>, kind: Timer) returns (timer: nat)
      modifies this`alarms
      ensures var before := old(AlarmsOf(n));
              && timer == before.next
              && alarms == old(alarms)[n := Alarms(Disarm(before.armed, armed)[timer := kind], timer + 1)]
    {
      ClearTimer(n, armed);
      timer := SetTimer(n, kind);
    }

    method Enqueue(n: string, task: Task)
      modifies this`operations
      ensures operations == old(operations)[n := old(QueueOf(n)) + [task]]
    {
      operations := operations[n := QueueOf(n) + [task]];
    }

    /** The end of `loadDoc`. */
    method InsertDoc(nodeId: string, doc: YDoc, workspaceId: string, ghost s: State)
      requires Valid() && Shows(nodeId, s)
      modifies this`docs
      ensures Valid() && Shows(nodeId, Insert(s.(pc := Waiting), doc, workspaceId)) && OnlyAt(nodeId)
    {
      var managed := new ManagedDoc(doc, workspaceId);
      docs := docs[nodeId := managed];
    }

    /** `getOrCreateDoc` on a loaded document. */
    method GetDoc(nodeId: string, ghost s: State) returns (managed: ManagedDoc)
      requires Valid() && Shows(nodeId, s) && nodeId in docs
      modifies this`alarms, docs.Values
      ensures Valid() && Shows(nodeId, Revive(s)) && OnlyAt(nodeId) && managed == docs[nodeId]
    {
      managed := docs[nodeId];
      if managed.idleTimer.Some? {
        ClearTimer(nodeId, managed.idleTimer);
        managed.idleTimer := None;
      }
    }

    /** `addClient`. */
    method AddClient(nodeId: string, socketId: string, ghost s: State)
      requires Valid() && Shows(nodeId, s)
      modifies docs.Values
      ensures Valid() && OnlyAt(nodeId)
      ensures s.cur.None? ==> Shows(nodeId, s)
      ensures s.cur.Some? ==>
                var m := s.insts[s.cur.value];
                Shows(nodeId, Put(s, s.cur.value, m.(clients := m.clients + {socketId})))
    {
      if nodeId in docs {
        var managed := docs[nodeId];
        managed.clients := managed.clients + {socketId};
      }
    }

    method RemoveClient(nodeId: string, socketId: string, ghost s: State)
      requires Valid() && Shows(nodeId, s)
      modifies this`operations, this`alarms, docs.Values
      ensures Valid() && OnlyAt(nodeId) && Shows(nodeId, NodeMachine.RemoveClient(s, socketId))
    {
      if nodeId in docs {
        var managed := docs[nodeId];
        managed.clients := managed.clients - {socketId};
        if managed.clients == {} {
          Enqueue(nodeId, FlushTask);
          var timer := SetTimer(nodeId, Idle);
          managed.idleTimer := Some(timer);
        }
      }
    }

    method ScheduleSave(nodeId: string, userId: Option<string>, ghost s: State)
      requires Valid() && Shows(nodeId, s)
      modifies this`alarms, docs.Values
      ensures Valid() && OnlyAt(nodeId)
      ensures Shows(nodeId, if s.cur.Some? then NodeMachine.ScheduleSave(s, userId) else s)
    {
      if nodeId in docs {
        var managed := docs[nodeId];
        managed.MarkEdited(userId);
        var timer := ResetTimer(nodeId, managed.saveTimer, Debounce);
        managed.saveTimer := Some(timer);
      }
    }

    /** An update enters the document and, unless it is a reply of the sync protocol, a save is scheduled. */
    method ApplyUpdate(nodeId: string, socketId: string, update: YDoc, scheduled: bool, userId: Option<string>,
                       ghost s: State)
      requires Valid() && Shows(nodeId, s)
      modifies this`alarms, docs.Values
      ensures Valid() && OnlyAt(nodeId) && Shows(nodeId, Step(s, Sync(socketId, update, scheduled, userId)))
    {
      if nodeId in docs {
        var managed := docs[nodeId];
        managed.doc := Merge(managed.doc, update);
        ghost var m := s.insts[s.cur.value];
        ghost var s1 := Put(s, s.cur.value, m.(doc := Merge(m.doc, update)));
        assert Shows(nodeId, s1) && OnlyAt(nodeId);
        if scheduled {
          label Merged:
          ScheduleSave(nodeId, userId, s1);
          assert forall k :: k != nodeId ==> SlotAt(k) == old@Merged(SlotAt(k));
        }
      }
    }

    /** A document leaves the map and the timers it knows of are cleared. */
    method Forget(nodeId: string, ghost s: State)
      requires Valid() && Shows(nodeId, s) && nodeId in docs
      modifies this`docs, this`alarms
      ensures Valid() && OnlyAt(nodeId) && Shows(nodeId, Drop(s))
    {
      var managed := docs[nodeId];
      ClearTimers(nodeId, managed.saveTimer, managed.idleTimer);
      docs := docs - {nodeId};
    }

    method EvictDoc(nodeId: string, ghost s: State)
      requires Valid() && Shows(nodeId, s)
      modifies this`docs, this`alarms
      ensures Valid() && OnlyAt(nodeId) && Shows(nodeId, NodeMachine.EvictDoc(s))
    {
      if nodeId in docs && docs[nodeId].clients == {} {
        Forget(nodeId, s);
      }
    }

    /** `cleanupNode` up to its Redis command. */
    method CleanupNode(nodeId: string, ghost s: State)
      requires Valid() && Shows(nodeId, s)
      modifies this`docs, this`alarms
      ensures Valid() && OnlyAt(nodeId) && Shows(nodeId, NodeMachine.CleanupNode(s))
    {
      if nodeId in docs {
        Forget(nodeId, s);
      }
    }

    /** `appendMarkdown` before its flush: the new text, and who is charged for its embedding. */
    method AppendText(nodeId: string, managed: ManagedDoc, update: YDoc, userId: string, ghost s: State)
      requires Valid() && Shows(nodeId, s) && nodeId in docs && docs[nodeId] == managed
      requires s.queue != [] && s.queue[0].AppendTask? && !s.pc.Saving?
      requires update == s.queue[0].update && userId == s.queue[0].user
      modifies managed
      ensures Valid() && OnlyAt(nodeId) && Shows(nodeId, WithText(s))
    {
      managed.doc := Merge(managed.doc, update);
      managed.dirtyForEmbed := true;
      managed.lastEditorUserId := Some(userId);
    }

    /** `flushDocLocked` up to its first await; the call that throws leaves the queue. */
    method BeginFlush(nodeId: string, ghost s: State) returns (decision: Decision)
      requires Valid() && Shows(nodeId, s) && s.queue != [] && !s.pc.Saving?
      modifies this`operations, this`alarms, docs.Values
      ensures Valid() && OnlyAt(nodeId) && Shows(nodeId, Flush(s))
      ensures decision.NotLoaded? <==> s.cur.None?
      ensures decision.Skip? <==> s.cur.Some? && Flush(s).pc.Refreshing?
      ensures decision.Skip? ==>
                && nodeId in docs && decision.managed == docs[nodeId]
                && decision.result == Flush(s).pc.result && Flush(s).redisSent == s.redisSent + [SetState(decision.state)]
      ensures decision.Save? ==>
                && nodeId in docs && decision.managed == docs[nodeId] && decision.vector == Vector(decision.state)
                && Flush(s).writes == s.writes + [Write(s.cur.value, decision.state, Opened)]
                && Flush(s).redisSent == s.redisSent + [SetState(decision.state)]
    {
      if nodeId !in docs {
        operations := operations[nodeId := QueueOf(nodeId)[1..]];
        return NotLoaded;
      }
      var managed := docs[nodeId];
      ClearTimer(nodeId, managed.saveTimer);
      managed.saveTimer := None;
      var state := managed.doc;
      var stateVector := Vector(state);
      if managed.lastPersisted.Some? && managed.lastSavedStateVector == Some(stateVector) {
        managed.dirtyForEmbed := false;
        decision := Skip(managed, state, managed.lastPersisted.value);
      } else {
        decision := Save(managed, state, stateVector);
      }
    }

    /**
     The code after both stores have answered.  It works on the record the flush started with,
     which may have left the map in the meantime; a job is returned when one is queued, and
     otherwise the call leaves the queue.
     */
    method FinishFlush(nodeId: string, managed: ManagedDoc, stateVector: StateVector, persisted: Persisted, ghost s: State)
      returns (job: Option<(string, string)>)
      requires Valid() && Shows(nodeId, s) && BothDone(s)
      requires managed.Value() == s.insts[s.pc.inst]
      requires forall m :: m in docs && docs[m] == managed ==> m == nodeId
      requires nodeId in docs ==> (docs[nodeId] == managed <==> s.cur == Some(s.pc.inst))
      requires stateVector == Vector(s.writes[s.pc.write].state)
      requires persisted == s.writes[s.pc.write].phase.result
      modifies this`operations, managed
      ensures Valid() && OnlyAt(nodeId) && Shows(nodeId, Returned(s))
      ensures managed.Value() == Returned(s).insts[s.pc.inst]
      ensures job.Some? <==> Returned(s).pc.Embedding?
      ensures job.Some? ==>
                s.log + [Saved(s.pc.inst, s.pc.write, persisted), Job(s.pc.inst, job.value.0, job.value.1)]
                == Returned(s).log
    {
      ReturnedLooks(s);
      job := managed.Conclude(stateVector, persisted);
      if job.None? {
        operations := operations[nodeId := QueueOf(nodeId)[1..]];
      }
    }
  }
}
