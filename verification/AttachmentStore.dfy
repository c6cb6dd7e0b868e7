/** The two attachment tables, the repository's effects on them, and one sync from start to end. */
module AttachmentStore {

  datatype Status = Pending | Active | Orphan | Deleted

  /** `rows` holds (file, node) pairs; `status` the files that exist. */
  datatype Store = Store(rows: set<(string, string)>, status: map<string, Status>)

  // ── The repository ─────────────────────────────────────────────────────────

  function AttachedTo(st: Store, node: string): set<string> {
    set p | p in st.rows && p.1 == node :: p.0
  }

  function RowsOf(files: set<string>, node: string): set<(string, string)> {
    set f | f in files :: (f, node)
  }

  predicate Attached(st: Store, file: string) {
    exists p :: p in st.rows && p.0 == file
  }

  function CreateAttachments(st: Store, node: string, files: set<string>): Store {
    st.(rows := st.rows + RowsOf(files, node))
  }

  function DeleteAttachments(st: Store, node: string, files: set<string>): Store {
    st.(rows := st.rows - RowsOf(files, node))
  }

  /** The files for which the grouped count returns no row. */
  function Unreferenced(st: Store, files: set<string>): set<string> {
    set f | f in files && !Attached(st, f)
  }

  function Mark(st: Store, files: set<string>, status: Status): Store {
    st.(status := map f | f in st.status :: if f in files then status else st.status[f])
  }

  // ── One sync ───────────────────────────────────────────────────────────────

  function ToAdd(st: Store, node: string, referenced: set<string>): set<string> {
    referenced - AttachedTo(st, node)
  }

  function ToRemove(st: Store, node: string, referenced: set<string>): set<string> {
    AttachedTo(st, node) - referenced
  }

  /** How many repository calls of the sync took effect before it stopped. */
  datatype Stage = Untouched | Created | Activated | Removed | Complete

  function SyncUpTo(st: Store, node: string, referenced: set<string>, stage: Stage): Store {
    var add, remove := ToAdd(st, node, referenced), ToRemove(st, node, referenced);
    if stage.Untouched? then st
    else
      var created := CreateAttachments(st, node, add);
      if stage.Created? then created
      else
        var activated := Mark(created, add, Active);
        if stage.Activated? then activated
        else
          var removed := DeleteAttachments(activated, node, remove);
          if stage.Removed? then removed else Mark(removed, Unreferenced(removed, remove), Orphan)
  }

  function Sync(st: Store, node: string, referenced: set<string>): Store {
    SyncUpTo(st, node, referenced, Complete)
  }

  /** A file is ACTIVE exactly when some node has it attached. */
  ghost predicate Right(st: Store, file: string) {
    file in st.status ==> (st.status[file].Active? <==> Attached(st, file))
  }

  ghost predicate Good(st: Store) {
    forall f :: f in st.status ==> Right(st, f)
  }

  lemma CreateEffect(st: Store, node: string, files: set<string>)
    ensures AttachedTo(CreateAttachments(st, node, files), node) == AttachedTo(st, node) + files
    ensures forall m :: m != node ==> AttachedTo(CreateAttachments(st, node, files), m) == AttachedTo(st, m)
    ensures forall f :: Attached(CreateAttachments(st, node, files), f) <==> Attached(st, f) || f in files
  {
    var r := CreateAttachments(st, node, files);
    forall f | f in AttachedTo(st, node) + files ensures f in AttachedTo(r, node) {
      if f in files { assert (f, node) in r.rows; } else { assert (f, node) in r.rows; }
    }
    forall m | m != node ensures AttachedTo(r, m) == AttachedTo(st, m) {
      forall f ensures f in AttachedTo(r, m) <==> f in AttachedTo(st, m) {
        assert (f, m) in r.rows <==> (f, m) in st.rows;
      }
    }
    forall f ensures Attached(r, f) <==> Attached(st, f) || f in files {
      if f in files { assert (f, node) in r.rows; }
      if Attached(st, f) {
        var p :| p in st.rows && p.0 == f;
        assert p in r.rows;
      }
    }
  }

  lemma DeleteEffect(st: Store, node: string, files: set<string>)
    ensures AttachedTo(DeleteAttachments(st, node, files), node) == AttachedTo(st, node) - files
    ensures forall m :: m != node ==> AttachedTo(DeleteAttachments(st, node, files), m) == AttachedTo(st, m)
    ensures forall f :: f !in files ==> (Attached(DeleteAttachments(st, node, files), f) <==> Attached(st, f))
    ensures forall f :: Attached(DeleteAttachments(st, node, files), f) ==> Attached(st, f)
  {
  }

  /** A complete sync makes the node's rows the referenced files, and touches no other node's rows. */
  lemma SyncSetsRows(st: Store, node: string, referenced: set<string>)
    ensures AttachedTo(Sync(st, node, referenced), node) == referenced
    ensures forall m :: m != node ==> AttachedTo(Sync(st, node, referenced), m) == AttachedTo(st, m)
  {
    var add, remove := ToAdd(st, node, referenced), ToRemove(st, node, referenced);
    var activated := SyncUpTo(st, node, referenced, Activated);
    CreateEffect(st, node, add);
    DeleteEffect(activated, node, remove);
    SameRows(CreateAttachments(st, node, add), activated);
    SameRows(DeleteAttachments(activated, node, remove), Sync(st, node, referenced));
  }

  lemma SameRows(a: Store, b: Store)
    requires a.rows == b.rows
    ensures forall n :: AttachedTo(a, n) == AttachedTo(b, n)
    ensures forall f :: Attached(a, f) <==> Attached(b, f)
  {
  }

  /** A complete sync keeps the status table right. */
  lemma SyncKeepsGood(st: Store, node: string, referenced: set<string>)
    requires Good(st)
    ensures Good(Sync(st, node, referenced))
  {
  }

  /** What a complete sync makes of one file, whatever the tables looked like before. */
  lemma StatusAfter(st: Store, node: string, referenced: set<string>, f: string)
    requires f in st.status
    ensures var r := Sync(st, node, referenced);
            && f in r.status
            && (f in ToAdd(st, node, referenced) ==> r.status[f].Active? && Attached(r, f))
            && (f in ToRemove(st, node, referenced) ==>
                  if Attached(r, f) then r.status[f] == st.status[f] else r.status[f].Orphan?)
            && (f !in ToAdd(st, node, referenced) && f !in ToRemove(st, node, referenced) ==>
                  r.status[f] == st.status[f] && (Attached(r, f) <==> Attached(st, f)))
            && (Attached(r, f) ==> Attached(st, f) || f in ToAdd(st, node, referenced))
  {
  }

  /** The sync stopped in a window whose repair the next sync does not see. */
  predicate Repairable(st: Store, node: string, referenced: set<string>, stage: Stage) {
    match stage
    case Created => forall f :: f in ToAdd(st, node, referenced) && f in st.status ==> Attached(st, f)
    case Removed =>
      forall f :: f in ToRemove(st, node, referenced) && f in st.status ==>
        exists p :: p in st.rows && p.0 == f && p.1 != node
    case _ => true
  }

  /**
   A sync fails part way and is retried.  The rows always converge.  The statuses do exactly when
   the failure did not fall between a row change and its status change for a file no other node has.
   */
  lemma RetryRestoresStatusIff(st: Store, node: string, referenced: set<string>, stage: Stage)
    requires Good(st)
    ensures var r := Sync(SyncUpTo(st, node, referenced, stage), node, referenced);
            && AttachedTo(r, node) == referenced
            && (Good(r) <==> Repairable(st, node, referenced, stage))
  {
    var half := SyncUpTo(st, node, referenced, stage);
    SyncSetsRows(half, node, referenced);
    var add, remove := ToAdd(st, node, referenced), ToRemove(st, node, referenced);
    match stage
    case Untouched => SyncKeepsGood(st, node, referenced);
    case Complete =>
      SyncKeepsGood(st, node, referenced);
      SyncKeepsGood(half, node, referenced);
    case Activated =>
      ActivatedIsGood(st, node, referenced);
      SyncKeepsGood(half, node, referenced);
    case Created => RetryAfterCreate(st, node, referenced);
    case Removed => RetryAfterRemove(st, node, referenced);
  }

  lemma ActivatedIsGood(st: Store, node: string, referenced: set<string>)
    requires Good(st)
    ensures Good(SyncUpTo(st, node, referenced, Activated))
  {
  }

  lemma RetryAfterCreate(st: Store, node: string, referenced: set<string>)
    requires Good(st)
    ensures Good(Sync(SyncUpTo(st, node, referenced, Created), node, referenced)) <==>
            Repairable(st, node, referenced, Created)
  {
    var half := SyncUpTo(st, node, referenced, Created);
    var r := Sync(half, node, referenced);
    var add := ToAdd(st, node, referenced);
    CreateEffect(st, node, add);
    assert ToAdd(half, node, referenced) == {};
    forall f | f in st.status
      ensures Right(r, f) <==> (f in add ==> Attached(st, f))
    {
      assert Right(st, f);
      StatusAfter(half, node, referenced, f);
    }
    assert r.status.Keys == st.status.Keys;
  }

  lemma RetryAfterRemove(st: Store, node: string, referenced: set<string>)
    requires Good(st)
    ensures Good(Sync(SyncUpTo(st, node, referenced, Removed), node, referenced)) <==>
            Repairable(st, node, referenced, Removed)
  {
    var activated := SyncUpTo(st, node, referenced, Activated);
    var half := SyncUpTo(st, node, referenced, Removed);
    var r := Sync(half, node, referenced);
    var add, remove := ToAdd(st, node, referenced), ToRemove(st, node, referenced);
    ActivatedIsGood(st, node, referenced);
    CreateEffect(st, node, add);
    SameRows(CreateAttachments(st, node, add), activated);
    DeleteEffect(activated, node, remove);
    assert ToAdd(half, node, referenced) == {} && ToRemove(half, node, referenced) == {};
    forall f | f in st.status
      ensures Right(r, f) <==> (f in remove ==> exists p :: p in st.rows && p.0 == f && p.1 != node)
    {
      assert Right(activated, f);
      StatusAfter(half, node, referenced, f);
      if f in remove {
        AttachedElsewhere(st, node, referenced, f);
      }
    }
    assert r.status.Keys == st.status.Keys;
  }

  /** A file taken off the node stays attached exactly if another node has it. */
  lemma AttachedElsewhere(st: Store, node: string, referenced: set<string>, f: string)
    requires f in ToRemove(st, node, referenced)
    ensures Attached(SyncUpTo(st, node, referenced, Removed), f) <==>
            exists p :: p in st.rows && p.0 == f && p.1 != node
    ensures Attached(SyncUpTo(st, node, referenced, Activated), f)
  {
  }

  // ── The service over the tables ────────────────────────────────────────────

  class FileAttachments {
    var rows: set<(string, string)>
    var status: map<string, Status>

    ghost function Model(): Store
      reads this
    {
      Store(rows, status)
    }

    method Create(nodeId: string, fileIds: set<string>)
      modifies this`rows
      ensures Model() == CreateAttachments(old(Model()), nodeId, fileIds)
    {
      rows := rows + (set f | f in fileIds :: (f, nodeId));
    }

    method Delete(nodeId: string, fileIds: set<string>)
      modifies this`rows
      ensures Model() == DeleteAttachments(old(Model()), nodeId, fileIds)
    {
      rows := set p | p in rows && !(p.1 == nodeId && p.0 in fileIds);
      assert rows == old(rows) - RowsOf(fileIds, nodeId);
    }

    method MarkFiles(fileIds: set<string>, to: Status)
      modifies this`status
      ensures status.Keys == old(status).Keys
      ensures forall f :: f in status ==> status[f] == if f in fileIds then to else old(status)[f]
      ensures Model() == Mark(old(Model()), fileIds, to)
    {
      status := map f | f in status :: if f in fileIds then to else status[f];
    }

    /** `orphanUnreferencedFiles`: only files without any remaining row. */
    method OrphanUnreferenced(fileIds: set<string>)
      modifies this`status
      ensures Model() == Mark(old(Model()), Unreferenced(old(Model()), fileIds), Orphan)
    {
      var remaining := set p | p in rows && p.0 in fileIds :: p.0;
      var orphanIds := fileIds - remaining;
      assert orphanIds == Unreferenced(Model(), fileIds);
      if orphanIds != {} {
        MarkFiles(orphanIds, Orphan);
      }
    }

    /** `syncNodeAttachments`, run without interruption. */
    method SyncNode(nodeId: string, referencedIds: set<string>)
      modifies this
      ensures Model() == Sync(old(Model()), nodeId, referencedIds)
      ensures AttachedTo(Model(), nodeId) == referencedIds
      ensures old(Good(Model())) ==> Good(Model())
    {
      var currentIds := set p | p in rows && p.1 == nodeId :: p.0;
      var toAdd := referencedIds - currentIds;
      var toRemove := currentIds - referencedIds;
      if toAdd != {} {
        Create(nodeId, toAdd);
        MarkFiles(toAdd, Active);
      }
      if toRemove != {} {
        Delete(nodeId, toRemove);
        OrphanUnreferenced(toRemove);
      }
      SyncSetsRows(old(Model()), nodeId, referencedIds);
      if old(Good(Model())) {
        SyncKeepsGood(old(Model()), nodeId, referencedIds);
      }
    }

    /** `releaseNodeAttachments`: what a sync does for a node that references nothing. */
    method ReleaseNode(nodeId: string)
      modifies this
      ensures Model() == Sync(old(Model()), nodeId, {})
      ensures AttachedTo(Model(), nodeId) == {}
      ensures old(Good(Model())) ==> Good(Model())
    {
      var fileIds := set p | p in rows && p.1 == nodeId :: p.0;
      assert fileIds == ToRemove(Model(), nodeId, {});
      if fileIds != {} {
        Delete(nodeId, fileIds);
        OrphanUnreferenced(fileIds);
      }
      SyncSetsRows(old(Model()), nodeId, {});
      if old(Good(Model())) {
        SyncKeepsGood(old(Model()), nodeId, {});
      }
    }
  }
}
