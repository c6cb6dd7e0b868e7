/** What the manager keeps for one loaded document, and what each handler does to that record. */
module ManagedDocs {
  import opened Wrappers
  import opened YDocs

  datatype Persisted = Persisted(version: nat, updatedAt: nat)

  datatype Managed = Managed(
    doc: YDoc,
    clients: set<string>,
    workspaceId: string,
    saveTimer: Option<nat>,
    idleTimer: Option<nat>,
    dirtyForEmbed: bool,
    lastEditor: Option<string>,
    lastSavedVector: Option<StateVector>,
    lastPersisted: Option<Persisted>)

  /** The record `loadDoc` inserts. */
  function Fresh(doc: YDoc, workspaceId: string): Managed {
    Managed(doc, {}, workspaceId, None, None, false, None, None, None)
  }

  /** `scheduleSave` without its timer: an absent or empty user leaves the last editor alone. */
  function Touched(m: Managed, user: Option<string>): Managed {
    m.(dirtyForEmbed := true, lastEditor := if Truthy(user) then user else m.lastEditor)
  }

  /** `appendMarkdown` up to its flush: the new text is in the document, under the given user. */
  function Appended(m: Managed, update: YDoc, user: string): Managed {
    m.(doc := Merge(m.doc, update), dirtyForEmbed := true, lastEditor := Some(user))
  }

  /** The test that lets a flush leave the database alone. */
  predicate NothingToSave(m: Managed) {
    m.lastPersisted.Some? && m.lastSavedVector == Some(Vector(m.doc))
  }

  function Remembered(m: Managed, vector: StateVector, result: Persisted): Managed {
    m.(lastSavedVector := Some(vector), lastPersisted := Some(result))
  }

  /**
   What the flush of an append may report, given the row version when its text was applied and
   whether that brought a new struct: a version the row has had, and then a newer one.
   */
  predicate ReportFits(applied: nat, added: bool, reported: nat, rowVersion: nat) {
    reported <= rowVersion && (added ==> applied < reported)
  }

  predicate EmbedDue(m: Managed) {
    m.dirtyForEmbed && Truthy(m.lastEditor)
  }
}
