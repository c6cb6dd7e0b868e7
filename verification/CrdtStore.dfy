/** The two stores behind the manager: base64 text in Redis, the node row in the database. */
module CrdtStore {
  import opened Wrappers
  import opened Base64
  import opened ManagedDocs

  const BODY := "markdownBody"

  /** `content` is the row's JSON object, field by field; `None` is a null column. */
  datatype NodeRow = NodeRow(
    yjsState: Option<seq<Byte>>, content: Option<map<string, string>>, version: nat, updatedAt: nat, workspaceId: string)

  datatype Loaded = Loaded(state: Option<seq<Byte>>, workspaceId: string)

  function Field(row: NodeRow, name: string): Option<string> {
    if row.content.Some? && name in row.content.value then Some(row.content.value[name]) else None
  }

  /** `saveToDb`'s row update: new state, the body merged into the content, version up by one. */
  function Updated(row: NodeRow, state: seq<Byte>, markdown: string, now: nat): NodeRow {
    var content := if row.content.Some? then row.content.value else map[];
    NodeRow(Some(state), Some(content[BODY := markdown]), row.version + 1, now, row.workspaceId)
  }

  /** `loadFromDb`: the stored state, else one made from the Markdown body, else nothing but the workspace. */
  function LoadRow(row: NodeRow, bootstrap: string -> seq<Byte>): Loaded {
    if row.yjsState.Some? then Loaded(row.yjsState, row.workspaceId)
    else if Truthy(Field(row, BODY)) then Loaded(Some(bootstrap(Field(row, BODY).value)), row.workspaceId)
    else Loaded(None, row.workspaceId)
  }

  /** Saving then loading gives the saved state back, and the row's other content is untouched. */
  lemma UpdatedRowLoads(row: NodeRow, state: seq<Byte>, markdown: string, now: nat, bootstrap: string -> seq<Byte>)
    ensures LoadRow(Updated(row, state, markdown, now), bootstrap) == Loaded(Some(state), row.workspaceId)
    ensures Field(Updated(row, state, markdown, now), BODY) == Some(markdown)
    ensures forall name :: name != BODY ==> Field(Updated(row, state, markdown, now), name) == Field(row, name)
  {
  }

  /** A row that was never saved opens as its Markdown body, if it has one that is not empty, and else as nothing. */
  lemma UnsavedRowLoads(row: NodeRow, bootstrap: string -> seq<Byte>)
    requires row.yjsState.None?
    ensures row.content.Some? && BODY in row.content.value && row.content.value[BODY] != "" ==>
              LoadRow(row, bootstrap) == Loaded(Some(bootstrap(row.content.value[BODY])), row.workspaceId)
    ensures row.content.None? || BODY !in row.content.value || row.content.value[BODY] == "" ==>
              LoadRow(row, bootstrap) == Loaded(None, row.workspaceId)
  {
  }

  /** An update goes up by one version and stamps the time; a saved row no longer depends on its Markdown body. */
  lemma UpdateStampsRow(row: NodeRow, state: seq<Byte>, markdown: string, now: nat)
    ensures var r := Updated(row, state, markdown, now);
            r.version == row.version + 1 && r.updatedAt == now && r.workspaceId == row.workspaceId
  {
  }

  /** `loadFromRedis` on what the cell holds; an empty text counts as nothing. */
  function Fetch(cell: Option<string>): Option<seq<Byte>> {
    if Truthy(cell) then Decode(cell.value) else None
  }

  /** Loading after saving returns exactly the saved bytes for a non-empty state, and nothing for an empty one. */
  lemma RedisRoundTrip(state: seq<Byte>)
    ensures Fetch(Some(Encode(state))) == if state == [] then None else Some(state)
  {
    DecodeEncode(state);
  }

  class Stores {
    var redis: map<string, string>
    var nodes: map<string, NodeRow>

    function Cached(nodeId: string): (r: Option<seq<Byte>>)
      reads this`redis
    {
      Fetch(if nodeId in redis then Some(redis[nodeId]) else None)
    }

    /** Afterwards the node loads as the saved bytes, except that an empty state loads as nothing. */
    method SaveToRedis(nodeId: string, state: seq<Byte>)
      modifies this`redis
      ensures redis == old(redis)[nodeId := Encode(state)]
      ensures Cached(nodeId) == if state == [] then None else Some(state)
      ensures forall other :: other != nodeId ==> Cached(other) == old(Cached(other))
    {
      redis := redis[nodeId := Encode(state)];
      RedisRoundTrip(state);
    }

    /** A read that fails, `reached` being false, counts as an absent cell. */
    method LoadFromRedis(nodeId: string, reached: bool) returns (state: Option<seq<Byte>>)
      ensures state == if reached then Cached(nodeId) else None
    {
      if !reached || nodeId !in redis {
        return None;
      }
      var data := redis[nodeId];
      if data == "" {
        return None;
      }
      state := Decode(data);
    }

    method DeleteFromRedis(nodeId: string)
      modifies this`redis
      ensures redis == old(redis) - {nodeId} && Cached(nodeId).None?
    {
      redis := redis - {nodeId};
    }

    /** The row transaction; a missing row is reported and nothing is written. */
    method UpdateNodeRow(nodeId: string, state: seq<Byte>, markdown: string, now: nat)
      returns (persisted: Option<Persisted>)
      modifies this`nodes
      ensures persisted.Some? <==> nodeId in old(nodes)
      ensures persisted.None? ==> nodes == old(nodes)
      ensures persisted.Some? ==>
                && nodes == old(nodes)[nodeId := Updated(old(nodes)[nodeId], state, markdown, now)]
                && persisted.value == Persisted(nodes[nodeId].version, now)
                && nodes[nodeId].version == old(nodes)[nodeId].version + 1
    {
      if nodeId !in nodes {
        return None;
      }
      var row := nodes[nodeId];
      var currentContent := map[];
      if row.content.Some? {
        currentContent := row.content.value;
      }
      var updatedContent := currentContent[BODY := markdown];
      nodes := nodes[nodeId := NodeRow(Some(state), Some(updatedContent), row.version + 1, now, row.workspaceId)];
      persisted := Some(Persisted(row.version + 1, now));
    }
  }
}
