/**
 * The stores and the transaction the services work against, as values:
 * what a read returns and whether a write or a commit succeeds. The
 * services report the writes they perform as a sequence of effects.
 */
module Stores {

  import opened Json
  import Nodes
  import Scripts

  /** Rows of the nodes table, keyed by their id (the primary key, a non-empty xid). */
  type NodeRows = rows: map<string, Nodes.NodeModel> | forall id | id in rows :: rows[id].id == id && id != ""
    witness map[]

  datatype NodeStore = NodeStore(available: bool, rows: NodeRows)

  datatype ScriptStore = ScriptStore(available: bool, rows: map<string, Scripts.ScriptModel>)

  /**
   * How the transaction behaves: whether it starts, whether the single
   * insert succeeds and whether the commit succeeds. An insert that succeeds
   * hands back the record it was given, id included.
   */
  datatype Transaction = Transaction(starts: bool, inserts: bool, commits: bool)

  /** A write a service performs, in order. */
  datatype Effect = InsertNode(node: Nodes.NodeModel) | InsertScript(script: Scripts.ScriptModel) | Commit

  /**
   * nodesRepo.GetByIds: the rows whose id is among `ids`; an error when the
   * store fails and also when no row matches (postgres.go:70-74).
   */
  function GetByIds(store: NodeStore, ids: set<string>): (r: Option<NodeRows>)
    ensures r.Some? <==> store.available && exists id | id in ids :: id in store.rows
    ensures r.Some? ==> r.value.Keys == ids * store.rows.Keys
    ensures r.Some? ==> forall id | id in r.value :: r.value[id] == store.rows[id]
  {
    var found := map id | id in ids && id in store.rows :: store.rows[id];
    if store.available && found != map[] then Some(found)
    else
      assert store.available ==> forall id | id in ids :: id !in found;
      None
  }

  /** scriptRepo.GetById: an error when the store fails or no script has the id. */
  function GetScriptById(store: ScriptStore, id: string): (r: Option<Scripts.ScriptModel>)
    ensures r.Some? <==> store.available && id in store.rows
    ensures r.Some? ==> r.value == store.rows[id]
  {
    if store.available && id in store.rows then Some(store.rows[id]) else None
  }
}
