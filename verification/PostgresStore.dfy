/** The persistent store object: its attributes in memory and the snapshot row it loads and replaces. */
module PostgresStore {
  import opened Prelude
  import opened Codec
  import opened Snapshot

  /** The stored row; there is none until the first request is committed. */
  class SnapshotTable {
    var row: Option<Row>

    constructor ()
      ensures row == None
    {
      row := None;
    }
  }

  class PostgresCameraStore {
    const tables: Tables
    const names: seq<string>
    const table: SnapshotTable
    var attributes: Attributes

    constructor (tables: Tables, names: seq<string>, table: SnapshotTable, initial: Attributes)
      requires HasNames(names, initial)
      ensures this.tables == tables && this.names == names && this.table == table && attributes == initial
    {
      this.tables, this.names, this.table, attributes := tables, names, table, initial;
    }

    function View(): System
      reads this, table
    {
      System(attributes, if table.row.Some? then table.row.value else NEW_ROW)
    }

    /** Loads the snapshot, its sets rebuilt in the given order, runs the body, and writes when the encoded state differs from the one loaded. */
    method RequestContext(body: Body, order: SetOrder)
      requires HasNames(names, attributes) && KeepsNames(names, body)
      modifies this`attributes, table
      ensures View() == Serve(tables, order, names, old(View()), body)
      ensures table.row == old(table.row) || table.row == Some(View().row)
    {
      var row := if table.row.Some? then table.row.value else NEW_ROW;
      var loaded := DecodeStore(tables, order, row.state);
      if loaded.Err? {
        return;
      }
      attributes := attributes + loaded.value;
      var before := EncodeStore(tables, names, attributes);
      var (after, raised) := body(attributes);
      attributes := after;
      if raised {
        return;
      }
      var afterState := EncodeStore(tables, names, attributes);
      if !Same(afterState, before) {
        table.row := Some(Row(afterState, row.revision + 1));
      }
    }
  }
}
