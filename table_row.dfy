/** Table rows: the cell they use and the optional editing and moving capabilities, with their defaults. */
module TableRows {
  import opened Wrappers
  import opened Lists

  datatype IndexPath = IndexPath(section: nat, row: nat)

  /** `UITableViewCell.EditingStyle`. */
  datatype EditingStyle = NoStyle | Delete | Insert

  /**
   * Which capability protocol a row conforms to: none, `EditableTableViewRow`, or
   * `MovableTableViewRow` (which refines the editable one).
   */
  datatype Capability =
    | Plain
    | Editable(canEdit: bool, editingStyle: EditingStyle)
    | Movable(canEdit: bool, editingStyle: EditingStyle, canMove: bool, onMove: (IndexPath, IndexPath) -> IndexPath)

  /** A row; `cellType` is the cell class, named by its type name. */
  datatype Row = Row(cellType: string, reuseIdentifier: string, estimatedHeight: Option<real>, capability: Capability)

  /** A row taking the protocol defaults: identifier from the cell type, no estimated height. */
  function DefaultRow(cellType: string, capability: Capability): (r: Row)
    ensures r.estimatedHeight.None? && r.capability == capability && r.cellType == cellType
  {
    Row(cellType, cellType, None, capability)
  }

  /** Rows built with the defaults share a reuse identifier exactly when they share a cell type. */
  lemma DefaultReuseIdentifier(a: string, b: string, ca: Capability, cb: Capability)
    ensures DefaultRow(a, ca).reuseIdentifier == DefaultRow(b, cb).reuseIdentifier <==> a == b
  {
  }

  /** `EditableTableViewRow` defaults: editable, with the delete style. */
  function EditableDefaults(): (c: Capability)
    ensures c.Editable? && c.canEdit && c.editingStyle == Delete
  {
    Editable(true, Delete)
  }

  /** `MovableTableViewRow` defaults: the editable ones, and movable. */
  function MovableDefaults(onMove: (IndexPath, IndexPath) -> IndexPath): (c: Capability)
    ensures c.Movable? && c.canEdit && c.editingStyle == Delete && c.canMove && c.onMove == onMove
  {
    Movable(true, Delete, true, onMove)
  }

  datatype Section<H, F> = Section(header: H, footer: F, rows: seq<Row>)

  /** An index path naming an existing row. */
  predicate IsRow<H, F>(sections: seq<Section<H, F>>, ip: IndexPath) {
    ip.section < |sections| && ip.row < |sections[ip.section].rows|
  }

  /** Every row of the table, section after section. */
  function AllRows<H, F>(sections: seq<Section<H, F>>): seq<Row> {
    Flatten(seq(|sections|, i requires 0 <= i < |sections| => sections[i].rows))
  }

  /** The rows of `sections[s]` replaced by `rows`, every other section unchanged. */
  function WithRows<H, F>(sections: seq<Section<H, F>>, s: nat, rows: seq<Row>): (r: seq<Section<H, F>>)
    requires s < |sections|
    ensures |r| == |sections| && r[s].rows == rows
    ensures r[s].header == sections[s].header && r[s].footer == sections[s].footer
    ensures forall i :: 0 <= i < |sections| && i != s ==> r[i] == sections[i]
  {
    sections[s := sections[s].(rows := rows)]
  }

  /** `EditableTableViewRow.delete(from:at:)`: removes the row at `ip`. */
  function DeleteRow<H, F>(sections: seq<Section<H, F>>, ip: IndexPath): (r: seq<Section<H, F>>)
    requires IsRow(sections, ip)
    ensures |r| == |sections|
    ensures r[ip.section].rows == RemoveAt(sections[ip.section].rows, ip.row)
    ensures forall i :: 0 <= i < |sections| && i != ip.section ==> r[i] == sections[i]
  {
    WithRows(sections, ip.section, RemoveAt(sections[ip.section].rows, ip.row))
  }

  /** Replacing one section's rows replaces that section's share of every row. */
  lemma AllRowsWithRows<H, F>(sections: seq<Section<H, F>>, s: nat, rows: seq<Row>)
    requires s < |sections|
    ensures multiset(AllRows(WithRows(sections, s, rows))) + multiset(sections[s].rows)
         == multiset(AllRows(sections)) + multiset(rows)
    ensures |AllRows(WithRows(sections, s, rows))| + |sections[s].rows| == |AllRows(sections)| + |rows|
  {
    var before := seq(|sections|, i requires 0 <= i < |sections| => sections[i].rows);
    var after' := WithRows(sections, s, rows);
    var after := seq(|after'|, i requires 0 <= i < |after'| => after'[i].rows);
    assert after == before[s := rows];
    FlattenSplit(before, s);
    FlattenSplit(after, s);
    assert after[..s] == before[..s];
    assert after[s + 1..] == before[s + 1..];
  }

  /** Deleting a row loses exactly that row from the table. */
  lemma DeleteRowLosesOne<H, F>(sections: seq<Section<H, F>>, ip: IndexPath)
    requires IsRow(sections, ip)
    ensures multiset(AllRows(DeleteRow(sections, ip))) + multiset{sections[ip.section].rows[ip.row]} == multiset(AllRows(sections))
    ensures |AllRows(DeleteRow(sections, ip))| == |AllRows(sections)| - 1
  {
    var rows := sections[ip.section].rows;
    AllRowsWithRows(sections, ip.section, RemoveAt(rows, ip.row));
    RemoveAtMultiset(rows, ip.row);
    var after, all := multiset(AllRows(DeleteRow(sections, ip))), multiset(AllRows(sections));
    var x := rows[ip.row];
    forall y ensures (after + multiset{x})[y] == all[y] {
      assert (after + multiset(rows))[y] == (all + multiset(RemoveAt(rows, ip.row)))[y];
      assert (multiset(RemoveAt(rows, ip.row)) + multiset{x})[y] == multiset(rows)[y];
    }
  }
}
