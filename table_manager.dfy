/**
 * `TableViewManager`: owns the table's sections, answers the table view's questions about them,
 * and inserts, deletes and moves rows in place.
 */
module TableManagers {
  import opened Wrappers
  import opened Lists
  import opened TableRows
  import opened SectionBuilders
  import HF = HeaderFooters

  /** `UITableView.automaticDimension`, or a height the row, header or footer gives. */
  datatype Height = Automatic | Fixed(value: real)

  /** What the manager reports to the table view after a commit. */
  datatype RowChange = NoChange | Inserted(at: IndexPath) | Deleted(at: IndexPath)

  function HeightOf(estimate: Option<real>): (h: Height)
    ensures h.Automatic? <==> estimate.None?
    ensures estimate.Some? ==> h == Fixed(estimate.value)
  {
    match estimate
    case None => Automatic
    case Some(value) => Fixed(value)
  }

  /** Appending `row` to section `s`, as a committed insert does. */
  function AppendRow(sections: seq<TableSection>, s: nat, row: Row): (r: seq<TableSection>)
    requires s < |sections|
    ensures |r| == |sections| && r[s].rows == sections[s].rows + [row]
    ensures forall i :: 0 <= i < |sections| && i != s ==> r[i] == sections[i]
  {
    WithRows(sections, s, sections[s].rows + [row])
  }

  /** A committed insert adds exactly the new row, at the reported path, and deleting it there undoes the insert. */
  lemma AppendRowThenDelete(sections: seq<TableSection>, s: nat, row: Row)
    requires s < |sections|
    ensures var after := AppendRow(sections, s, row);
      var at := IndexPath(s, |after[s].rows| - 1);
      && IsRow(after, at) && after[s].rows[at.row] == row
      && multiset(AllRows(after)) == multiset(AllRows(sections)) + multiset{row}
      && DeleteRow(after, at) == sections
  {
    var after := AppendRow(sections, s, row);
    var at := IndexPath(s, |after[s].rows| - 1);
    AllRowsWithRows(sections, s, sections[s].rows + [row]);
    var grown, before := multiset(AllRows(after)), multiset(AllRows(sections));
    forall y ensures grown[y] == (before + multiset{row})[y] {
      assert (grown + multiset(sections[s].rows))[y] == (before + multiset(sections[s].rows + [row]))[y];
    }
    assert RemoveAt(after[s].rows, at.row) == sections[s].rows;
    assert DeleteRow(after, at) == sections;
  }

  /** A move `moveRowAt` can perform: the source is a row, the destination slot exists once the source is out. */
  predicate CanMoveTo(sections: seq<TableSection>, src: IndexPath, dst: IndexPath) {
    && IsRow(sections, src)
    && dst.section < |sections|
    && dst.row <= |sections[dst.section].rows| - (if dst.section == src.section then 1 else 0)
  }

  /** `moveRowAt`: the source row removed, then inserted at the destination. */
  function MoveRow(sections: seq<TableSection>, src: IndexPath, dst: IndexPath): (r: seq<TableSection>)
    requires CanMoveTo(sections, src, dst)
    ensures |r| == |sections|
    ensures forall i :: 0 <= i < |sections| && i != src.section && i != dst.section ==> r[i] == sections[i]
  {
    var removed := DeleteRow(sections, src);
    WithRows(removed, dst.section, InsertAt(removed[dst.section].rows, dst.row, sections[src.section].rows[src.row]))
  }

  /** A move lands the row at the destination and neither loses nor duplicates any row of the table. */
  lemma MoveRowKeepsRows(sections: seq<TableSection>, src: IndexPath, dst: IndexPath)
    requires CanMoveTo(sections, src, dst)
    ensures var after := MoveRow(sections, src, dst);
      && IsRow(after, dst)
      && after[dst.section].rows[dst.row] == sections[src.section].rows[src.row]
      && multiset(AllRows(after)) == multiset(AllRows(sections))
      && |AllRows(after)| == |AllRows(sections)|
  {
    var x := sections[src.section].rows[src.row];
    var removed := DeleteRow(sections, src);
    var rows := removed[dst.section].rows;
    DeleteRowLosesOne(sections, src);
    AllRowsWithRows(removed, dst.section, InsertAt(rows, dst.row, x));
    InsertAtMultiset(rows, dst.row, x);
    MultisetMoveOne(multiset(AllRows(MoveRow(sections, src, dst))), multiset(AllRows(removed)), multiset(rows),
                    multiset(AllRows(sections)), x);
  }

  /** A move within one section reorders that section and leaves every other section alone. */
  lemma MoveWithinSection(sections: seq<TableSection>, src: IndexPath, dst: IndexPath)
    requires CanMoveTo(sections, src, dst) && src.section == dst.section
    ensures var after := MoveRow(sections, src, dst);
      && multiset(after[src.section].rows) == multiset(sections[src.section].rows)
      && forall i :: 0 <= i < |sections| && i != src.section ==> after[i] == sections[i]
  {
    var rows := sections[src.section].rows;
    RemoveAtMultiset(rows, src.row);
    InsertAtMultiset(RemoveAt(rows, src.row), dst.row, rows[src.row]);
  }

  /** Moving the row back from where it landed restores the table. */
  lemma MoveRowBack(sections: seq<TableSection>, src: IndexPath, dst: IndexPath)
    requires CanMoveTo(sections, src, dst)
    ensures CanMoveTo(MoveRow(sections, src, dst), dst, src)
    ensures MoveRow(MoveRow(sections, src, dst), dst, src) == sections
  {
    var x := sections[src.section].rows[src.row];
    var removed := DeleteRow(sections, src);
    var moved := MoveRow(sections, src, dst);
    MoveRowKeepsRows(sections, src, dst);
    assert RemoveAt(InsertAt(removed[dst.section].rows, dst.row, x), dst.row) == removed[dst.section].rows;
    assert DeleteRow(moved, dst) == removed;
    assert InsertAt(RemoveAt(sections[src.section].rows, src.row), src.row, x) == sections[src.section].rows;
  }

  /** `editingStyleForRowAt` of one row: its style if editable, `.none` otherwise. */
  function RowEditingStyle(row: Row): (s: EditingStyle)
    ensures row.capability.Plain? ==> s == NoStyle
  {
    match row.capability
    case Plain => NoStyle
    case Editable(_, style) => style
    case Movable(_, style, _, _) => style
  }

  /** `canEditRowAt` of one row: its answer if editable, false otherwise. */
  function RowCanEdit(row: Row): (b: bool)
    ensures row.capability.Plain? ==> !b
  {
    match row.capability
    case Plain => false
    case Editable(canEdit, _) => canEdit
    case Movable(canEdit, _, _, _) => canEdit
  }

  /** `canMoveRowAt` of one row: its answer if movable, false otherwise. */
  function RowCanMove(row: Row): (b: bool)
    ensures !row.capability.Movable? ==> !b
  {
    if row.capability.Movable? then row.capability.canMove else false
  }

  /** `targetIndexPathForMoveFromRowAt` of one row: its `onMove` answer if movable, the proposal otherwise. */
  function RowMoveTarget(row: Row, src: IndexPath, proposed: IndexPath): (r: IndexPath)
    ensures !row.capability.Movable? ==> r == proposed
  {
    if row.capability.Movable? then row.capability.onMove(src, proposed) else proposed
  }

  /** Rows answer with their capability's defaults; a row with no capability gets the neutral answers. */
  lemma CapabilityAnswers(cellType: string, onMove: (IndexPath, IndexPath) -> IndexPath, src: IndexPath, proposed: IndexPath)
    ensures var plain := DefaultRow(cellType, Plain);
      !RowCanEdit(plain) && !RowCanMove(plain) && RowEditingStyle(plain) == NoStyle
      && RowMoveTarget(plain, src, proposed) == proposed
    ensures var editable := DefaultRow(cellType, EditableDefaults());
      RowCanEdit(editable) && !RowCanMove(editable) && RowEditingStyle(editable) == Delete
      && RowMoveTarget(editable, src, proposed) == proposed
    ensures var movable := DefaultRow(cellType, MovableDefaults(onMove));
      RowCanEdit(movable) && RowCanMove(movable) && RowEditingStyle(movable) == Delete
      && RowMoveTarget(movable, src, proposed) == onMove(src, proposed)
  {
  }

  class TableViewManager {
    var sections: seq<TableSection>
    /** The row the `onInsertRow` factory makes, when one is set. */
    var onInsertRow: Option<Row>

    constructor(sections: seq<TableSection>)
      ensures this.sections == sections && onInsertRow.None?
    {
      this.sections := sections;
      onInsertRow := None;
    }

    method SetOnInsertRow(row: Row)
      modifies this
      ensures sections == old(sections) && onInsertRow == Some(row)
    {
      onInsertRow := Some(row);
    }

    /** `updateSections`: the whole list is replaced. */
    method UpdateSections(newSections: seq<TableSection>)
      modifies this
      ensures sections == newSections && onInsertRow == old(onInsertRow)
    {
      sections := newSections;
    }

    function NumberOfSections(): nat
      reads this
    {
      |sections|
    }

    function NumberOfRows(section: nat): nat
      requires section < |sections|
      reads this
    {
      |sections[section].rows|
    }

    function RowAt(ip: IndexPath): Row
      requires IsRow(sections, ip)
      reads this
    {
      sections[ip.section].rows[ip.row]
    }

    function HeaderConfig(section: nat): HeaderType
      requires section < |sections|
      reads this
    {
      sections[section].header
    }

    function Header(section: nat): Option<HeaderView>
      requires section < |sections|
      reads this
    {
      HF.ViewValue(HeaderConfig(section))
    }

    function FooterConfig(section: nat): FooterType
      requires section < |sections|
      reads this
    {
      sections[section].footer
    }

    function Footer(section: nat): Option<FooterView>
      requires section < |sections|
      reads this
    {
      HF.ViewValue(FooterConfig(section))
    }

    function TitleForHeader(section: nat): Option<string>
      requires section < |sections|
      reads this
    {
      HF.TitleValue(HeaderConfig(section))
    }

    function TitleForFooter(section: nat): Option<string>
      requires section < |sections|
      reads this
    {
      HF.TitleValue(FooterConfig(section))
    }

    function EstimatedHeightForRow(ip: IndexPath): Height
      requires IsRow(sections, ip)
      reads this
    {
      HeightOf(RowAt(ip).estimatedHeight)
    }

    function EstimatedHeightForHeader(section: nat): Height
      requires section < |sections|
      reads this
    {
      match Header(section)
      case None => Automatic
      case Some(header) => HeightOf(header.estimatedHeight)
    }

    function EstimatedHeightForFooter(section: nat): Height
      requires section < |sections|
      reads this
    {
      match Footer(section)
      case None => Automatic
      case Some(footer) => HeightOf(footer.estimatedHeight)
    }

    function EditingStyleFor(ip: IndexPath): EditingStyle
      requires IsRow(sections, ip)
      reads this
    {
      RowEditingStyle(RowAt(ip))
    }

    function CanEditRow(ip: IndexPath): bool
      requires IsRow(sections, ip)
      reads this
    {
      RowCanEdit(RowAt(ip))
    }

    function CanMoveRow(ip: IndexPath): bool
      requires IsRow(sections, ip)
      reads this
    {
      RowCanMove(RowAt(ip))
    }

    function TargetIndexPathForMove(src: IndexPath, proposed: IndexPath): IndexPath
      requires IsRow(sections, src)
      reads this
    {
      RowMoveTarget(RowAt(src), src, proposed)
    }

    /**
     * `commit editingStyle forRowAt`: an insert appends the factory's row to the section (nothing
     * without a factory), a delete removes the row at the path, any other style does nothing.
     */
    method CommitEditingStyle(style: EditingStyle, ip: IndexPath) returns (change: RowChange)
      requires style == Insert && onInsertRow.Some? ==> ip.section < |sections|
      requires style == Delete ==> IsRow(sections, ip)
      modifies this
      ensures onInsertRow == old(onInsertRow)
      ensures style == Insert && onInsertRow.Some? ==>
        && sections == AppendRow(old(sections), ip.section, onInsertRow.value)
        && change == Inserted(IndexPath(ip.section, |sections[ip.section].rows| - 1))
      ensures style == Delete ==> sections == DeleteRow(old(sections), ip) && change == Deleted(ip)
      ensures style == NoStyle || (style == Insert && onInsertRow.None?) ==> sections == old(sections) && change == NoChange
    {
      change := NoChange;
      match style {
        case Insert =>
          if onInsertRow.Some? {
            var section := sections[ip.section];
            section := section.(rows := section.rows + [onInsertRow.value]);
            sections := sections[ip.section := section];
            change := Inserted(IndexPath(ip.section, |section.rows| - 1));
          }
        case Delete =>
          var section := sections[ip.section];
          section := section.(rows := RemoveAt(section.rows, ip.row));
          sections := sections[ip.section := section];
          change := Deleted(ip);
        case NoStyle =>
      }
    }

    /** `moveRowAt`: takes the row out of its section, then inserts it into the destination section. */
    method MoveRowAt(src: IndexPath, dst: IndexPath)
      requires CanMoveTo(sections, src, dst)
      modifies this
      ensures sections == MoveRow(old(sections), src, dst) && onInsertRow == old(onInsertRow)
    {
      var sourceSection := sections[src.section];
      var sourceRow := sourceSection.rows[src.row];
      sourceSection := sourceSection.(rows := RemoveAt(sourceSection.rows, src.row));
      sections := sections[src.section := sourceSection];
      var destinationSection := sections[dst.section];
      destinationSection := destinationSection.(rows := InsertAt(destinationSection.rows, dst.row, sourceRow));
      sections := sections[dst.section := destinationSection];
    }
  }

  /** A row's questions are answered by its own capability, and by the neutral answers for a plain row. */
  lemma RowQueries(m: TableViewManager, ip: IndexPath, proposed: IndexPath)
    requires IsRow(m.sections, ip)
    ensures ip.section < m.NumberOfSections() && ip.row < m.NumberOfRows(ip.section)
    ensures var row := m.sections[ip.section].rows[ip.row];
      && m.RowAt(ip) == row
      && m.EstimatedHeightForRow(ip) == (if row.estimatedHeight.Some? then Fixed(row.estimatedHeight.value) else Automatic)
      && (row.capability.Plain? ==> !m.CanEditRow(ip) && !m.CanMoveRow(ip) && m.EditingStyleFor(ip) == NoStyle)
      && (row.capability.Editable? ==>
            m.CanEditRow(ip) == row.capability.canEdit && !m.CanMoveRow(ip)
            && m.EditingStyleFor(ip) == row.capability.editingStyle)
      && (row.capability.Movable? ==>
            m.CanEditRow(ip) == row.capability.canEdit && m.EditingStyleFor(ip) == row.capability.editingStyle
            && m.CanMoveRow(ip) == row.capability.canMove
            && m.TargetIndexPathForMove(ip, proposed) == row.capability.onMove(ip, proposed))
      && (!row.capability.Movable? ==> m.TargetIndexPathForMove(ip, proposed) == proposed)
  {
  }

  /** A section's header (and footer) is offered as a title or as a view, never both; only a view can give a height. */
  lemma HeaderFooterQueries(m: TableViewManager, section: nat)
    requires section < |m.sections|
    ensures !(m.TitleForHeader(section).Some? && m.Header(section).Some?)
    ensures !(m.TitleForFooter(section).Some? && m.Footer(section).Some?)
    ensures m.sections[section].header.Title? ==> m.TitleForHeader(section) == Some(m.sections[section].header.text)
    ensures m.sections[section].footer.Title? ==> m.TitleForFooter(section) == Some(m.sections[section].footer.text)
    ensures !m.sections[section].header.View? ==> m.Header(section).None? && m.EstimatedHeightForHeader(section) == Automatic
    ensures !m.sections[section].footer.View? ==> m.Footer(section).None? && m.EstimatedHeightForFooter(section) == Automatic
    ensures m.sections[section].header.View? ==>
      && m.Header(section) == Some(m.sections[section].header.view)
      && m.EstimatedHeightForHeader(section) == HeightOf(m.sections[section].header.view.estimatedHeight)
    ensures m.sections[section].footer.View? ==>
      && m.Footer(section) == Some(m.sections[section].footer.view)
      && m.EstimatedHeightForFooter(section) == HeightOf(m.sections[section].footer.view.estimatedHeight)
  {
    HF.AccessorsDetermineValue(m.sections[section].header);
    HF.AccessorsDetermineValue(m.sections[section].footer);
  }
}
