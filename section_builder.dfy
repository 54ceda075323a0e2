/**
 * `TableViewSectionBuilder`: rows, headers and footers written in a section block become one
 * element list, reduced to a section by keeping the first header, the first footer and every row.
 */
module SectionBuilders {
  import opened Wrappers
  import opened Lists
  import opened TableRows
  import HF = HeaderFooters

  /** A `TableViewHeader` or `TableViewFooter`; its view class is named by its type name. */
  datatype HeaderView = HeaderView(viewType: string, estimatedHeight: Option<real>)
  datatype FooterView = FooterView(viewType: string, estimatedHeight: Option<real>)

  type HeaderType = HF.HeaderFooterType<HeaderView>
  type FooterType = HF.HeaderFooterType<FooterView>
  type TableSection = Section<HeaderType, FooterType>

  /** A `TableViewElement`: a row, a header value or a footer value. */
  datatype Element = RowElement(row: Row) | HeaderElement(header: HeaderType) | FooterElement(footer: FooterType)

  function ExpressionRow(row: Row): seq<Element> {
    [RowElement(row)]
  }

  function ExpressionHeader(header: HeaderView): seq<Element> {
    [HeaderElement(HF.View(header))]
  }

  function ExpressionHeaderTitle(text: string): seq<Element> {
    [HeaderElement(HF.Title(text))]
  }

  function ExpressionFooter(footer: FooterView): seq<Element> {
    [FooterElement(HF.View(footer))]
  }

  function ExpressionFooterTitle(text: string): seq<Element> {
    [FooterElement(HF.Title(text))]
  }

  /** `buildBlock(_: TableViewRow...)`: the rows, each as an element, in order. */
  function BuildBlockRows(rows: seq<Row>): (r: seq<Element>)
    ensures |r| == |rows| && forall i :: 0 <= i < |rows| ==> r[i] == RowElement(rows[i])
  {
    seq(|rows|, i requires 0 <= i < |rows| => RowElement(rows[i]))
  }

  /** `buildBlock(_: TableViewElement...)`. */
  function BuildBlockElements(components: seq<Element>): seq<Element> {
    components
  }

  /** `buildBlock(_: [TableViewElement]...)`: the lists, concatenated in order. */
  function BuildBlock(components: seq<seq<Element>>): seq<Element> {
    Flatten(components)
  }

  function BuildArray(components: seq<seq<Element>>): seq<Element> {
    Flatten(components)
  }

  function BuildOptional(component: Option<seq<Element>>): (r: seq<Element>)
    ensures component.None? ==> r == []
    ensures component.Some? ==> r == component.value
  {
    component.GetOr([])
  }

  function BuildEitherFirst(component: seq<Element>): seq<Element> {
    component
  }

  function BuildEitherSecond(component: seq<Element>): seq<Element> {
    component
  }

  function BuildLimitedAvailability(component: seq<Element>): seq<Element> {
    component
  }

  /** The first header element's value, if any. */
  function FirstHeader(es: seq<Element>): (r: Option<HeaderType>)
    ensures r.None? <==> forall i :: 0 <= i < |es| ==> !es[i].HeaderElement?
    ensures r.Some? ==> exists i :: 0 <= i < |es| && es[i] == HeaderElement(r.value) &&
                                    forall j :: 0 <= j < i ==> !es[j].HeaderElement?
  {
    if |es| == 0 then None
    else if es[0].HeaderElement? then Some(es[0].header)
    else
      var r := FirstHeader(es[1..]);
      assert r.Some? ==> exists i :: 0 <= i < |es| && es[i] == HeaderElement(r.value) &&
                                     forall j :: 0 <= j < i ==> !es[j].HeaderElement? by {
        if r.Some? {
          var i :| 0 <= i < |es[1..]| && es[1..][i] == HeaderElement(r.value) &&
                   forall j :: 0 <= j < i ==> !es[1..][j].HeaderElement?;
          assert es[i + 1] == HeaderElement(r.value);
          assert forall j :: 0 <= j < i + 1 ==> !es[j].HeaderElement? by {
            forall j | 0 <= j < i + 1 ensures !es[j].HeaderElement? {
              if j > 0 { assert es[j] == es[1..][j - 1]; }
            }
          }
        }
      }
      r
  }

  /** The first footer element's value, if any. */
  function FirstFooter(es: seq<Element>): (r: Option<FooterType>)
    ensures r.None? <==> forall i :: 0 <= i < |es| ==> !es[i].FooterElement?
    ensures r.Some? ==> exists i :: 0 <= i < |es| && es[i] == FooterElement(r.value) &&
                                    forall j :: 0 <= j < i ==> !es[j].FooterElement?
  {
    if |es| == 0 then None
    else if es[0].FooterElement? then Some(es[0].footer)
    else
      var r := FirstFooter(es[1..]);
      assert r.Some? ==> exists i :: 0 <= i < |es| && es[i] == FooterElement(r.value) &&
                                     forall j :: 0 <= j < i ==> !es[j].FooterElement? by {
        if r.Some? {
          var i :| 0 <= i < |es[1..]| && es[1..][i] == FooterElement(r.value) &&
                   forall j :: 0 <= j < i ==> !es[1..][j].FooterElement?;
          assert es[i + 1] == FooterElement(r.value);
          assert forall j :: 0 <= j < i + 1 ==> !es[j].FooterElement? by {
            forall j | 0 <= j < i + 1 ensures !es[j].FooterElement? {
              if j > 0 { assert es[j] == es[1..][j - 1]; }
            }
          }
        }
      }
      r
  }

  /** The row elements' rows, in order. */
  function RowsOf(es: seq<Element>): (r: seq<Row>)
    ensures |r| <= |es|
    ensures forall row :: row in r <==> RowElement(row) in es
  {
    if |es| == 0 then []
    else
      var rest := RowsOf(es[1..]);
      assert forall e :: e in es <==> e == es[0] || e in es[1..];
      (if es[0].RowElement? then [es[0].row] else []) + rest
  }

  /** `buildFinalResult`: the first header, the first footer (`.none` when absent) and every row. */
  function BuildFinalResult(component: seq<Element>): (s: TableSection)
    ensures s.rows == RowsOf(component)
    ensures FirstHeader(component).None? ==> s.header == HF.None
    ensures FirstHeader(component).Some? ==> s.header == FirstHeader(component).value
    ensures FirstFooter(component).None? ==> s.footer == HF.None
    ensures FirstFooter(component).Some? ==> s.footer == FirstFooter(component).value
  {
    Section(FirstHeader(component).GetOr(HF.None), FirstFooter(component).GetOr(HF.None), RowsOf(component))
  }

  /** Rows of a concatenation are the rows of each part, in order. */
  lemma {:induction false} RowsOfAppend(a: seq<Element>, b: seq<Element>)
    ensures RowsOf(a + b) == RowsOf(a) + RowsOf(b)
    decreases |a|
  {
    if |a| == 0 {
      assert a + b == b;
    } else {
      assert (a + b)[1..] == a[1..] + b;
      RowsOfAppend(a[1..], b);
    }
  }

  /** Headers and footers written anywhere in a section leave its rows as they were. */
  lemma RowsIgnoreHeadersAndFooters(a: seq<Element>, b: seq<Element>, h: HeaderType, f: FooterType)
    ensures RowsOf(a + [HeaderElement(h)] + b) == RowsOf(a + b)
    ensures RowsOf(a + [FooterElement(f)] + b) == RowsOf(a + b)
  {
    RowsOfAppend(a + [HeaderElement(h)], b);
    RowsOfAppend(a, [HeaderElement(h)]);
    RowsOfAppend(a + [FooterElement(f)], b);
    RowsOfAppend(a, [FooterElement(f)]);
    RowsOfAppend(a, b);
  }

  /** In two blocks written one after the other, the first block's header wins, the second's only when the first has none. */
  lemma {:induction false} FirstHeaderAppend(a: seq<Element>, b: seq<Element>)
    ensures FirstHeader(a + b) == if FirstHeader(a).Some? then FirstHeader(a) else FirstHeader(b)
    ensures FirstFooter(a + b) == if FirstFooter(a).Some? then FirstFooter(a) else FirstFooter(b)
    decreases |a|
  {
    if |a| == 0 {
      assert a + b == b;
    } else {
      assert (a + b)[1..] == a[1..] + b;
      FirstHeaderAppend(a[1..], b);
    }
  }

  /** A section of rows alone has no header, no footer and those rows. */
  lemma RowsOnlySection(rows: seq<Row>)
    ensures BuildFinalResult(BuildBlockRows(rows)) == Section(HF.None, HF.None, rows)
  {
    var es := BuildBlockRows(rows);
    assert RowsOf(es) == rows by {
      RowsOfRowElements(rows);
    }
  }

  lemma {:induction false} RowsOfRowElements(rows: seq<Row>)
    ensures RowsOf(BuildBlockRows(rows)) == rows
    decreases |rows|
  {
    if |rows| > 0 {
      assert BuildBlockRows(rows)[1..] == BuildBlockRows(rows[1..]);
      RowsOfRowElements(rows[1..]);
    }
  }

  /** Each expression form wraps into one element of the matching kind. */
  lemma ExpressionsWrap(row: Row, header: HeaderView, footer: FooterView, text: string)
    ensures BuildFinalResult(ExpressionRow(row)) == Section(HF.None, HF.None, [row])
    ensures BuildFinalResult(ExpressionHeader(header)) == Section(HF.View(header), HF.None, [])
    ensures BuildFinalResult(ExpressionHeaderTitle(text)) == Section(HF.Title(text), HF.None, [])
    ensures BuildFinalResult(ExpressionFooter(footer)) == Section(HF.None, HF.View(footer), [])
    ensures BuildFinalResult(ExpressionFooterTitle(text)) == Section(HF.None, HF.Title(text), [])
  {
    assert ExpressionRow(row)[1..] == [];
    assert ExpressionHeader(header)[1..] == [];
    assert ExpressionHeaderTitle(text)[1..] == [];
    assert ExpressionFooter(footer)[1..] == [];
    assert ExpressionFooterTitle(text)[1..] == [];
  }
}
