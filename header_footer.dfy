/** `TableViewHeaderFooterType`: a section header or footer is a title, a view, or nothing. */
module HeaderFooters {
  import Wrappers

  datatype HeaderFooterType<V> = Title(text: string) | View(view: V) | None

  /** `titleValue`. */
  function TitleValue<V>(h: HeaderFooterType<V>): (r: Wrappers.Option<string>)
    ensures r.Some? <==> h.Title?
    ensures h.Title? ==> r.value == h.text
  {
    if h.Title? then Wrappers.Some(h.text) else Wrappers.None
  }

  /** `viewValue`. */
  function ViewValue<V>(h: HeaderFooterType<V>): (r: Wrappers.Option<V>)
    ensures r.Some? <==> h.View?
    ensures h.View? ==> r.value == h.view
  {
    if h.View? then Wrappers.Some(h.view) else Wrappers.None
  }

  /** The two accessors never both answer, and together they determine the value. */
  lemma AccessorsDetermineValue<V>(h: HeaderFooterType<V>)
    ensures !(TitleValue(h).Some? && ViewValue(h).Some?)
    ensures h.None? <==> TitleValue(h).None? && ViewValue(h).None?
    ensures h == (if TitleValue(h).Some? then Title(TitleValue(h).value)
                  else if ViewValue(h).Some? then View(ViewValue(h).value)
                  else None)
  {
  }
}
