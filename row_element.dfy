/** One icon of the item rows: which map element it shows, how the player
    has marked it, optional counts and free-text notes. */
module RowElements {
  import opened Wrappers
  import opened MapElements

  datatype RowElementState = NONE | CROSSED | CIRCLED

  newtype i32 = x: int | -0x8000_0000 <= x < 0x8000_0000

  datatype RowElement = RowElement(
    kind: MapElementKind,
    state: RowElementState,
    minCount: Option<i32>,
    maxCount: Option<i32>,
    notes: string)

  /** A row element starts unmarked, without counts and without notes. */
  predicate Blank(r: RowElement) {
    r.state == NONE && r.minCount == None && r.maxCount == None && r.notes == ""
  }

  function MapElementKindToRowElement(kind: MapElementKind): RowElement {
    RowElement(kind, NONE, None, None, "")
  }

  /** A freshly built row element shows the requested kind and is blank;
      it is the only blank element of that kind. */
  lemma NewRowElementIsBlank(kind: MapElementKind, r: RowElement)
    ensures MapElementKindToRowElement(kind).kind == kind
    ensures Blank(MapElementKindToRowElement(kind))
    ensures r.kind == kind && Blank(r) ==> r == MapElementKindToRowElement(kind)
  {
  }

  /** Different kinds give different row elements. */
  lemma RowElementFromKindInjective(a: MapElementKind, b: MapElementKind)
    ensures MapElementKindToRowElement(a) == MapElementKindToRowElement(b) <==> a == b
  {
  }

  /** The row element states are exactly three distinct values. */
  lemma ThreeStates(s: RowElementState)
    ensures s == NONE || s == CROSSED || s == CIRCLED
    ensures NONE != CROSSED && CROSSED != CIRCLED && NONE != CIRCLED
  {
  }
}
