/** The single selection on the canvas: at most one object is selected, and
    the quick-action ring shows exactly while something is. */
module Selection {
  import opened Domain

  datatype SelectableType = Planet | Star | BlackHole

  class SelectionState {
    var selectedId: Option<string>
    var selectedType: Option<SelectableType>
    var quickActionsVisible: bool

    /** An id, a type and the visible ring come and go together. */
    ghost predicate Valid()
      reads this
    {
      (selectedId.None? <==> selectedType.None?) && (selectedType.None? <==> !quickActionsVisible)
    }

    constructor ()
      ensures Valid()
      ensures selectedId.None? && selectedType.None? && !quickActionsVisible
    {
      selectedId := None;
      selectedType := None;
      quickActionsVisible := false;
    }

    /** `select`: replaces any earlier selection and shows the ring. */
    method Select(id: string, kind: SelectableType)
      modifies this
      ensures Valid()
      ensures selectedId == Some(id) && selectedType == Some(kind) && quickActionsVisible
    {
      selectedId := Some(id);
      selectedType := Some(kind);
      quickActionsVisible := true;
    }

    /** `deselect`: clears the selection and hides the ring. */
    method Deselect()
      modifies this
      ensures Valid()
      ensures selectedId.None? && selectedType.None? && !quickActionsVisible
    {
      selectedId := None;
      selectedType := None;
      quickActionsVisible := false;
    }
  }

  /** Selecting twice keeps only the second selection, and deselecting after
      any selection returns to the initial state. */
  method SelectThenDeselect(s: SelectionState, firstId: string, firstKind: SelectableType,
                            secondId: string, secondKind: SelectableType)
    returns (idAfterSecond: Option<string>, kindAfterSecond: Option<SelectableType>)
    modifies s
    ensures idAfterSecond == Some(secondId) && kindAfterSecond == Some(secondKind)
    ensures s.Valid() && s.selectedId.None? && s.selectedType.None? && !s.quickActionsVisible
  {
    s.Select(firstId, firstKind);
    s.Select(secondId, secondKind);
    idAfterSecond, kindAfterSecond := s.selectedId, s.selectedType;
    s.Deselect();
  }
}
