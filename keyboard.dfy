/** The canvas keyboard shortcuts: a chain of early-return tests that picks
    at most one action for a key press. */
module KeyboardShortcuts {
  import opened Domain
  import Selection

  /** The parts of a `keydown` event the handler reads; `tagName` and
      `isContentEditable` describe the event's target element. */
  datatype KeyEvent = KeyEvent(key: string, metaKey: bool, ctrlKey: bool, shiftKey: bool,
                               tagName: string, isContentEditable: bool)

  datatype Shortcut = ToggleSearch | CreateNote | CreateBundle | DeleteSelected | RenameSelected | Escape

  /** The key press is aimed at a text field. */
  predicate IsTyping(e: KeyEvent)
  {
    e.tagName == "INPUT" || e.tagName == "TEXTAREA" || e.isContentEditable
  }

  predicate Modifier(e: KeyEvent)
  {
    e.metaKey || e.ctrlKey
  }

  predicate Renamable(t: Option<Selection.SelectableType>)
  {
    t == Some(Selection.Star) || t == Some(Selection.BlackHole)
  }

  /** `handler`: nothing in edit mode or while typing; otherwise the first
      matching rule of Ctrl/Cmd+K, Ctrl/Cmd+N, Ctrl/Cmd+Shift+N,
      Delete/Backspace with a selection, F2 on a selected star or black hole,
      and Escape. Each action is characterised on its own: the rules never
      compete, because their keys differ. */
  function Dispatch(e: KeyEvent, isEditing: bool, selectedId: Option<string>,
                    selectedType: Option<Selection.SelectableType>): (r: Option<Shortcut>)
    ensures isEditing || IsTyping(e) ==> r.None?
    ensures r == Some(ToggleSearch) <==> !isEditing && !IsTyping(e) && Modifier(e) && e.key == "k"
    ensures r == Some(CreateNote) <==> !isEditing && !IsTyping(e) && Modifier(e) && !e.shiftKey && e.key == "n"
    ensures r == Some(CreateBundle) <==> !isEditing && !IsTyping(e) && Modifier(e) && e.shiftKey && e.key == "N"
    ensures r == Some(DeleteSelected) <==>
              !isEditing && !IsTyping(e) && (e.key == "Delete" || e.key == "Backspace") && Truthy(selectedId)
    ensures r == Some(RenameSelected) <==>
              !isEditing && !IsTyping(e) && e.key == "F2" && Truthy(selectedId) && Renamable(selectedType)
    ensures r == Some(Escape) <==> !isEditing && !IsTyping(e) && e.key == "Escape"
  {
    if isEditing then None
    else if IsTyping(e) then None
    else if Modifier(e) && e.key == "k" then Some(ToggleSearch)
    else if Modifier(e) && !e.shiftKey && e.key == "n" then Some(CreateNote)
    else if Modifier(e) && e.shiftKey && e.key == "N" then Some(CreateBundle)
    else if (e.key == "Delete" || e.key == "Backspace") && Truthy(selectedId) then Some(DeleteSelected)
    else if e.key == "F2" && Truthy(selectedId) && Renamable(selectedType) then Some(RenameSelected)
    else if e.key == "Escape" then Some(Escape)
    else None
  }

  /** Ctrl/Cmd+K toggles search whatever else is held or selected. */
  lemma SearchShortcutWins(e: KeyEvent, selectedId: Option<string>, selectedType: Option<Selection.SelectableType>)
    requires Modifier(e) && e.key == "k" && !IsTyping(e)
    ensures Dispatch(e, false, selectedId, selectedType) == Some(ToggleSearch)
    ensures Dispatch(e.(shiftKey := !e.shiftKey), false, None, None) == Some(ToggleSearch)
  {
  }

  /** A key press that none of the rules names does nothing. */
  lemma OtherKeysIgnored(e: KeyEvent, isEditing: bool, selectedId: Option<string>,
                         selectedType: Option<Selection.SelectableType>)
    requires e.key !in ["k", "n", "N", "Delete", "Backspace", "F2", "Escape"]
    ensures Dispatch(e, isEditing, selectedId, selectedType).None?
  {
  }
}
