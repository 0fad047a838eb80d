/** The canvas component: what a finished drag asks the store to do, when a
    click on a note or a double-click on the background acts, and the flags
    its handlers set. Store writes are returned as values, not performed. */
module NoteCanvas {
  import opened Domain
  import CanvasLayout
  import CanvasViewport

  const ZONE_FAVORITE: string := "zone-favorite"
  const ZONE_ARCHIVE: string := "zone-archive"
  const ZONE_TRASH: string := "zone-trash"
  const BUNDLE_ZONE_PREFIX: string := "bundle-zone-"

  /** The droppable under the pointer when a drag ended: its id and the
      `bundleId` carried in its data. */
  datatype DropTarget = DropTarget(id: string, bundleId: Option<string>)

  /** The one store write a drop asks for, if any. */
  datatype DropAction =
    | NoAction
    | SetFavorited(noteId: string, favorited: bool)
    | Archive(noteId: string)
    | SoftDelete(noteId: string)
    | MoveToBundle(noteId: string, bundleId: Option<string>)
    | UpdatePosition(noteId: string, x: int, y: int)

  predicate IsBundleZone(id: string)
    ensures IsBundleZone(id) ==> id != ZONE_FAVORITE && id != ZONE_ARCHIVE && id != ZONE_TRASH
  {
    assert ZONE_FAVORITE[0] != BUNDLE_ZONE_PREFIX[0] && ZONE_ARCHIVE[0] != BUNDLE_ZONE_PREFIX[0]
           && ZONE_TRASH[0] != BUNDLE_ZONE_PREFIX[0];
    BUNDLE_ZONE_PREFIX <= id
  }

  /** `over?.id === zoneId`: a drop target is present and has that id. */
  predicate OverIs(over: Option<DropTarget>, zoneId: string)
  {
    over.Some? && over.value.id == zoneId
  }

  /** `handleDragEnd`: the zones are tested in a fixed order (favorite,
      archive, trash, a bundle zone) and a drop on none of them repositions
      the note by the drag delta scaled back to canvas units and rounded. */
  function DropActionFor(signedIn: bool, notes: seq<Note>, noteId: string, over: Option<DropTarget>,
                         positions: map<string, Point>, deltaX: real, deltaY: real, zoom: real): (a: DropAction)
    requires zoom > 0.0
    ensures !signedIn || FindNote(notes, noteId).None? ==> a.NoAction?
    ensures !a.NoAction? ==> a.noteId == noteId
    ensures a.NoAction? <==>
              !signedIn || FindNote(notes, noteId).None?
              || (noteId !in positions
                  && !(over.Some? && (over.value.id in [ZONE_FAVORITE, ZONE_ARCHIVE, ZONE_TRASH] || IsBundleZone(over.value.id))))
    ensures signedIn && FindNote(notes, noteId).Some? ==>
              var note := FindNote(notes, noteId).value;
              (OverIs(over, ZONE_FAVORITE) ==> a == SetFavorited(noteId, !note.favorited))
              && (OverIs(over, ZONE_ARCHIVE) ==> a == Archive(noteId))
              && (OverIs(over, ZONE_TRASH) ==> a == SoftDelete(noteId))
              && (over.Some? && IsBundleZone(over.value.id) ==> a == MoveToBundle(noteId, OrNull(over.value.bundleId)))
    ensures a.UpdatePosition? <==>
              signedIn && FindNote(notes, noteId).Some? && noteId in positions
              && !(over.Some? && (over.value.id in [ZONE_FAVORITE, ZONE_ARCHIVE, ZONE_TRASH] || IsBundleZone(over.value.id)))
    ensures a.UpdatePosition? ==>
              a.x == CanvasLayout.Round(positions[noteId].x + deltaX / zoom)
              && a.y == CanvasLayout.Round(positions[noteId].y + deltaY / zoom)
  {
    ZonesAreExclusive();
    if !signedIn then NoAction
    else match FindNote(notes, noteId)
      case None => NoAction
      case Some(note) =>
        if OverIs(over, ZONE_FAVORITE) then SetFavorited(noteId, !note.favorited)
        else if OverIs(over, ZONE_ARCHIVE) then Archive(noteId)
        else if OverIs(over, ZONE_TRASH) then SoftDelete(noteId)
        else if over.Some? && IsBundleZone(over.value.id) then MoveToBundle(noteId, OrNull(over.value.bundleId))
        else if noteId in positions then
          var pos := positions[noteId];
          UpdatePosition(noteId, CanvasLayout.Round(pos.x + deltaX / zoom), CanvasLayout.Round(pos.y + deltaY / zoom))
        else NoAction
  }

  /** The three fixed zones have distinct ids and none of them looks like a
      bundle zone, so at most one zone rule matches a given target and the
      order of the tests never hides one. */
  lemma ZonesAreExclusive()
    ensures ZONE_FAVORITE != ZONE_ARCHIVE && ZONE_FAVORITE != ZONE_TRASH && ZONE_ARCHIVE != ZONE_TRASH
    ensures !IsBundleZone(ZONE_FAVORITE) && !IsBundleZone(ZONE_ARCHIVE) && !IsBundleZone(ZONE_TRASH)
  {
    assert ZONE_FAVORITE[0] != BUNDLE_ZONE_PREFIX[0];
    assert ZONE_ARCHIVE[0] != BUNDLE_ZONE_PREFIX[0];
    assert ZONE_TRASH[0] != BUNDLE_ZONE_PREFIX[0];
    assert ZONE_FAVORITE[5] != ZONE_ARCHIVE[5] && ZONE_FAVORITE[5] != ZONE_TRASH[5] && ZONE_ARCHIVE[5] != ZONE_TRASH[5];
  }

  /** A repositioned note lands within half a canvas unit of where the drag
      left it: the stored position plus the screen delta divided by the zoom. */
  lemma RepositionIsNearest(signedIn: bool, notes: seq<Note>, noteId: string, over: Option<DropTarget>,
                            positions: map<string, Point>, deltaX: real, deltaY: real, zoom: real)
    requires zoom > 0.0
    requires DropActionFor(signedIn, notes, noteId, over, positions, deltaX, deltaY, zoom).UpdatePosition?
    ensures var a := DropActionFor(signedIn, notes, noteId, over, positions, deltaX, deltaY, zoom);
            var pos := positions[noteId];
            -0.5 <= a.x as real - (pos.x + deltaX / zoom) <= 0.5
            && -0.5 <= a.y as real - (pos.y + deltaY / zoom) <= 0.5
  {
  }

  /** Dropping a note where it was picked up, at a whole-number position,
      writes that same position back. */
  lemma {:induction false} StillDropKeepsPosition(notes: seq<Note>, noteId: string, positions: map<string, Point>,
                                                  x: int, y: int, zoom: real)
    requires zoom > 0.0
    requires FindNote(notes, noteId).Some?
    requires noteId in positions && positions[noteId] == Point(x as real, y as real)
    ensures DropActionFor(true, notes, noteId, None, positions, 0.0, 0.0, zoom) == UpdatePosition(noteId, x, y)
  {
    RoundOfInteger(x);
    RoundOfInteger(y);
  }

  lemma RoundOfInteger(n: int)
    ensures CanvasLayout.Round(n as real) == n
  {
  }

  /** Dropping a note on the favorite zone twice, the second time with the
      store's answer to the first, leaves the note as favorited as before. */
  lemma {:induction false} FavoriteDropTwiceRestores(note: Note, zoom: real)
    requires zoom > 0.0
    ensures var first := DropActionFor(true, [note], note.id, Some(DropTarget(ZONE_FAVORITE, None)), map[], 0.0, 0.0, zoom);
            var updated := note.(favorited := first.favorited);
            var second := DropActionFor(true, [updated], note.id, Some(DropTarget(ZONE_FAVORITE, None)), map[], 0.0, 0.0, zoom);
            first == SetFavorited(note.id, !note.favorited) && second == SetFavorited(note.id, note.favorited)
  {
  }

  /** `handleNoteClick`: the position to zoom to, or None when the click is
      ignored (editing, animating, or a note with no layout position). */
  function NoteClickTarget(isEditing: bool, isAnimating: bool, positions: map<string, Point>, noteId: string): (r: Option<Point>)
    ensures r.Some? <==> !isEditing && !isAnimating && noteId in positions
    ensures r.Some? ==> r.value == positions[noteId]
  {
    if isEditing || isAnimating then None
    else if noteId !in positions then None
    else Some(positions[noteId])
  }

  /** Where `handleDoubleClick` asks `handleCreateNote` to store a new note. */
  datatype CreateRequest = CreateRequest(x: int, y: int)

  /** `handleDoubleClick` and the position part of `handleCreateNote`: only a
      double-click on the background itself, outside edit mode and with a
      signed-in user, creates a note, at the rounded canvas point under the
      pointer. */
  function DoubleClickCreate(onBackground: bool, isEditing: bool, signedIn: bool, view: CanvasViewport.ViewState,
                             rect: Option<CanvasViewport.Container>, clientX: real, clientY: real): (r: Option<CreateRequest>)
    requires view.zoom > 0.0
    ensures r.Some? <==> onBackground && !isEditing && signedIn
    ensures r.Some? ==>
              var p := CanvasViewport.ScreenToCanvas(view, rect, clientX, clientY);
              r.value == CreateRequest(CanvasLayout.Round(p.x), CanvasLayout.Round(p.y))
  {
    if !onBackground || isEditing || !signedIn then None
    else
      var p := CanvasViewport.ScreenToCanvas(view, rect, clientX, clientY);
      Some(CreateRequest(CanvasLayout.Round(p.x), CanvasLayout.Round(p.y)))
  }

  /** The note a double-click creates appears under the pointer: its canvas
      point is within half a unit of the one whose screen image is the click. */
  lemma CreatedUnderPointer(view: CanvasViewport.ViewState, rect: CanvasViewport.Container, clientX: real, clientY: real)
    requires view.zoom > 0.0
    ensures var r := DoubleClickCreate(true, false, true, view, Some(rect), clientX, clientY);
            var p := CanvasViewport.ScreenToCanvas(view, Some(rect), clientX, clientY);
            r.Some?
            && CanvasViewport.ToScreen(view, p) == Point(clientX - rect.left, clientY - rect.top)
            && -0.5 <= r.value.x as real - p.x <= 0.5 && -0.5 <= r.value.y as real - p.y <= 0.5
  {
  }

  /** The component's own state. */
  class CanvasSession {
    var activeView: string
    var editingNoteId: Option<string>
    var isEditing: bool
    var isDragging: bool
    var searchOpen: bool

    constructor ()
      ensures activeView == "active" && editingNoteId.None?
      ensures !isEditing && !isDragging && !searchOpen
    {
      activeView := "active";
      editingNoteId := None;
      isEditing := false;
      isDragging := false;
      searchOpen := false;
    }

    /** `handleDragStart`. */
    method DragStart()
      modifies this
      ensures isDragging
      ensures activeView == old(activeView) && editingNoteId == old(editingNoteId)
      ensures isEditing == old(isEditing) && searchOpen == old(searchOpen)
    {
      isDragging := true;
    }

    /** `handleDragEnd`: clears the dragging flag whatever happens, and
        returns the store write the drop asks for. */
    method DragEnd(signedIn: bool, notes: seq<Note>, noteId: string, over: Option<DropTarget>,
                   positions: map<string, Point>, deltaX: real, deltaY: real, zoom: real) returns (a: DropAction)
      requires zoom > 0.0
      modifies this
      ensures !isDragging
      ensures a == DropActionFor(signedIn, notes, noteId, over, positions, deltaX, deltaY, zoom)
      ensures activeView == old(activeView) && editingNoteId == old(editingNoteId)
      ensures isEditing == old(isEditing) && searchOpen == old(searchOpen)
    {
      isDragging := false;
      a := DropActionFor(signedIn, notes, noteId, over, positions, deltaX, deltaY, zoom);
    }

    /** `handleNoteClick`: outside edit mode and animation, marks the note
        as the one being edited and zooms the camera onto its card. Entering
        edit mode happens later, in `ZoomInFinished`. */
    method NoteClick(noteId: string, positions: map<string, Point>, viewport: CanvasViewport.Viewport,
                     container: Option<CanvasViewport.Container>, cardW: real, cardH: real)
      requires viewport.Valid()
      requires container.Some? ==> container.value.width > 0.0 && container.value.height > 0.0
      requires cardW > 0.0 && cardH > 0.0
      modifies this, viewport
      ensures viewport.Valid()
      ensures var target := NoteClickTarget(old(isEditing), old(viewport.isAnimating), positions, noteId);
              (target.None? ==>
                 editingNoteId == old(editingNoteId) && viewport.View() == old(viewport.View())
                 && viewport.savedViewport == old(viewport.savedViewport)
                 && viewport.isAnimating == old(viewport.isAnimating))
              && (target.Some? ==> editingNoteId == Some(noteId))
              && (target.Some? && container.None? ==>
                    viewport.View() == old(viewport.View())
                    && viewport.savedViewport == old(viewport.savedViewport)
                    && viewport.isAnimating == old(viewport.isAnimating))
              && (target.Some? && container.Some? ==>
                    viewport.savedViewport == Some(old(viewport.View()))
                    && viewport.View() == CanvasViewport.FitCard(container.value.width, container.value.height,
                                                                 target.value.x, target.value.y, cardW, cardH)
                    && viewport.isAnimating)
      ensures activeView == old(activeView) && isEditing == old(isEditing)
      ensures isDragging == old(isDragging) && searchOpen == old(searchOpen)
    {
      var target := NoteClickTarget(isEditing, viewport.isAnimating, positions, noteId);
      if target.None? {
        return;
      }
      editingNoteId := Some(noteId);
      viewport.ZoomToCard(container, target.value.x, target.value.y, cardW, cardH);
    }

    /** The timer `handleNoteClick` starts: edit mode begins. */
    method ZoomInFinished()
      modifies this
      ensures isEditing
      ensures activeView == old(activeView) && editingNoteId == old(editingNoteId)
      ensures isDragging == old(isDragging) && searchOpen == old(searchOpen)
    {
      isEditing := true;
    }

    /** `handleCloseEditor`: leaves edit mode and zooms back out; the note
        stays marked until `ZoomOutFinished`. */
    method CloseEditor(viewport: CanvasViewport.Viewport)
      requires viewport.Valid()
      modifies this, viewport
      ensures viewport.Valid()
      ensures !isEditing
      ensures old(viewport.savedViewport).Some? ==> viewport.View() == old(viewport.savedViewport).value
      ensures old(viewport.savedViewport).None? ==> viewport.View() == old(viewport.View())
      ensures viewport.savedViewport.None?
      ensures activeView == old(activeView) && editingNoteId == old(editingNoteId)
      ensures isDragging == old(isDragging) && searchOpen == old(searchOpen)
    {
      isEditing := false;
      viewport.ZoomBack();
    }

    /** The timer `handleCloseEditor` starts: no note is marked any more. */
    method ZoomOutFinished()
      modifies this
      ensures editingNoteId.None?
      ensures activeView == old(activeView) && isEditing == old(isEditing)
      ensures isDragging == old(isDragging) && searchOpen == old(searchOpen)
    {
      editingNoteId := None;
    }

    /** `handleViewChange`: switches the view and leaves edit mode at once. */
    method ViewChange(view: string)
      modifies this
      ensures activeView == view && editingNoteId.None? && !isEditing
      ensures isDragging == old(isDragging) && searchOpen == old(searchOpen)
    {
      activeView := view;
      editingNoteId := None;
      isEditing := false;
    }

    /** The window-level Ctrl/Cmd+K listener: toggles the search palette. */
    method KeyDown(metaKey: bool, ctrlKey: bool, key: string)
      modifies this
      ensures (metaKey || ctrlKey) && key == "k" ==> searchOpen == !old(searchOpen)
      ensures !((metaKey || ctrlKey) && key == "k") ==> searchOpen == old(searchOpen)
      ensures activeView == old(activeView) && editingNoteId == old(editingNoteId)
      ensures isEditing == old(isEditing) && isDragging == old(isDragging)
    {
      if (metaKey || ctrlKey) && key == "k" {
        searchOpen := !searchOpen;
      }
    }
  }

  /** Opening and closing the editor through the session: the camera ends
      exactly where it was before the click, and nothing is left saved. */
  method ClickThenClose(session: CanvasSession, noteId: string, positions: map<string, Point>,
                        viewport: CanvasViewport.Viewport, container: CanvasViewport.Container, cardW: real, cardH: real)
    requires viewport.Valid() && !viewport.isAnimating && !session.isEditing && noteId in positions
    requires container.width > 0.0 && container.height > 0.0
    requires cardW > 0.0 && cardH > 0.0
    modifies session, viewport
    ensures viewport.View() == old(viewport.View()) && viewport.savedViewport.None?
    ensures !session.isEditing && session.editingNoteId.None?
  {
    session.NoteClick(noteId, positions, viewport, Some(container), cardW, cardH);
    viewport.FinishAnimation();
    session.ZoomInFinished();
    session.CloseEditor(viewport);
    session.ZoomOutFinished();
  }
}
