/** The canvas right-click menu: what was clicked, where, and which items
    the menu offers for it. Item icons are left out; their handlers are
    modelled as the action they trigger. */
module ContextMenu {
  import opened Domain
  import Seqs
  import CanvasViewport

  const CANVAS: string := "canvas"
  const PLANET: string := "planet"
  const STAR: string := "star"
  const BLACKHOLE: string := "blackhole"

  /** The nearest ancestor of the clicked element that carries a
      `data-context-target` attribute: that attribute's value and its
      `data-context-id`, if any. */
  datatype TaggedElement = TaggedElement(targetAttr: string, idAttr: Option<string>)

  /** What clicking an item does. */
  datatype MenuAction =
    | CreateNoteAt(x: real, y: real)
    | CreateBundle
    | ResetViewport
    | EditNote(note: Note)
    | ToggleFavorite(noteId: string)
    | TogglePin(noteId: string)
    | ArchiveNote(noteId: string)
    | DeleteNote(noteId: string)
    | RenameBundle(bundleId: string)
    | RecolorBundle(bundleId: string)
    | AddNoteToBundle(bundleId: string)
    | UnparentBundle(bundleId: string)
    | DeleteBundle(bundleId: string)

  datatype MenuItem = MenuItem(id: string, labelText: string, action: MenuAction, dividerAfter: bool, destructive: bool)

  /** The target type: the attribute's value, or `canvas` when there is no
      tagged ancestor or the attribute is empty. */
  function TargetTypeOf(tagged: Option<TaggedElement>): (t: string)
    ensures tagged.None? ==> t == CANVAS
    ensures tagged.Some? ==> t == (if tagged.value.targetAttr == "" then CANVAS else tagged.value.targetAttr)
  {
    if tagged.Some? && tagged.value.targetAttr != "" then tagged.value.targetAttr else CANVAS
  }

  /** The target id: the tagged ancestor's non-empty `data-context-id`, or null. */
  function TargetIdOf(tagged: Option<TaggedElement>): (id: Option<string>)
    ensures tagged.None? ==> id.None?
    ensures tagged.Some? ==> id == OrNull(tagged.value.idAttr)
    ensures id.Some? ==> id.value != ""
  {
    if tagged.None? then None else OrNull(tagged.value.idAttr)
  }

  function ItemIds(items: seq<MenuItem>): (r: seq<string>)
    ensures |r| == |items|
    ensures forall i :: 0 <= i < |items| ==> r[i] == items[i].id
  {
    seq(|items|, i requires 0 <= i < |items| => items[i].id)
  }

  /** Every item acts on `targetId`, apart from creating a new bundle. */
  predicate ActsOn(items: seq<MenuItem>, targetId: Option<string>)
  {
    forall i :: 0 <= i < |items| ==> items[i].action == CreateBundle || ActionTarget(items[i].action) == targetId
  }

  /** Only the last item is destructive. */
  predicate OnlyLastDestructive(items: seq<MenuItem>)
  {
    forall i :: 0 <= i < |items| ==> (items[i].destructive <==> i == |items| - 1)
  }

  function CanvasItems(canvasPosition: Point): (r: seq<MenuItem>)
    ensures ItemIds(r) == ["new-planet", "new-star", "reset-view"]
    ensures Seqs.NoDuplicates(ItemIds(r))
    ensures r[0].action == CreateNoteAt(canvasPosition.x, canvasPosition.y)
    ensures forall i :: 0 <= i < |r| ==> !r[i].destructive
  {
    [ MenuItem("new-planet", "New Planet", CreateNoteAt(canvasPosition.x, canvasPosition.y), false, false),
      MenuItem("new-star", "New Star System", CreateBundle, true, false),
      MenuItem("reset-view", "Reset View", ResetViewport, false, false) ]
  }

  function PlanetItems(note: Note, targetId: string): (r: seq<MenuItem>)
    ensures ItemIds(r) == ["edit", "favorite", "pin", "archive", "delete"]
    ensures Seqs.NoDuplicates(ItemIds(r))
    ensures note.id == targetId ==> ActsOn(r, Some(targetId))
    ensures OnlyLastDestructive(r)
  {
    [ MenuItem("edit", "Edit", EditNote(note), false, false),
      MenuItem("favorite", if note.favorited then "Unfavorite" else "Favorite", ToggleFavorite(targetId), false, false),
      MenuItem("pin", if note.pinned then "Unpin" else "Pin", TogglePin(targetId), true, false),
      MenuItem("archive", "Archive", ArchiveNote(targetId), false, false),
      MenuItem("delete", "Move to Trash", DeleteNote(targetId), false, true) ]
  }

  function StarItems(bundle: Bundle, targetId: string): (r: seq<MenuItem>)
    ensures ItemIds(r) == ["rename", "recolor", "add-planet"]
                          + (if Truthy(bundle.parentBundleId) then ["unparent"] else []) + ["delete"]
    ensures Seqs.NoDuplicates(ItemIds(r))
    ensures ActsOn(r, Some(targetId)) && OnlyLastDestructive(r)
  {
    [ MenuItem("rename", "Rename", RenameBundle(targetId), false, false),
      MenuItem("recolor", "Change Color", RecolorBundle(targetId), false, false),
      MenuItem("add-planet", "Add Planet", AddNoteToBundle(targetId), true, false) ]
    + (if Truthy(bundle.parentBundleId) then [MenuItem("unparent", "Unparent", UnparentBundle(targetId), false, false)] else [])
    + [ MenuItem("delete", "Delete Star", DeleteBundle(targetId), false, true) ]
  }

  function BlackHoleItems(targetId: string): (r: seq<MenuItem>)
    ensures ItemIds(r) == ["rename", "recolor", "add-star", "delete"]
    ensures Seqs.NoDuplicates(ItemIds(r))
    ensures ActsOn(r, Some(targetId)) && OnlyLastDestructive(r)
  {
    [ MenuItem("rename", "Rename", RenameBundle(targetId), false, false),
      MenuItem("recolor", "Change Color", RecolorBundle(targetId), false, false),
      MenuItem("add-star", "Add Star", CreateBundle, true, false),
      MenuItem("delete", "Delete Black Hole", DeleteBundle(targetId), false, true) ]
  }

  /** `items`: the menu for the current target. */
  function Items(targetType: string, targetId: Option<string>, canvasPosition: Point,
                 notes: seq<Note>, bundles: seq<Bundle>): (r: seq<MenuItem>)
    ensures targetType == CANVAS ==> ItemIds(r) == ["new-planet", "new-star", "reset-view"]
    ensures targetType == PLANET && Truthy(targetId) ==>
              (FindNote(notes, targetId.value).None? <==> r == [])
              && (FindNote(notes, targetId.value).Some? ==> ItemIds(r) == ["edit", "favorite", "pin", "archive", "delete"])
    ensures targetType == STAR && Truthy(targetId) ==>
              (FindBundle(bundles, targetId.value).None? <==> r == [])
              && (FindBundle(bundles, targetId.value).Some? ==>
                    ItemIds(r) == ["rename", "recolor", "add-planet"]
                                  + (if Truthy(FindBundle(bundles, targetId.value).value.parentBundleId) then ["unparent"] else [])
                                  + ["delete"])
    ensures targetType == BLACKHOLE && Truthy(targetId) ==>
              (FindBundle(bundles, targetId.value).None? <==> r == [])
              && (FindBundle(bundles, targetId.value).Some? ==> ItemIds(r) == ["rename", "recolor", "add-star", "delete"])
    ensures targetType != CANVAS && !Truthy(targetId) ==> r == []
    ensures targetType !in [CANVAS, PLANET, STAR, BLACKHOLE] ==> r == []
  {
    if targetType == CANVAS then CanvasItems(canvasPosition)
    else if targetType == PLANET && Truthy(targetId) then
      match FindNote(notes, targetId.value)
      case None => []
      case Some(note) => PlanetItems(note, targetId.value)
    else if targetType == STAR && Truthy(targetId) then
      match FindBundle(bundles, targetId.value)
      case None => []
      case Some(bundle) => StarItems(bundle, targetId.value)
    else if targetType == BLACKHOLE && Truthy(targetId) then
      match FindBundle(bundles, targetId.value)
      case None => []
      case Some(_) => BlackHoleItems(targetId.value)
    else []
  }

  /** The object the item acts on, when it acts on one. */
  function ActionTarget(a: MenuAction): Option<string>
  {
    match a
    case EditNote(note) => Some(note.id)
    case ToggleFavorite(id) => Some(id)
    case TogglePin(id) => Some(id)
    case ArchiveNote(id) => Some(id)
    case DeleteNote(id) => Some(id)
    case RenameBundle(id) => Some(id)
    case RecolorBundle(id) => Some(id)
    case AddNoteToBundle(id) => Some(id)
    case UnparentBundle(id) => Some(id)
    case DeleteBundle(id) => Some(id)
    case _ => None
  }

  /** Every item of a planet, star or black-hole menu acts on the clicked
      object (or creates a new bundle), the canvas menu creates the note at
      the clicked canvas point, and only the last item, the delete, is
      marked destructive. */
  lemma ItemsActOnTarget(targetType: string, targetId: Option<string>, canvasPosition: Point,
                         notes: seq<Note>, bundles: seq<Bundle>)
    ensures var r := Items(targetType, targetId, canvasPosition, notes, bundles);
            (targetType != CANVAS ==>
               forall i :: 0 <= i < |r| ==> r[i].action == CreateBundle || ActionTarget(r[i].action) == targetId)
            && (targetType == CANVAS ==> r[0].action == CreateNoteAt(canvasPosition.x, canvasPosition.y))
            && (forall i :: 0 <= i < |r| ==> (r[i].destructive <==> i == |r| - 1 && targetType != CANVAS))
  {
    if targetType == PLANET && Truthy(targetId) && FindNote(notes, targetId.value).Some? {
      FindNoteIdentity(notes, targetId.value);
    }
  }

  lemma FindNoteIdentity(notes: seq<Note>, id: string)
    requires FindNote(notes, id).Some?
    ensures FindNote(notes, id).value.id == id
  {
  }

  /** Item ids within one menu are distinct. */
  lemma ItemIdsDistinct(targetType: string, targetId: Option<string>, canvasPosition: Point,
                        notes: seq<Note>, bundles: seq<Bundle>)
    ensures Seqs.NoDuplicates(ItemIds(Items(targetType, targetId, canvasPosition, notes, bundles)))
  {
  }

  /** The favorite and pin labels describe what clicking them will do. */
  lemma PlanetLabelsFlip(notes: seq<Note>, targetId: string)
    requires targetId != "" && FindNote(notes, targetId).Some?
    ensures var note := FindNote(notes, targetId).value;
            var r := Items(PLANET, Some(targetId), Point(0.0, 0.0), notes, []);
            |r| == 5
            && (r[1].labelText == "Unfavorite" <==> note.favorited)
            && (r[2].labelText == "Unpin" <==> note.pinned)
  {
  }

  /** The menu's state record. */
  class Menu {
    var open: bool
    var position: Point
    var canvasPosition: Point
    var targetType: string
    var targetId: Option<string>

    predicate IsInitial()
      reads this
    {
      !open && position == Point(0.0, 0.0) && canvasPosition == Point(0.0, 0.0)
      && targetType == CANVAS && targetId.None?
    }

    constructor ()
      ensures IsInitial()
    {
      open := false;
      position := Point(0.0, 0.0);
      canvasPosition := Point(0.0, 0.0);
      targetType := CANVAS;
      targetId := None;
    }

    /** `close`: back to the initial state. */
    method Close()
      modifies this
      ensures IsInitial()
    {
      open := false;
      position := Point(0.0, 0.0);
      canvasPosition := Point(0.0, 0.0);
      targetType := CANVAS;
      targetId := None;
    }

    /** `handleContextMenu`: opens at the pointer, recording its screen
        point and that point's canvas image, and the classified target. */
    method HandleContextMenu(tagged: Option<TaggedElement>, clientX: real, clientY: real,
                             view: CanvasViewport.ViewState, rect: Option<CanvasViewport.Container>)
      requires view.zoom > 0.0
      modifies this
      ensures open && position == Point(clientX, clientY)
      ensures canvasPosition == CanvasViewport.ScreenToCanvas(view, rect, clientX, clientY)
      ensures rect.Some? ==>
                CanvasViewport.ToScreen(view, canvasPosition) == Point(clientX - rect.value.left, clientY - rect.value.top)
      ensures targetType == TargetTypeOf(tagged) && targetId == TargetIdOf(tagged)
    {
      open := true;
      position := Point(clientX, clientY);
      canvasPosition := CanvasViewport.ScreenToCanvas(view, rect, clientX, clientY);
      targetType := TargetTypeOf(tagged);
      targetId := TargetIdOf(tagged);
    }

    /** The items for the current state. */
    function CurrentItems(notes: seq<Note>, bundles: seq<Bundle>): seq<MenuItem>
      reads this
    {
      Items(targetType, targetId, canvasPosition, notes, bundles)
    }
  }

  /** A right-click on bare canvas (no tagged ancestor) offers the canvas
      menu, whose first item creates a note exactly at the clicked point. */
  method BackgroundClickMenu(menu: Menu, clientX: real, clientY: real, view: CanvasViewport.ViewState,
                             rect: CanvasViewport.Container, notes: seq<Note>, bundles: seq<Bundle>)
      returns (items: seq<MenuItem>)
    requires view.zoom > 0.0
    modifies menu
    ensures ItemIds(items) == ["new-planet", "new-star", "reset-view"]
    ensures items[0].action.CreateNoteAt?
    ensures CanvasViewport.ToScreen(view, Point(items[0].action.x, items[0].action.y))
            == Point(clientX - rect.left, clientY - rect.top)
  {
    menu.HandleContextMenu(None, clientX, clientY, view, Some(rect));
    items := menu.CurrentItems(notes, bundles);
    ItemsActOnTarget(menu.targetType, menu.targetId, menu.canvasPosition, notes, bundles);
  }
}
