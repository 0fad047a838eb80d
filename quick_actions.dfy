/** The quick-action ring under a selected object: which buttons it shows
    and where they go on the canvas so that they keep a constant size on
    screen at any zoom. */
module QuickActions {
  import opened Domain
  import Selection
  import SpaceTheme

  /** What a ring button triggers. */
  datatype RingAction = EditNote | ToggleFavorite | RenameBundle | RecolorBundle | OpenContextMenu

  datatype QuickAction = QuickAction(id: string, tooltip: string, action: RingAction)

  /** `actions`: edit, favorite and more for a planet with its note; rename,
      recolor and more for a star or black hole with its bundle; otherwise
      none. */
  function Actions(selectedType: Option<Selection.SelectableType>, note: Option<Note>,
                   bundle: Option<Bundle>): (r: seq<QuickAction>)
    ensures selectedType == Some(Selection.Planet) && note.Some? ==>
              |r| == 3 && r[0].id == "edit" && r[1].id == "favorite" && r[2].id == "more"
              && (r[1].tooltip == "Unfavorite" <==> note.value.favorited)
    ensures (selectedType == Some(Selection.Star) || selectedType == Some(Selection.BlackHole)) && bundle.Some? ==>
              |r| == 3 && r[0].id == "rename" && r[1].id == "recolor" && r[2].id == "more"
    ensures r == [] <==>
              !(selectedType == Some(Selection.Planet) && note.Some?)
              && !((selectedType == Some(Selection.Star) || selectedType == Some(Selection.BlackHole)) && bundle.Some?)
    ensures r != [] ==> r[|r| - 1].action == OpenContextMenu
  {
    if selectedType == Some(Selection.Planet) && note.Some? then
      [ QuickAction("edit", "Edit", EditNote),
        QuickAction("favorite", if note.value.favorited then "Unfavorite" else "Favorite", ToggleFavorite),
        QuickAction("more", "More actions", OpenContextMenu) ]
    else if (selectedType == Some(Selection.Star) || selectedType == Some(Selection.BlackHole)) && bundle.Some? then
      [ QuickAction("rename", "Rename", RenameBundle),
        QuickAction("recolor", "Change Color", RecolorBundle),
        QuickAction("more", "More actions", OpenContextMenu) ]
    else []
  }

  /** The ring renders only while visible and with some action. */
  function RingRendered(visible: bool, actions: seq<QuickAction>): (r: bool)
    ensures r ==> visible && |actions| > 0
    ensures !visible || actions == [] ==> !r
  {
    visible && |actions| != 0
  }

  /** The button size, the gap, the row width, its left edge and its top, in
      canvas units. */
  datatype RingPlacement = RingPlacement(size: real, gap: real, totalWidth: real, startX: real, yPos: real)

  /** The placement arithmetic for a row of `n` buttons. */
  function Placement(n: nat, centerX: real, centerY: real, objectRadius: real, zoom: real): (p: RingPlacement)
    requires zoom > 0.0
    ensures p.size * zoom == SpaceTheme.QUICK_ACTION_BUTTON_SIZE
    ensures p.gap * zoom == 4.0
    ensures p.totalWidth == n as real * p.size + (n as real - 1.0) * p.gap
    ensures p.startX + p.totalWidth / 2.0 == centerX
    ensures (p.yPos - (centerY + objectRadius)) * zoom == SpaceTheme.QUICK_ACTION_RING_OFFSET
    ensures p.yPos > centerY + objectRadius
  {
    var size := SpaceTheme.QUICK_ACTION_BUTTON_SIZE / zoom;
    var gap := 4.0 / zoom;
    var totalWidth := n as real * size + (n as real - 1.0) * gap;
    var startX := centerX - totalWidth / 2.0;
    var yPos := centerY + objectRadius + SpaceTheme.QUICK_ACTION_RING_OFFSET / zoom;
    Unscale(SpaceTheme.QUICK_ACTION_BUTTON_SIZE, zoom);
    Unscale(4.0, zoom);
    Unscale(SpaceTheme.QUICK_ACTION_RING_OFFSET, zoom);
    RingPlacement(size, gap, totalWidth, startX, yPos)
  }

  lemma Unscale(x: real, zoom: real)
    requires zoom > 0.0
    ensures (x / zoom) * zoom == x
    ensures x > 0.0 ==> x / zoom > 0.0
  {
  }

  /** On screen the row has the same width at every zoom: `n` buttons of 32
      pixels with 4-pixel gaps. */
  lemma ScreenWidthIsConstant(n: nat, centerX: real, centerY: real, objectRadius: real, zoom: real)
    requires zoom > 0.0
    ensures Placement(n, centerX, centerY, objectRadius, zoom).totalWidth * zoom
            == n as real * SpaceTheme.QUICK_ACTION_BUTTON_SIZE + (n as real - 1.0) * 4.0
  {
    var p := Placement(n, centerX, centerY, objectRadius, zoom);
    calc {
      p.totalWidth * zoom;
      (n as real * p.size + (n as real - 1.0) * p.gap) * zoom;
      n as real * (p.size * zoom) + (n as real - 1.0) * (p.gap * zoom);
    }
  }

  /** The row is centred: its right edge is as far right of the centre as
      its left edge is left of it. */
  lemma RowIsCentred(n: nat, centerX: real, centerY: real, objectRadius: real, zoom: real)
    requires zoom > 0.0
    ensures var p := Placement(n, centerX, centerY, objectRadius, zoom);
            (p.startX + p.totalWidth) - centerX == centerX - p.startX
  {
  }
}
