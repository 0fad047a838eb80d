# bundled-notes canvas core, modelled in Dafny

bundled-notes is a React note canvas. Notes are drawn as planets that morph into cards as the camera zooms in. Bundles are drawn as stars and black holes. This project models the logic under the JSX, one Dafny module per source file:

- **CanvasViewport** (the camera): the affine map `screen = canvas * zoom + offset`, and a `Viewport` class holding the state the hook keeps:
  - the viewport triple;
  - the animation flag;
  - the panning flag and its start point;
  - the last pinch distance;
  - the one-slot saved viewport.

  It has one method per event handler, plus `zoomToCard`, `zoomBack` and `resetViewport`.
- **CanvasLayout**: the card-height clamp. The `positions` map is built by a loop with an auto-placement counter. Stored positions are kept; other notes go row-major into a 6-column grid. The bundle regions come from a loop that groups positions per bundle and a min/max accumulator loop for each group.
- **SpaceTheme**: planet radius, the morph ramp, orbital radius, evenly spaced angles, and the 32-bit string hash behind the orbit-duration jitter (a loop over UTF-16 code units with explicit `| 0` wrap-around).
- **BundleHierarchy**: `buildTree` (two loops over a map of child lists) and `getAncestors` (a parent-chain walk). The walk is also described by a fuel-bounded specification function.
- **NoteCanvas**: the drop classification and reposition rounding of `handleDragEnd`, the guards of note click and double-click, and the component's flags as a `CanvasSession` class.
- **Reorder**: the two-`splice` move on an array used by the bundle tree and the note list.
- **CommandPalette**, **SlashMenu**, **Tags**, **NotesFilter**, **ContextMenu**, **KeyboardShortcuts**, **Selection**, **QuickActions**, **InlineRename**, **PlanetView**: the search filter and list navigation, slash-command detection and wrap navigation, tag normalisation, the pinned/unpinned partition, context-menu items, shortcut dispatch, the selection record, the quick-action ring, the rename commit rule, and the planet's presentation arithmetic.
- **Seqs**, **Text**, **Domain**: shared models of JavaScript array and string operations (filter, findIndex, slice, `new Set`, splice; trim, toLowerCase, includes), and the `Note` and `Bundle` records.

`Note` carries the fields the code reads, not only the declared ones: `positionX`, `positionY`, `favorited`, `archived` and `deleted` are read by the canvas but missing from the interface in `src/lib/types/index.ts:28-37`.

Store writes, callbacks and editor commands are returned as values, not performed. Wherever the source reads the DOM, the clock or `Math.sqrt`, the value is passed in as a parameter.

## Model

| member | source | states |
|---|---|---|
| Domain.FindNote | src/components/canvas/NoteCanvas.tsx:70 | `notes.find` by id: none exactly when no note has the id, otherwise a listed note with that id |
| Domain.FindBundle | src/lib/hooks/useBundles.ts:67 | `getBundleById`: none exactly when no bundle has the id, otherwise the first bundle with that id |
| Domain.LastBundle | src/lib/hooks/useBundles.ts:30 | lookup in `new Map(bundles.map(b => [b.id, b]))`: none exactly when no bundle has the id, otherwise a listed bundle with that id |
| Domain.LastBundleIsLast | src/components/canvas/useCanvasLayout.ts:67 | the id map keeps the last bundle with a given id (later entries overwrite earlier ones) |
| Domain.OrNull | src/components/canvas/NoteCanvas.tsx:87 | `x \|\| null` on a string: null exactly for null or empty, otherwise the string itself |
| Seqs.Filter | src/lib/hooks/useNotes.ts:29 | `filter`: exactly the elements passing the test, never longer than the input |
| Seqs.FilterIsSubsequence | src/lib/hooks/useNotes.ts:29 | filtering keeps the input order |
| Seqs.FilterPartition | src/lib/hooks/useNotes.ts:32-40 | filtering by a test and by its negation splits the list: lengths add up and the multisets add up |
| Seqs.FilterCongruent | src/components/canvas/CommandPalette.tsx:37-47 | two tests that agree on every element keep the same list |
| Seqs.Take | src/components/canvas/CommandPalette.tsx:37 | `slice(0, n)`: a prefix of length `min(n, length)` |
| Seqs.FindIndex | src/components/bundles/SortableBundleTree.tsx:120-121 | `findIndex`: -1 exactly when nothing matches, otherwise the first matching index |
| Seqs.Dedup | src/components/notes/TagInput.tsx:29 | `[...new Set(s)]`: the same values, no duplicates |
| Seqs.DedupKeepsFirstOccurrenceOrder | src/components/notes/TagInput.tsx:29 | the kept values appear in the order of their first occurrence |
| Seqs.DedupOfNoDuplicates | src/components/notes/TagInput.tsx:29 | a list with no duplicates comes back unchanged |
| Seqs.FirstIndex | src/components/notes/SortableNoteList.tsx:101-102 | the index of the first occurrence of a listed value |
| Seqs.RemoveAt | src/components/bundles/SortableBundleTree.tsx:125 | `splice(i, 1)`: one shorter, entries after `i` shifted down |
| Seqs.Moved | src/components/bundles/SortableBundleTree.tsx:124-126 | the `splice` pair: same length, with the moved element at the target index |
| Seqs.MovedProperties | src/components/bundles/SortableBundleTree.tsx:124-126 | a move is a permutation, puts the moved element at the target index, and leaves the others in their relative order |
| Seqs.MovedElements | src/components/bundles/SortableBundleTree.tsx:124-126 | element by element, the entries between the two indices shift one place toward the source index |
| Text.ToLower | src/components/canvas/CommandPalette.tsx:38 | `toLowerCase`: same length, each character mapped to lower case |
| Text.ToLowerIdempotent | src/components/canvas/CommandPalette.tsx:38 | lower-casing twice is lower-casing once |
| Text.Trim | src/components/canvas/CommandPalette.tsx:38 | `trim`: never longer, with no white space left at either end |
| Text.TrimStart | src/components/canvas/CommandPalette.tsx:38 | drops exactly the leading white space |
| Text.TrimEnd | src/components/canvas/CommandPalette.tsx:38 | drops exactly the trailing white space |
| Text.TrimProperties | src/components/canvas/CommandPalette.tsx:37 | `trim` leaves no white space at either end, is a slice of the input, everything cut off before and after it is white space, and it is empty exactly for all-blank text |
| Text.TrimIdempotent | src/components/notes/TagInput.tsx:27 | trimming twice is trimming once |
| Text.TrimOfLower | src/components/canvas/CommandPalette.tsx:38 | trimming and lower-casing commute |
| Text.Contains | src/components/canvas/CommandPalette.tsx:43-45 | `includes`: true exactly when the query occurs at some position |
| Text.ContainsEmpty | src/components/notes/SlashCommandMenu.tsx:89-93 | every string includes the empty string |
| Text.Tokens | src/components/canvas/Planet.tsx:56 | `split(/\s+/).filter(Boolean)`: non-empty tokens without white space |
| Text.TokensAreMaximalRuns | src/components/canvas/Planet.tsx:56 | there are exactly as many tokens as word starts (a non-space character at the start or after white space), so no run of non-space characters is split |
| Text.TokensCoverText | src/components/canvas/Planet.tsx:56 | the tokens, concatenated, are exactly the non-space characters of the text |
| Text.NatToString | src/components/canvas/Planet.tsx:72-74 | decimal rendering of a count: the digits denote exactly the count, with no leading zero and one digit exactly below 10 |
| SpaceTheme.StripTags | src/components/canvas/spaceTheme.ts:42 | `replace(/<[^>]*>/g, "")`: never longer, only input characters, and no `<` is followed by a `>` |
| SpaceTheme.StripTagsKeepsTagFree | src/components/canvas/spaceTheme.ts:42 | text in which no `<` is followed by a `>` comes back unchanged |
| SpaceTheme.StripTagsRemovesTag | src/components/canvas/spaceTheme.ts:42 | the first complete tag after tag-free text is removed and only it: the text before is kept and stripping continues after it |
| SpaceTheme.ClampedCharCount | src/components/canvas/spaceTheme.ts:43-44 | the stripped length plus the title length, capped at 5000 |
| SpaceTheme.GetPlanetRadius | src/components/canvas/spaceTheme.ts:41-46 | the radius lies in [28, 70] |
| SpaceTheme.PlanetRadiusMonotone | src/components/canvas/spaceTheme.ts:41-46 | more characters never give a smaller planet |
| SpaceTheme.PlanetRadiusCapped | src/components/canvas/spaceTheme.ts:41-46 | at or beyond 5000 characters every planet has the maximum radius 70 |
| SpaceTheme.SqrtMonotone | src/components/canvas/spaceTheme.ts:45 | the square root is monotone |
| SpaceTheme.GetMorphProgress | src/components/canvas/spaceTheme.ts:49-51 | progress lies in [0, 1]; it is 0 at or below zoom 1.2, 1 at or above 1.8, and strictly between in the ramp |
| SpaceTheme.MorphProgressMonotone | src/components/canvas/spaceTheme.ts:49-51 | non-decreasing in zoom, strictly increasing inside the ramp |
| SpaceTheme.ComputeOrbitalRadius | src/components/canvas/spaceTheme.ts:54-60 | 0 for no planets; otherwise the larger of 140 and `(Σ2r + 20n) / 2π` |
| SpaceTheme.SumDiameters | src/components/canvas/spaceTheme.ts:57 | the `reduce` of diameters is non-negative for non-negative radii |
| SpaceTheme.PackedRadius | src/components/canvas/spaceTheme.ts:58 | the circle of this radius has circumference `Σ2r + 20n`: the diameters plus one gap each |
| SpaceTheme.SumDiametersMonotone | src/components/canvas/spaceTheme.ts:57 | the diameter sum grows with each radius |
| SpaceTheme.OrbitalRadiusMonotone | src/components/canvas/spaceTheme.ts:54-60 | growing any planet never shrinks the orbit |
| SpaceTheme.DistributeAngles | src/components/canvas/spaceTheme.ts:63-65 | one angle per item |
| SpaceTheme.DistributeAnglesBounds | src/components/canvas/spaceTheme.ts:63-65 | the first angle is 0 and every angle lies in [0, 2π); with the spacing this fixes the i-th angle at 2πi/n |
| SpaceTheme.DistributeAnglesSpacing | src/components/canvas/spaceTheme.ts:63-65 | consecutive angles are exactly 2π/n apart |
| SpaceTheme.DistributeAnglesIncreasing | src/components/canvas/spaceTheme.ts:63-65 | the angles strictly increase |
| SpaceTheme.ToInt32 | src/components/canvas/spaceTheme.ts:72 | `x \| 0`: the signed 32-bit value congruent to `x` modulo 2^32 |
| SpaceTheme.ToInt32AddMultiple | src/components/canvas/spaceTheme.ts:72 | adding multiples of 2^32 does not change the 32-bit value |
| SpaceTheme.HashStep | src/components/canvas/spaceTheme.ts:72 | one `((hash << 5) - hash + code) \| 0` step yields a signed 32-bit integer |
| SpaceTheme.PolyHash | src/components/canvas/spaceTheme.ts:70-73 | the exact Horner hash `Σ 31^(n-1-i)·code_i` is non-negative over code units |
| SpaceTheme.HashStepAgrees | src/components/canvas/spaceTheme.ts:72 | one wrapped step `((h << 5) - h + c) \| 0` equals the exact step `31h + c`, reduced |
| SpaceTheme.CodeUnits | src/components/canvas/spaceTheme.ts:71-72 | `charCodeAt` walks UTF-16 code units, each in [0, 65536): a Basic Multilingual Plane character is its own unit, any other a surrogate pair that recombines to it |
| SpaceTheme.StringHash | src/components/canvas/spaceTheme.ts:70-73 | the hash is a signed 32-bit integer |
| SpaceTheme.GetOrbitDuration | src/components/canvas/spaceTheme.ts:68-76 | the loop keeps `hash` equal to `Σ 31^(n-1-i)·code_i` reduced to 32 bits; the duration is `base + (\|hash\| % 40 - 20)`, within [base-20, base+19] |
| CanvasViewport.ClampZoom | src/components/canvas/useCanvasViewport.ts:119 | the result lies in [0.15, 10], equals its argument inside that range, and otherwise equals the nearer bound |
| CanvasViewport.ToCanvas | src/components/canvas/useCanvasViewport.ts:34-35 | the canvas point whose image under `canvas * zoom + offset` is the given screen point |
| CanvasViewport.ToScreen | src/components/canvas/useCanvasViewport.ts:34-35 | the screen point whose preimage `(screen - offset) / zoom` is the given canvas point |
| CanvasViewport.ScreenCanvasRoundTrip | src/components/canvas/useCanvasViewport.ts:34-35 | canvas-to-screen and screen-to-canvas are inverse maps |
| CanvasViewport.ScreenToCanvas | src/components/canvas/useCanvasViewport.ts:29-39 | the origin when there is no container; otherwise the canvas point whose screen image is the pointer |
| CanvasViewport.ZoomAround | src/components/canvas/useCanvasViewport.ts:120-126 | the new zoom is applied and the canvas point under the anchor stays under it |
| CanvasViewport.WheelZoom | src/components/canvas/useCanvasViewport.ts:117-127 | zoom stays in bounds, is the clamped step down for positive `deltaY` and the clamped step up otherwise, and the point under the mouse stays put |
| CanvasViewport.WheelDirection | src/components/canvas/useCanvasViewport.ts:118-119 | scrolling down never zooms in and scrolling up never zooms out |
| CanvasViewport.PinchZoomLevel | src/components/canvas/useCanvasViewport.ts:166-178 | with a previous distance the new zoom is `clamp(zoom * dist / lastDist)`, always in bounds; no zoom only for the 0/0 case |
| CanvasViewport.PinchDirection | src/components/canvas/useCanvasViewport.ts:166-178 | spreading fingers never zooms out, pinching never zooms in |
| CanvasViewport.PinchZoom | src/components/canvas/useCanvasViewport.ts:177-185 | the touch midpoint stays fixed |
| CanvasViewport.PanTo | src/components/canvas/useCanvasViewport.ts:94-98 | zoom unchanged and `pointer - offset == panStart` afterwards |
| CanvasViewport.PanKeepsGrabPoint | src/components/canvas/useCanvasViewport.ts:81-98 | the canvas point grabbed at mouse-down stays under the pointer while panning |
| CanvasViewport.FitCard | src/components/canvas/useCanvasViewport.ts:54-56 | zoom is `min(vw/cardW, vh/cardH)` with no clamp; the card centre maps to the viewport centre; the card fits and touches two sides |
| CanvasViewport.Viewport.constructor | src/components/canvas/useCanvasViewport.ts:16-27 | offset (0,0), zoom 1, not animating, not panning, no pinch distance, nothing saved |
| CanvasViewport.Viewport.ZoomToCard | src/components/canvas/useCanvasViewport.ts:42-65 | without a container nothing changes; otherwise the old viewport is saved (overwriting the slot), the card is fitted and the animation flag is set |
| CanvasViewport.Viewport.ZoomBack | src/components/canvas/useCanvasViewport.ts:68-74 | restores exactly the saved viewport and empties the slot; a no-op with an empty slot |
| CanvasViewport.Viewport.ZoomToCardAndBack | src/components/canvas/useCanvasViewport.ts:42-74 | zooming to a card and back returns the camera exactly to where it was |
| CanvasViewport.Viewport.ResetViewport | src/components/canvas/useCanvasViewport.ts:196-200 | offset (0,0), zoom 1 and animating |
| CanvasViewport.Viewport.FinishAnimation | src/components/canvas/useCanvasViewport.ts:62 | the transition timer clears the animation flag and nothing else |
| CanvasViewport.Viewport.MouseDown | src/components/canvas/useCanvasViewport.ts:76-89 | when not animating, a middle click, or a left click on the background, starts a pan with `panStart = pointer - offset`; otherwise no change |
| CanvasViewport.Viewport.MouseMove | src/components/canvas/useCanvasViewport.ts:91-101 | pans only while panning and not animating |
| CanvasViewport.Viewport.MouseUp | src/components/canvas/useCanvasViewport.ts:103-105 | stops panning and changes nothing else |
| CanvasViewport.Viewport.Wheel | src/components/canvas/useCanvasViewport.ts:107-130 | a no-op while animating or with no container; otherwise the wheel zoom anchored at the container-relative pointer |
| CanvasViewport.Viewport.TouchStart | src/components/canvas/useCanvasViewport.ts:132-151 | a no-op while animating; one touch on the background starts a pan; two touches stop panning and record the distance |
| CanvasViewport.Viewport.TouchMove | src/components/canvas/useCanvasViewport.ts:153-189 | a no-op while animating; one touch pans while panning; two touches with a recorded distance store the new distance and pinch-zoom about the midpoint when there is a container |
| CanvasViewport.Viewport.TouchEnd | src/components/canvas/useCanvasViewport.ts:191-194 | stops panning and forgets the pinch distance |
| CanvasLayout.Round | src/components/canvas/useCanvasLayout.ts:31 | `Math.round`: the integer within half a unit, halves rounding up |
| CanvasLayout.CardHeight | src/components/canvas/useCanvasLayout.ts:30-32 | the height lies in [160, 500] and is the rounded `280 * innerHeight / innerWidth` whenever that is in range |
| CanvasLayout.GridCell | src/components/canvas/useCanvasLayout.ts:51-56 | grid cell `k` lies in one of the six columns, at or right of 0 and at or below 0 |
| CanvasLayout.Placement | src/components/canvas/useCanvasLayout.ts:48-56 | a note with both coordinates stored is placed there; otherwise in a cell of the six-column grid |
| CanvasLayout.Positions | src/components/canvas/useCanvasLayout.ts:47-59 | the map the loop specifies has an entry for every note |
| CanvasLayout.AutoCount | src/components/canvas/useCanvasLayout.ts:45-57 | the number of auto-placed notes, at most the number of notes |
| CanvasLayout.ComputePositions | src/components/canvas/useCanvasLayout.ts:43-62 | the loop builds exactly the position map of its specification |
| CanvasLayout.PositionsKeys | src/components/canvas/useCanvasLayout.ts:47-59 | every note has a position, and only note ids do |
| CanvasLayout.PositionsLastWins | src/components/canvas/useCanvasLayout.ts:47-59 | a note's entry is its own placement when no later note has its id; the grid index counts only the auto-placed notes before it |
| CanvasLayout.StoredPositionKept | src/components/canvas/useCanvasLayout.ts:48-49 | a note with both coordinates stored keeps exactly that position |
| CanvasLayout.AutoCountStep | src/components/canvas/useCanvasLayout.ts:47-58 | a pinned note does not advance the counter and an auto-placed one advances it by one |
| CanvasLayout.AutoCountMonotone | src/components/canvas/useCanvasLayout.ts:45-57 | the counter never goes back |
| CanvasLayout.GridCellsDistinct | src/components/canvas/useCanvasLayout.ts:50-56 | distinct grid indices give distinct cells |
| CanvasLayout.AutoPlacedDistinct | src/components/canvas/useCanvasLayout.ts:50-57 | two auto-placed notes never share a grid cell |
| CanvasLayout.GroupKeys | src/components/canvas/useCanvasLayout.ts:69-76 | the group keys are the bundle ids of notes that have a bundle and a position, without duplicates |
| CanvasLayout.GroupOfMembers | src/components/canvas/useCanvasLayout.ts:74-75 | every such note's position is in its bundle's group |
| CanvasLayout.GroupOfKeyNonEmpty | src/components/canvas/useCanvasLayout.ts:74-80 | every created group is non-empty |
| CanvasLayout.GroupOfOutsideKeys | src/components/canvas/useCanvasLayout.ts:71-74 | an id that is not a key has no members |
| CanvasLayout.BuildGroups | src/components/canvas/useCanvasLayout.ts:69-76 | the loop builds a map whose keys, in insertion order, are the group keys and whose lists are the groups |
| CanvasLayout.LeastIsMinimum | src/components/canvas/useCanvasLayout.ts:86-87 | the `Math.min` fold is a member of the list and no larger than any element |
| CanvasLayout.GreatestIsMaximum | src/components/canvas/useCanvasLayout.ts:88-89 | the `Math.max` fold is a member of the list and no smaller than any element |
| CanvasLayout.BoundingBox | src/components/canvas/useCanvasLayout.ts:82-90 | the accumulator loop computes the minimum left and top edges and the maximum right and bottom edges |
| CanvasLayout.RegionOf | src/components/canvas/useCanvasLayout.ts:82-98 | a region for the given bundle, at least one padded card wide and high |
| CanvasLayout.RegionFor | src/components/canvas/useCanvasLayout.ts:82-98 | the region pushed for one bundle is its specification `RegionOf` |
| CanvasLayout.RegionContainsMembers | src/components/canvas/useCanvasLayout.ts:92-98 | every member card lies inside the region with 20 of padding left, right and below and 48 above, and each margin is tight for some card |
| CanvasLayout.Regions | src/components/canvas/useCanvasLayout.ts:78-99 | at most one region per group key |
| CanvasLayout.BundleRegions | src/components/canvas/useCanvasLayout.ts:65-102 | the two passes produce exactly the region list of the specification |
| CanvasLayout.RegionsAreForKeys | src/components/canvas/useCanvasLayout.ts:78-80 | each region belongs to a group key and carries the bundle the id map finds for it |
| CanvasLayout.RegionsComplete | src/components/canvas/useCanvasLayout.ts:78-80 | every group key that names a bundle gets a region |
| CanvasLayout.RegionsDistinct | src/components/canvas/useCanvasLayout.ts:78-99 | at most one region per bundle |
| CanvasLayout.RegionsEncloseMembers | src/components/canvas/useCanvasLayout.ts:69-98 | each region encloses the padded card of every positioned note in its bundle |
| CanvasLayout.LayoutRegions | src/components/canvas/useCanvasLayout.ts:71-80 | every region is for a non-empty bundle id that some note carries and that names a listed bundle; no two regions share a bundle |
| BundleHierarchy.Ids | src/lib/hooks/useBundles.ts:12-14 | the bundle ids, in order |
| BundleHierarchy.RootIds | src/lib/hooks/useBundles.ts:18-22 | the roots are the bundles without an attached parent |
| BundleHierarchy.ChildIds | src/lib/hooks/useBundles.ts:18-19 | a bundle's children are the bundles attached to it |
| BundleHierarchy.BuildTree | src/lib/hooks/useBundles.ts:8-26 | the two loops build exactly the root list and one child list per bundle id |
| BundleHierarchy.RootIffNoKnownParent | src/lib/hooks/useBundles.ts:18-22 | with unique ids, a bundle is a root exactly when its parent id is null, empty or names no listed bundle |
| BundleHierarchy.PlacedExactlyOnce | src/lib/hooks/useBundles.ts:12-23 | with unique ids, roots plus all children lists hold exactly as many entries as there are bundles |
| BundleHierarchy.IdCountUnique | src/lib/hooks/useBundles.ts:13 | with unique ids, each listed id occurs once |
| BundleHierarchy.ListsKeepInputOrder | src/lib/hooks/useBundles.ts:16-23 | roots and each children list keep the input order |
| BundleHierarchy.Walk | src/lib/hooks/useBundles.ts:31-38 | an ended walk from a bundle without a parent is empty, and otherwise ends with the direct parent |
| BundleHierarchy.WalkSteps | src/lib/hooks/useBundles.ts:33-36 | in the ancestor list each element is the parent of the next |
| BundleHierarchy.WalkFromAncestor | src/lib/hooks/useBundles.ts:35 | the part of the list before an ancestor is that ancestor's own ancestor list, so the list runs root-first |
| BundleHierarchy.ExcludesItself | src/lib/hooks/useBundles.ts:31-38 | a bundle is never among its own ancestors |
| BundleHierarchy.SelfParentNeverEnds | src/lib/hooks/useBundles.ts:32-37 | a self-parented bundle's walk ends under no bound: the loop does not terminate |
| BundleHierarchy.WalkFuelMonotone | src/lib/hooks/useBundles.ts:32-37 | more steps never change an ended walk |
| BundleHierarchy.WalkLength | src/lib/hooks/useBundles.ts:32-37 | a walk ended within `n` steps lists at most `n` ancestors |
| BundleHierarchy.GetAncestors | src/lib/hooks/useBundles.ts:28-39 | an unknown id gives []; otherwise the loop returns exactly the ended walk from that bundle |
| NoteCanvas.DropActionFor | src/components/canvas/NoteCanvas.tsx:63-101 | no action without a user or for an unknown note; otherwise favorite, archive, trash, then bundle zone take precedence; a reposition happens exactly off every zone for a note with a position, and is rounded to `pos + delta / zoom` |
| NoteCanvas.IsBundleZone | src/components/canvas/NoteCanvas.tsx:86 | an id with the `bundle-zone-` prefix is none of the three action zones |
| NoteCanvas.ZonesAreExclusive | src/components/canvas/NoteCanvas.tsx:74-86 | the zone ids differ and none looks like a bundle zone, so at most one zone rule can match |
| NoteCanvas.RepositionIsNearest | src/components/canvas/NoteCanvas.tsx:93-97 | the written position lies within half a unit of the dragged position |
| NoteCanvas.StillDropKeepsPosition | src/components/canvas/NoteCanvas.tsx:93-97 | a zero-delta drop of a note at a whole-number position writes the same position back |
| NoteCanvas.FavoriteDropTwiceRestores | src/components/canvas/NoteCanvas.tsx:74-76 | two favorite drops in a row restore the original flag |
| NoteCanvas.NoteClickTarget | src/components/canvas/NoteCanvas.tsx:104-120 | a click acts exactly when not editing, not animating and the note has a position |
| NoteCanvas.DoubleClickCreate | src/components/canvas/NoteCanvas.tsx:133-163 | creates exactly on the background, outside edit mode, when signed in, at the rounded canvas point under the pointer |
| NoteCanvas.CreatedUnderPointer | src/components/canvas/NoteCanvas.tsx:141-160 | the created note lies within half a unit of the canvas point whose screen image is the click |
| NoteCanvas.CanvasSession.constructor | src/components/canvas/NoteCanvas.tsx:36-40 | active view, no note being edited, and every flag off |
| NoteCanvas.CanvasSession.DragStart | src/components/canvas/NoteCanvas.tsx:59-61 | sets the dragging flag only |
| NoteCanvas.CanvasSession.DragEnd | src/components/canvas/NoteCanvas.tsx:63-101 | clears the dragging flag whatever happens and returns the drop's action |
| NoteCanvas.CanvasSession.NoteClick | src/components/canvas/NoteCanvas.tsx:104-120 | an ignored click changes nothing; otherwise it marks the note and zooms the camera onto its card, and without a container the camera is left alone |
| NoteCanvas.CanvasSession.ZoomInFinished | src/components/canvas/NoteCanvas.tsx:115-117 | the timer enters edit mode |
| NoteCanvas.CanvasSession.CloseEditor | src/components/canvas/NoteCanvas.tsx:123-131 | leaves edit mode and restores the saved camera |
| NoteCanvas.CanvasSession.ZoomOutFinished | src/components/canvas/NoteCanvas.tsx:128-130 | the timer clears the edited note |
| NoteCanvas.CanvasSession.ViewChange | src/components/canvas/NoteCanvas.tsx:165-169 | switches the view, clears the edited note and leaves edit mode |
| NoteCanvas.CanvasSession.KeyDown | src/components/canvas/NoteCanvas.tsx:172-181 | Ctrl/Cmd+K toggles the search palette; other keys change nothing |
| NoteCanvas.ClickThenClose | src/components/canvas/NoteCanvas.tsx:104-131 | click, zoom in, close and zoom out leave the camera exactly where it was, with nothing saved and no note edited |
| Reorder.MoveInPlace | src/components/bundles/SortableBundleTree.tsx:124-126 | the double `splice` on an array yields the specified move |
| Reorder.ShiftDown | src/components/bundles/SortableBundleTree.tsx:125-126 | moving toward the end shifts the entries in between down by one |
| Reorder.ShiftUp | src/components/bundles/SortableBundleTree.tsx:125-126 | moving toward the start shifts the entries in between up by one |
| Reorder.IndexOfId | src/components/bundles/SortableBundleTree.tsx:120-121 | -1 exactly for an unlisted id, otherwise its first index |
| Reorder.ReorderIds | src/components/bundles/SortableBundleTree.tsx:115-128 | no reorder with no target, onto itself, or with an unlisted id; otherwise exactly the dragged id moved to the target's index |
| Reorder.ReorderProperties | src/components/bundles/SortableBundleTree.tsx:124-127 | the reordered ids are a permutation, the dragged id lands at the target's index, and the other ids keep their relative order |
| Reorder.NoteListDragEnd | src/components/notes/SortableNoteList.tsx:88-109 | the note list reorders pinned then unpinned as one list, with the same no-op cases |
| Reorder.DragAcrossPinnedBoundary | src/components/notes/SortableNoteList.tsx:88-107 | a pinned note can be dragged past every unpinned one, to the very end |
| CommandPalette.SearchKey | src/components/canvas/CommandPalette.tsx:38 | the key is lower case with no white space at either end |
| CommandPalette.Matches | src/components/canvas/CommandPalette.tsx:41-45 | only live notes match, and the empty key matches every live note |
| CommandPalette.Results | src/components/canvas/CommandPalette.tsx:36-48 | at most 10 results, all live notes from the input; for a non-blank query each matches the search key |
| CommandPalette.ResultsAreFirstMatches | src/components/canvas/CommandPalette.tsx:37-47 | both branches are one rule: the first ten live notes matching the search key (the blank query has the empty key) |
| CommandPalette.BlankKey | src/components/canvas/CommandPalette.tsx:37-38 | a query is blank exactly when its lower-cased, trimmed key is empty |
| CommandPalette.ResultsComplete | src/components/canvas/CommandPalette.tsx:39-47 | with ten or fewer matches, a note is listed exactly when it matches |
| CommandPalette.ResultsKeepOrder | src/components/canvas/CommandPalette.tsx:39-47 | results keep the input order |
| CommandPalette.ResultsIgnoreCase | src/components/canvas/CommandPalette.tsx:38 | the query's case does not matter |
| CommandPalette.NavDown | src/components/canvas/CommandPalette.tsx:62 | ArrowDown is `min(i+1, len-1)`: -1 with no results, and stays in range from a row in range |
| CommandPalette.NavUp | src/components/canvas/CommandPalette.tsx:65 | ArrowUp is `max(i-1, 0)`: never negative |
| CommandPalette.NavRoundTrip | src/components/canvas/CommandPalette.tsx:62-65 | away from the ends, down then up (and up then down) returns to the row |
| CommandPalette.NavStopsAtEnds | src/components/canvas/CommandPalette.tsx:62-65 | the last row stays put on ArrowDown and the first on ArrowUp |
| CommandPalette.Palette.constructor | src/components/canvas/CommandPalette.tsx:32-33 | empty query, first row |
| CommandPalette.Palette.Opened | src/components/canvas/CommandPalette.tsx:50-56 | opening resets the query and the row |
| CommandPalette.Palette.QueryChanged | src/components/canvas/CommandPalette.tsx:139-142 | editing the query resets the row to 0 |
| CommandPalette.Palette.KeyDown | src/components/canvas/CommandPalette.tsx:58-74 | the arrows move the row; Enter picks only an existing row and closes; Escape closes; a picked note is a live listed note |
| CommandPalette.ShortcutCloses | src/components/canvas/CommandPalette.tsx:77-87 | Ctrl/Cmd+K closes the palette exactly when it is open |
| SlashMenu.Filtered | src/components/notes/SlashCommandMenu.tsx:89-93 | exactly the commands whose lower-cased label or description contains the lower-cased query |
| SlashMenu.FilteredKeepsOrder | src/components/notes/SlashCommandMenu.tsx:89-93 | menu order is kept |
| SlashMenu.EmptyQueryKeepsAll | src/components/notes/SlashCommandMenu.tsx:89-93 | an empty query keeps all nine commands |
| SlashMenu.FilteredAtMostAll | src/components/notes/SlashCommandMenu.tsx:89-93 | no query keeps more than the empty one |
| SlashMenu.FilteredIgnoresCase | src/components/notes/SlashCommandMenu.tsx:91-92 | the query's case does not matter |
| SlashMenu.JsRem | src/components/notes/SlashCommandMenu.tsx:101-104 | JavaScript `%`: the remainder takes the dividend's sign |
| SlashMenu.WrapDown | src/components/notes/SlashCommandMenu.tsx:101 | NaN on an empty list; otherwise the next row, the last wrapping to 0 |
| SlashMenu.WrapUp | src/components/notes/SlashCommandMenu.tsx:104 | NaN on an empty list; otherwise the previous row, 0 wrapping to the last |
| SlashMenu.WrapRoundTrip | src/components/notes/SlashCommandMenu.tsx:101-104 | on a non-empty list, down then up and up then down return to the row, across the wrap too |
| SlashMenu.SlashQuery | src/components/notes/SlashCommandMenu.tsx:139 | a match is the suffix after a `/` made only of letters, digits and spaces |
| SlashMenu.SlashQueryIff | src/components/notes/SlashCommandMenu.tsx:139 | for a slash at `k`: only query characters follow it exactly when the match is everything after `k` |
| SlashMenu.SlashQueryExists | src/components/notes/SlashCommandMenu.tsx:139-143 | the menu opens exactly when some slash is followed only by letters, digits and spaces up to the cursor |
| SlashMenu.TextBefore | src/components/notes/SlashCommandMenu.tsx:132-136 | at most the 50 characters before the cursor, ending at the cursor |
| SlashMenu.SlashRange | src/components/notes/SlashCommandMenu.tsx:109-111 | the deleted range ends at the cursor and spans the query plus one character for the slash |
| SlashMenu.SlashRangeIsTrigger | src/components/notes/SlashCommandMenu.tsx:109-113 | the deleted range `[from - \|query\| - 1, from)` is exactly the slash and the query |
| SlashMenu.Menu.constructor | src/components/notes/SlashCommandMenu.tsx:83-85 | closed, empty query, row 0 |
| SlashMenu.Menu.Update | src/components/notes/SlashCommandMenu.tsx:129-156 | a match opens the menu with that query at row 0; otherwise it closes and clears the query |
| SlashMenu.Menu.KeyDown | src/components/notes/SlashCommandMenu.tsx:95-121 | a no-op while closed; the arrows wrap; Enter runs an existing row's command after deleting the slash range, then closes; Escape closes; while open the four menu keys are kept from the editor (`preventDefault`), even with an empty list |
| SlashMenu.Menu.Click | src/components/notes/SlashCommandMenu.tsx:188-194 | runs the clicked command after deleting the slash range, then closes |
| Tags.CleanAll | src/components/notes/TagInput.tsx:26-27 | each value trimmed and lower-cased |
| Tags.NormalizeTags | src/components/notes/TagInput.tsx:26-29 | no duplicates; a tag is in the output exactly when it is the non-empty cleaned form of some input |
| Tags.CleanIdempotent | src/components/notes/TagInput.tsx:27 | cleaning twice is cleaning once |
| Tags.NormalizedTagsAreNormal | src/components/notes/TagInput.tsx:26-28 | every tag is non-empty, trimmed and lower-case |
| Tags.NormalizeKeepsFirstOccurrenceOrder | src/components/notes/TagInput.tsx:29 | tags keep the order of their first cleaned occurrence |
| Tags.NormalizeIdempotent | src/components/notes/TagInput.tsx:26-29 | normalising a normalised list returns it unchanged |
| Tags.Options | src/components/notes/TagInput.tsx:21 | the suggestions are exactly the known tags not yet selected |
| Tags.OptionsKeepOrder | src/components/notes/TagInput.tsx:21 | suggestions keep the known-tag order |
| Tags.ToggleFilter | src/components/notes/TagInput.tsx:81 | clicking the active tag clears the filter (both directions); any other click selects that tag |
| Tags.ToggleTwice | src/components/notes/TagInput.tsx:81 | two clicks on the same chip restore the filter on that chip, or clear it otherwise |
| Tags.FilterBarVisible | src/components/notes/TagInput.tsx:69 | the bar renders exactly when there are tags |
| NotesFilter.FilteredNotes | src/lib/hooks/useNotes.ts:27-30 | a null or empty bundle id keeps every note; otherwise exactly the notes in that bundle |
| NotesFilter.PinnedNotes | src/lib/hooks/useNotes.ts:32-35 | exactly the pinned filtered notes |
| NotesFilter.UnpinnedNotes | src/lib/hooks/useNotes.ts:37-40 | exactly the unpinned filtered notes |
| NotesFilter.PinnedUnpinnedPartition | src/lib/hooks/useNotes.ts:32-40 | the two lists split the filtered list: lengths and multisets add up, and no note is in both |
| NotesFilter.ListsKeepOrder | src/lib/hooks/useNotes.ts:27-40 | all three lists keep the input order |
| ContextMenu.TargetTypeOf | src/components/canvas/useContextMenu.ts:75-79 | the nearest tagged ancestor's type, or `canvas` with none or an empty attribute |
| ContextMenu.TargetIdOf | src/components/canvas/useContextMenu.ts:80 | the tagged ancestor's non-empty id, or null |
| ContextMenu.CanvasItems | src/components/canvas/useContextMenu.ts:98-120 | `[new-planet, new-star, reset-view]`; the first creates a note at the clicked canvas point; nothing destructive |
| ContextMenu.PlanetItems | src/components/canvas/useContextMenu.ts:122-158 | `[edit, favorite, pin, archive, delete]`, all acting on the note; only the last is destructive |
| ContextMenu.StarItems | src/components/canvas/useContextMenu.ts:161-200 | `[rename, recolor, add-planet]`, then `unparent` exactly when there is a parent, then `delete` last; all act on the bundle |
| ContextMenu.BlackHoleItems | src/components/canvas/useContextMenu.ts:203-233 | `[rename, recolor, add-star, delete]`; only the last is destructive |
| ContextMenu.Items | src/components/canvas/useContextMenu.ts:95-237 | the menu per target type; an unknown note or bundle, a non-canvas target with no id, or an unknown type gives [] |
| ContextMenu.ItemsActOnTarget | src/components/canvas/useContextMenu.ts:122-233 | every object-menu item acts on the clicked id (or creates a bundle), and only the final delete is destructive |
| ContextMenu.ItemIdsDistinct | src/components/canvas/useContextMenu.ts:98-233 | item ids are unique within a menu |
| ContextMenu.PlanetLabelsFlip | src/components/canvas/useContextMenu.ts:134-140 | "Unfavorite" exactly for a favorited note, "Unpin" exactly for a pinned one |
| ContextMenu.Menu.constructor | src/components/canvas/useContextMenu.ts:17-23 | the initial state: closed, at the origin, target `canvas`, no id |
| ContextMenu.Menu.Close | src/components/canvas/useContextMenu.ts:67-69 | back to the initial state |
| ContextMenu.Menu.HandleContextMenu | src/components/canvas/useContextMenu.ts:71-93 | opens, recording the pointer, its canvas image and the classified target |
| ContextMenu.BackgroundClickMenu | src/components/canvas/useContextMenu.ts:75-104 | a right-click on bare canvas offers the canvas menu, whose first item creates a note exactly under the pointer |
| KeyboardShortcuts.Dispatch | src/components/canvas/useKeyboardShortcuts.ts:28-81 | nothing in edit mode or while typing; each shortcut fires exactly under its own rule: Ctrl/Cmd+K, Ctrl/Cmd+N without Shift, Ctrl/Cmd+Shift+N, Delete/Backspace with a selection, F2 on a selected star or black hole, Escape |
| KeyboardShortcuts.SearchShortcutWins | src/components/canvas/useKeyboardShortcuts.ts:43-47 | Ctrl/Cmd+K toggles search whatever the Shift key and the selection |
| KeyboardShortcuts.OtherKeysIgnored | src/components/canvas/useKeyboardShortcuts.ts:43-80 | keys no rule names do nothing |
| Selection.SelectionState.constructor | src/components/canvas/useSelectionState.ts:14-18 | no selection and the ring hidden; the invariant holds |
| Selection.SelectionState.Select | src/components/canvas/useSelectionState.ts:20-22 | exactly the given id and type, ring shown |
| Selection.SelectionState.Deselect | src/components/canvas/useSelectionState.ts:24-26 | no selection, ring hidden |
| Selection.SelectThenDeselect | src/components/canvas/useSelectionState.ts:20-26 | after two selects exactly the second id and type are held; deselect then returns to the initial state |
| QuickActions.Actions | src/components/canvas/QuickActionRing.tsx:59-109 | `[edit, favorite, more]` for a planet with its note, `[rename, recolor, more]` for a star or black hole with its bundle, otherwise []; "Unfavorite" exactly for a favorited note |
| QuickActions.RingRendered | src/components/canvas/QuickActionRing.tsx:111 | renders only when visible and with some action |
| QuickActions.Placement | src/components/canvas/QuickActionRing.tsx:114-118 | on screen the buttons are 32 wide with gaps of 4; the row is centred on `centerX`; it sits 20 screen pixels below the object's edge |
| QuickActions.ScreenWidthIsConstant | src/components/canvas/QuickActionRing.tsx:114-116 | the row's screen width does not depend on zoom |
| QuickActions.RowIsCentred | src/components/canvas/QuickActionRing.tsx:116-117 | the row extends equally on both sides of the centre |
| InlineRename.CommitDecision | src/components/canvas/InlineRenameField.tsx:31-38 | commits exactly when the trimmed text is non-empty and differs from the current name, and then commits the trimmed text |
| InlineRename.CommittedNameIsClean | src/components/canvas/InlineRenameField.tsx:32-34 | a committed name is non-empty, new and trimmed |
| InlineRename.RecommitCancels | src/components/canvas/InlineRenameField.tsx:33 | committing the same text against the new name cancels |
| InlineRename.PaddingIgnored | src/components/canvas/InlineRenameField.tsx:32 | surrounding white space never changes the decision |
| InlineRename.RenameField.constructor | src/components/canvas/InlineRenameField.tsx:19 | the buffer starts as the current name |
| InlineRename.RenameField.Change | src/components/canvas/InlineRenameField.tsx:44 | typing replaces the buffer |
| InlineRename.RenameField.KeyDown | src/components/canvas/InlineRenameField.tsx:45-55 | Enter runs the commit rule, Escape cancels, other keys do nothing |
| InlineRename.RenameField.Blur | src/components/canvas/InlineRenameField.tsx:56 | leaving the field runs the commit rule |
| InlineRename.OpenAndLeave | src/components/canvas/InlineRenameField.tsx:19-56 | leaving without typing cancels, unless the name has surrounding white space, which is then committed trimmed |
| PlanetView.Lerp | src/components/canvas/Planet.tsx:23-25 | equals `a` at 0 and `b` at 1, and stays between them for `t` in [0, 1] |
| PlanetView.PlanetShape | src/components/canvas/Planet.tsx:48-51 | the circle of diameter `2r` and corner `r` at morph 0, the card with corner 24 at morph 1 |
| PlanetView.ShapeAtEnds | src/components/canvas/Planet.tsx:44-51 | at zoom ≤ 1.2 a circle of diameter `2r` and corner `r`; at zoom ≥ 1.8 the card size with corner 24 |
| PlanetView.ShapeBetween | src/components/canvas/Planet.tsx:48-51 | in between, width and height lie between the circle and the card |
| PlanetView.Initial | src/components/canvas/Planet.tsx:60 | one character: "?" for an empty title, otherwise the first character upper-cased |
| PlanetView.PlainText | src/components/canvas/Planet.tsx:54 | no markdown markers remain |
| PlanetView.Preview | src/components/canvas/Planet.tsx:55 | the first 100 characters of the plain text |
| PlanetView.WordCount | src/components/canvas/Planet.tsx:56 | the number of word starts: one per maximal run of non-space characters |
| PlanetView.WordCountZero | src/components/canvas/Planet.tsx:56 | zero words exactly for all-blank text |
| PlanetView.WordsCoverText | src/components/canvas/Planet.tsx:56 | the words account for every non-space character |
| PlanetView.DiffMinutes | src/components/canvas/Planet.tsx:68-69 | `floor(diffMs / 60000)`: the elapsed time lies within that whole minute |
| PlanetView.Bucket | src/components/canvas/Planet.tsx:70-74 | "just now" exactly below 1 minute, minutes below 60, hours below 1440, days otherwise |
| PlanetView.BucketBrackets | src/components/canvas/Planet.tsx:72-74 | each shown count is non-zero and is the floor of minutes, hours or days |
| PlanetView.BucketMonotone | src/components/canvas/Planet.tsx:70-74 | older notes never get a finer unit |
| PlanetView.RenderRelative | src/components/canvas/Planet.tsx:70-74 | "just now" exactly for the first bucket; otherwise the decimal digits of the count (which denote it) followed by "m ago", "h ago" or "d ago" |
| PlanetView.RelativeTimeText | src/components/canvas/Planet.tsx:67-74 | "just now" exactly when less than 60000 ms have passed; otherwise `m` whole minutes read "{m}m ago" below 60, "{⌊m/60⌋}h ago" below 1440 and "{⌊m/1440⌋}d ago" beyond |
| PlanetView.TooltipTitle | src/components/canvas/Planet.tsx:76-78 | empty at morph ≥ 0.5; otherwise it starts with the title, or "Untitled" |
| PlanetView.NoTooltipWhenZoomedIn | src/components/canvas/Planet.tsx:76-78 | fully zoomed in (zoom ≥ 1.8) no tooltip shows |

## Left out

- Firebase reads and writes, authentication and subscriptions are not modelled. Store writes are returned as `DropAction`, `MenuAction` and similar values.
- Timers are not modelled as time. Each `setTimeout` callback is an explicit method (`FinishAnimation`, `ZoomInFinished`, `ZoomOutFinished`), and the 100 ms input-focus delay is dropped.
- DOM inputs are parameters:
  - the container's bounding rectangle and client size (`Option<Container>`);
  - `e.target === e.currentTarget` (`onBackground`);
  - the nearest `data-context-target` ancestor;
  - the event's tag name and content-editable flag;
  - the current time in milliseconds;
  - the editor's cursor position and document text.
- Floating point is modelled as exact `real` arithmetic; rounding error, `Infinity` and `NaN` are not modelled. `Math.PI` is the constant 3.141592653589793.
- `Math.sqrt` is not computed. The root is passed in with an `IsSqrt` precondition, both for the pinch distance and for the planet radius.
- Rendering, styling, colours, shadows, icons, animation durations and the `isMobile` checks are not modelled.
- The orbital star and black-hole scene building is not part of this model. `BlackHoleLayout`, which BlackHole.tsx uses, is not defined in `useCanvasLayout.ts`.
- Tiptap editor commands are not modelled. A slash command's action is a `CommandAction` value, and ProseMirror positions are indices into the document text.
- Text.ToLower and Text.UpperChar map ASCII letters only. JavaScript's full Unicode case mapping is not modelled; the white-space set is ECMAScript's.
- String lengths count characters rather than UTF-16 code units in the radius, preview and initial computations. Only the orbit hash walks UTF-16 code units.
- CanvasLayout.CardHeight requires a positive window width; a zero width would divide by zero in the source.
- CanvasLayout.ComputePositions: a note whose `positionX` is present and `positionY` missing (or the reverse) is auto-placed. The declared `Note` type also allows `undefined` coordinates. The source's `!== null` test passes for those, so it stores the note at (undefined, undefined); the model has no such value and auto-places the note as it does for `null`.
- CanvasViewport.Viewport.ZoomToCard and NoteCanvas.CanvasSession.NoteClick require a container of positive width and height. With a zero-size container the source sets the zoom to 0, and every later screen-to-canvas conversion divides by it; the model keeps the zoom positive instead.
- CanvasViewport.PinchZoomLevel: when both the recorded and the new finger distance are 0, the source computes `0/0 = NaN` and the zoom becomes NaN. The model leaves the viewport unchanged instead.
- CanvasViewport.PinchZoomLevel: a recorded distance of 0 with a positive new distance gives `Infinity` in the source; the model treats that as the maximum zoom, which is what the clamp yields.
- BundleHierarchy.GetAncestors requires that the parent walk ends (`WalkEnds`). On a cycle the source loops forever; `SelfParentNeverEnds` shows that case.
- BundleHierarchy: `buildTree` is modelled over ids, as root ids and one child-id list per bundle, not as nested node objects. The node objects share structure through the map, which the id lists describe.
- BundleHierarchy.PlacedExactlyOnce and BundleHierarchy.RootIffNoKnownParent assume unique bundle ids. With repeated ids the source's map keeps the last node, so counts differ.
- NoteCanvas.CanvasSession: `handleCreateNote`'s store call and the 600 ms wait for the new note are not modelled. `DoubleClickCreate` returns the rounded position the creation would store.
- NoteCanvas: the canvas passes `{ view: activeView }` to `useNotes`, whose parameter is a bundle id. This mismatch is not modelled; NotesFilter takes the bundle id as `useNotes` declares it.
- NoteCanvas.CanvasSession: a view change during the 450 ms zoom-in leaves `isEditing` set by the later timer with no edited note. The model has this behaviour, but no property about it is stated.
- KeyboardShortcuts.Dispatch returns the action only. It does not report `preventDefault`, which the source calls for every shortcut except Escape.
- CommandPalette.Palette.KeyDown does not report the `preventDefault` on ArrowDown and ArrowUp.
- CommandPalette.ShortcutCloses does not report the `preventDefault` on Ctrl/Cmd+K.
- NoteCanvas.CanvasSession.KeyDown does not report the `preventDefault` on Ctrl/Cmd+K.
- ContextMenu.Menu.HandleContextMenu does not report the `preventDefault` that suppresses the browser's own menu.
- CanvasViewport.Viewport.MouseDown and CanvasViewport.Viewport.Wheel do not report the `preventDefault` that the source calls when a pan starts and on every wheel event while not animating, even when there is no container.
- InlineRename.RenameField.KeyDown does not report the `stopPropagation` on every key or the `preventDefault` on Enter and Escape.
- Reorder works on id sequences. Node objects and dnd-kit's numeric ids are not modelled.
- TagInput's `inputValue` reset, the autocomplete widget and the chip rendering are not modelled.
- The planet's locale date string and `disableHoverListener` while dragging are not modelled.
- PlanetView.TooltipTitle: the function builds the whole tooltip, but its contract states only that the title, or "Untitled", starts it.
- PlanetView.PlainText: the contract states that no marker remains, not that every other character of the tag-stripped text is kept.
