/** The records the canvas works on, with the fields the code actually reads
    (the stored canvas position and the favorited/archived/deleted flags are
    read by the canvas even though the shared type declaration omits them). */
module Domain {

  datatype Option<T> = None | Some(value: T)

  /** `root` is the non-negative square root of `x`: what `Math.sqrt(x)` returns. */
  predicate IsSqrt(root: real, x: real)
  {
    root >= 0.0 && root * root == x
  }

  /** A canvas coordinate pair. */
  datatype Point = Point(x: real, y: real)

  datatype Note = Note(
    id: string,
    title: string,
    content: string,
    bundleId: Option<string>,
    tags: seq<string>,
    pinned: bool,
    favorited: bool,
    archived: bool,
    deleted: bool,
    positionX: Option<real>,
    positionY: Option<real>,
    updatedAtMs: int)

  datatype Bundle = Bundle(
    id: string,
    name: string,
    color: string,
    parentBundleId: Option<string>)

  /** JavaScript truthiness of a nullable string: present and not "". */
  predicate Truthy(s: Option<string>)
  {
    s.Some? && s.value != ""
  }

  /** `s || null`: the empty string collapses to null. */
  function OrNull(s: Option<string>): (r: Option<string>)
    ensures Truthy(s) <==> r.Some?
    ensures r.Some? ==> r == s
  {
    if Truthy(s) then s else None
  }

  /** `notes.find((n) => n.id === id)`. */
  function FindNote(notes: seq<Note>, id: string): (r: Option<Note>)
    ensures r.None? <==> forall i :: 0 <= i < |notes| ==> notes[i].id != id
    ensures r.Some? ==> r.value in notes && r.value.id == id
    ensures r.Some? ==> exists i :: 0 <= i < |notes| && notes[i] == r.value
                                      && forall j :: 0 <= j < i ==> notes[j].id != id
  {
    if notes == [] then None
    else if notes[0].id == id then Some(notes[0])
    else
      var r := FindNote(notes[1..], id);
      assert forall i :: 1 <= i < |notes| ==> notes[i] == notes[1..][i - 1];
      r
  }

  /** `bundles.find((b) => b.id === id)`. */
  function FindBundle(bundles: seq<Bundle>, id: string): (r: Option<Bundle>)
    ensures r.None? <==> forall i :: 0 <= i < |bundles| ==> bundles[i].id != id
    ensures r.Some? ==> exists i :: 0 <= i < |bundles| && bundles[i] == r.value
                                      && forall j :: 0 <= j < i ==> bundles[j].id != id
    ensures r.Some? ==> r.value.id == id
  {
    if bundles == [] then None
    else if bundles[0].id == id then Some(bundles[0])
    else
      var r := FindBundle(bundles[1..], id);
      assert forall i :: 1 <= i < |bundles| ==> bundles[i] == bundles[1..][i - 1];
      r
  }

  /** `new Map(bundles.map((b) => [b.id, b])).get(id)`: the last bundle with that id. */
  function LastBundle(bundles: seq<Bundle>, id: string): (r: Option<Bundle>)
    ensures r.None? <==> forall i :: 0 <= i < |bundles| ==> bundles[i].id != id
    ensures r.Some? ==> r.value.id == id && r.value in bundles
  {
    if bundles == [] then None
    else if bundles[|bundles| - 1].id == id then Some(bundles[|bundles| - 1])
    else
      var r := LastBundle(bundles[..|bundles| - 1], id);
      assert forall i :: 0 <= i < |bundles| - 1 ==> bundles[..|bundles| - 1][i] == bundles[i];
      r
  }

  /** Later bundles with the same id overwrite earlier ones in the map: the
      bundle found is the one at the last index carrying that id. */
  lemma {:induction false} LastBundleIsLast(bundles: seq<Bundle>, id: string, i: nat)
    requires i < |bundles| && bundles[i].id == id
    requires forall j :: i < j < |bundles| ==> bundles[j].id != id
    ensures LastBundle(bundles, id) == Some(bundles[i])
  {
    var n := |bundles| - 1;
    if i < n {
      var init := bundles[..n];
      assert forall j :: i < j < |init| ==> init[j] == bundles[j];
      LastBundleIsLast(init, id, i);
    }
  }


}
