/** Drag-to-reorder in the sidebar lists: the dragged item is taken out at
    its index and put back in at the index of the item it was dropped on. */
module Reorder {
  import opened Domain
  import Seqs

  /** `const [moved] = a.splice(from, 1); a.splice(to, 0, moved)` on an array:
      the entries between the two indices shift one place towards `from`, and
      the moved entry lands at `to`. */
  method MoveInPlace<T>(a: array<T>, from: nat, to: nat)
    requires from < a.Length && to < a.Length
    modifies a
    ensures a[..] == Seqs.Moved(old(a[..]), from, to)
  {
    ghost var s := a[..];
    var moved := a[from];
    if from < to {
      ShiftDown(a, from, to);
    } else {
      ShiftUp(a, to, from);
    }
    a[to] := moved;
    Seqs.MovedElements(s, from, to);
    ghost var r := Seqs.Moved(s, from, to);
    forall k | 0 <= k < a.Length
      ensures a[..][k] == r[k]
    {
      if k == to {
      } else if from <= k < to {
        assert a[k] == s[k + 1];
      } else if to < k <= from {
        assert a[k] == s[k - 1];
      } else {
        assert a[k] == s[k];
      }
    }
    assert a[..] == r;
  }

  /** Entries `lo + 1 .. hi` move down one place; `a[hi]` keeps its value. */
  method ShiftDown<T>(a: array<T>, lo: nat, hi: nat)
    requires lo <= hi < a.Length
    modifies a
    ensures forall k :: 0 <= k < a.Length ==> a[k] == if lo <= k < hi then old(a[k + 1]) else old(a[k])
  {
    var i := lo;
    while i < hi
      invariant lo <= i <= hi
      invariant forall k :: 0 <= k < a.Length ==> a[k] == if lo <= k < i then old(a[k + 1]) else old(a[k])
    {
      a[i] := a[i + 1];
      i := i + 1;
    }
  }

  /** Entries `lo .. hi - 1` move up one place; `a[lo]` keeps its value. */
  method ShiftUp<T>(a: array<T>, lo: nat, hi: nat)
    requires lo <= hi < a.Length
    modifies a
    ensures forall k :: 0 <= k < a.Length ==> a[k] == if lo < k <= hi then old(a[k - 1]) else old(a[k])
  {
    var i := hi;
    while i > lo
      invariant lo <= i <= hi
      invariant forall k :: 0 <= k < a.Length ==> a[k] == if i < k <= hi then old(a[k - 1]) else old(a[k])
    {
      a[i] := a[i - 1];
      i := i - 1;
    }
  }

  /** The drag-end handler over the ids of the listed items: nothing when the
      item was dropped on no target or on itself, nothing when either id is not
      listed, otherwise the ids with the dragged one moved to the target's index. */
  method ReorderIds(ids: seq<string>, activeId: string, overId: Option<string>) returns (reordered: Option<seq<string>>)
    ensures overId.None? || overId.value == activeId ==> reordered.None?
    ensures overId.Some? && (activeId !in ids || overId.value !in ids) ==> reordered.None?
    ensures reordered.Some? ==>
              overId.Some? && overId.value != activeId && activeId in ids && overId.value in ids
              && reordered.value == Seqs.Moved(ids, Seqs.FirstIndex(ids, activeId), Seqs.FirstIndex(ids, overId.value))
    ensures overId.Some? && overId.value != activeId && activeId in ids && overId.value in ids ==> reordered.Some?
  {
    if overId.None? || activeId == overId.value {
      return None;
    }
    var oldIndex := IndexOfId(ids, activeId);
    var newIndex := IndexOfId(ids, overId.value);
    if oldIndex == -1 || newIndex == -1 {
      return None;
    }
    var a := new string[|ids|](i requires 0 <= i < |ids| => ids[i]);
    assert a[..] == ids;
    MoveInPlace(a, oldIndex, newIndex);
    return Some(a[..]);
  }

  /** `ids.findIndex((id) => id === x)`. */
  function IndexOfId(ids: seq<string>, x: string): (r: int)
    ensures r == -1 <==> x !in ids
    ensures r != -1 ==> 0 <= r < |ids| && r == Seqs.FirstIndex(ids, x)
  {
    if x in ids then Seqs.FirstIndex(ids, x) else -1
  }

  /** A reorder is a permutation of the ids that puts the dragged id at the
      target's old index and keeps every other id in its relative order. */
  lemma ReorderProperties(ids: seq<string>, activeId: string, overId: string)
    requires activeId in ids && overId in ids
    ensures var r := Seqs.Moved(ids, Seqs.FirstIndex(ids, activeId), Seqs.FirstIndex(ids, overId));
            && |r| == |ids|
            && multiset(r) == multiset(ids)
            && r[Seqs.FirstIndex(ids, overId)] == activeId
            && Seqs.RemoveAt(r, Seqs.FirstIndex(ids, overId)) == Seqs.RemoveAt(ids, Seqs.FirstIndex(ids, activeId))
  {
    Seqs.MovedProperties(ids, Seqs.FirstIndex(ids, activeId), Seqs.FirstIndex(ids, overId));
  }

  function NoteIds(notes: seq<Note>): (ids: seq<string>)
    ensures |ids| == |notes| && forall i :: 0 <= i < |notes| ==> ids[i] == notes[i].id
  {
    seq(|notes|, i requires 0 <= i < |notes| => notes[i].id)
  }

  /** The note list reorders the pinned notes followed by the unpinned ones as
      one list. */
  method NoteListDragEnd(pinnedNotes: seq<Note>, unpinnedNotes: seq<Note>, activeId: string, overId: Option<string>)
    returns (reordered: Option<seq<string>>)
    ensures var ids := NoteIds(pinnedNotes + unpinnedNotes);
            && (overId.None? || overId.value == activeId || activeId !in ids || overId.value !in ids <==> reordered.None?)
            && (reordered.Some? ==>
                  reordered.value == Seqs.Moved(ids, Seqs.FirstIndex(ids, activeId), Seqs.FirstIndex(ids, overId.value)))
  {
    reordered := ReorderIds(NoteIds(pinnedNotes + unpinnedNotes), activeId, overId);
  }

  /** A drag may cross from the pinned part into the unpinned part: dropping
      the first pinned note on the last unpinned one moves it to the very end. */
  lemma DragAcrossPinnedBoundary(pinnedNotes: seq<Note>, unpinnedNotes: seq<Note>)
    requires pinnedNotes != [] && unpinnedNotes != []
    requires Seqs.NoDuplicates(NoteIds(pinnedNotes + unpinnedNotes))
    ensures var ids := NoteIds(pinnedNotes + unpinnedNotes);
            var last := |ids| - 1;
            pinnedNotes[0].id in ids && unpinnedNotes[|unpinnedNotes| - 1].id in ids
            && Seqs.FirstIndex(ids, pinnedNotes[0].id) == 0 && Seqs.FirstIndex(ids, unpinnedNotes[|unpinnedNotes| - 1].id) == last
            && Seqs.Moved(ids, 0, last)[last] == pinnedNotes[0].id
  {
    var ids := NoteIds(pinnedNotes + unpinnedNotes);
    var last := |ids| - 1;
    assert ids[0] == pinnedNotes[0].id;
    assert ids[last] == unpinnedNotes[|unpinnedNotes| - 1].id;
    UniqueFirstIndex(ids, last);
    Seqs.MovedProperties(ids, 0, last);
  }

  lemma UniqueFirstIndex(s: seq<string>, i: nat)
    requires i < |s| && Seqs.NoDuplicates(s)
    ensures Seqs.FirstIndex(s, s[i]) == i
  {
  }
}
