/** The derived note lists of the notes hook: the notes of the active
    bundle, split into pinned and unpinned. */
module NotesFilter {
  import opened Domain
  import Seqs

  function InBundle(bundleId: string): Note -> bool
  {
    (n: Note) => n.bundleId == Some(bundleId)
  }

  predicate IsPinned(n: Note)
  {
    n.pinned
  }

  predicate IsUnpinned(n: Note)
  {
    !n.pinned
  }

  /** `filteredNotes`: a null or empty bundle id keeps every note; otherwise
      the notes filed in that bundle, in order. */
  function FilteredNotes(notes: seq<Note>, activeBundleId: Option<string>): (r: seq<Note>)
    ensures !Truthy(activeBundleId) ==> r == notes
    ensures Truthy(activeBundleId) ==>
              forall n :: n in r <==> n in notes && n.bundleId == activeBundleId
  {
    if !Truthy(activeBundleId) then notes
    else
      var r := Seqs.Filter(notes, InBundle(activeBundleId.value));
      assert forall n :: n in r <==> n in notes && InBundle(activeBundleId.value)(n);
      r
  }

  /** `pinnedNotes`. */
  function PinnedNotes(notes: seq<Note>, activeBundleId: Option<string>): (r: seq<Note>)
    ensures forall n :: n in r <==> n in FilteredNotes(notes, activeBundleId) && n.pinned
  {
    Seqs.Filter(FilteredNotes(notes, activeBundleId), IsPinned)
  }

  /** `unpinnedNotes`. */
  function UnpinnedNotes(notes: seq<Note>, activeBundleId: Option<string>): (r: seq<Note>)
    ensures forall n :: n in r <==> n in FilteredNotes(notes, activeBundleId) && !n.pinned
  {
    Seqs.Filter(FilteredNotes(notes, activeBundleId), IsUnpinned)
  }

  /** The two lists split the filtered notes: together they hold each
      filtered note exactly as often as the filtered list does, so their
      lengths add up, and no note is in both. */
  lemma PinnedUnpinnedPartition(notes: seq<Note>, activeBundleId: Option<string>)
    ensures var f := FilteredNotes(notes, activeBundleId);
            |PinnedNotes(notes, activeBundleId)| + |UnpinnedNotes(notes, activeBundleId)| == |f|
            && multiset(PinnedNotes(notes, activeBundleId)) + multiset(UnpinnedNotes(notes, activeBundleId)) == multiset(f)
            && forall n :: !(n in PinnedNotes(notes, activeBundleId) && n in UnpinnedNotes(notes, activeBundleId))
  {
    Seqs.FilterPartition(FilteredNotes(notes, activeBundleId), IsPinned, IsUnpinned);
  }

  /** Every derived list keeps the input order. */
  lemma ListsKeepOrder(notes: seq<Note>, activeBundleId: Option<string>)
    ensures Seqs.IsSubsequence(FilteredNotes(notes, activeBundleId), notes)
    ensures Seqs.IsSubsequence(PinnedNotes(notes, activeBundleId), FilteredNotes(notes, activeBundleId))
    ensures Seqs.IsSubsequence(UnpinnedNotes(notes, activeBundleId), FilteredNotes(notes, activeBundleId))
  {
    if Truthy(activeBundleId) {
      Seqs.FilterIsSubsequence(notes, InBundle(activeBundleId.value));
    } else {
      SelfSubsequence(notes);
    }
    Seqs.FilterIsSubsequence(FilteredNotes(notes, activeBundleId), IsPinned);
    Seqs.FilterIsSubsequence(FilteredNotes(notes, activeBundleId), IsUnpinned);
  }

  lemma {:induction false} SelfSubsequence(s: seq<Note>)
    ensures Seqs.IsSubsequence(s, s)
  {
    if s != [] {
      SelfSubsequence(s[1..]);
    }
  }
}
