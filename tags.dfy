/** Tag editing and the tag filter bar: how typed tags are normalised,
    which suggestions are offered, and how clicking a chip changes the
    active filter. */
module Tags {
  import opened Domain
  import Seqs
  import Text

  /** `v.trim().toLowerCase()`. */
  function Clean(v: string): string
  {
    Text.ToLower(Text.Trim(v))
  }

  predicate NonEmpty(v: string)
  {
    |v| > 0
  }

  /** A tag as normalisation leaves it: non-empty, trimmed, lower-case. */
  predicate IsNormalTag(t: string)
  {
    t != [] && Text.Trim(t) == t && Text.ToLower(t) == t
  }

  function CleanAll(values: seq<string>): (r: seq<string>)
    ensures |r| == |values|
    ensures forall i :: 0 <= i < |values| ==> r[i] == Clean(values[i])
  {
    seq(|values|, i requires 0 <= i < |values| => Clean(values[i]))
  }

  /** The tag list `onChange` hands on: every value trimmed and lower-cased,
      empty ones dropped, repeats removed keeping the first. */
  function NormalizeTags(values: seq<string>): (r: seq<string>)
    ensures Seqs.NoDuplicates(r)
    ensures forall t :: t in r <==> t != [] && exists i :: 0 <= i < |values| && Clean(values[i]) == t
  {
    var cleaned := Seqs.Filter(CleanAll(values), NonEmpty);
    assert forall t :: t in cleaned <==> t in CleanAll(values) && t != [];
    Seqs.Dedup(cleaned)
  }

  /** Cleaning a value twice is cleaning it once. */
  lemma CleanIdempotent(v: string)
    ensures Clean(Clean(v)) == Clean(v)
  {
    Text.TrimOfLower(Text.Trim(v));
    Text.TrimIdempotent(v);
    Text.ToLowerIdempotent(Text.Trim(v));
  }

  /** Every tag that comes out is non-empty, trimmed and lower-case. */
  lemma NormalizedTagsAreNormal(values: seq<string>)
    ensures forall t :: t in NormalizeTags(values) ==> IsNormalTag(t)
  {
    forall t | t in NormalizeTags(values) ensures IsNormalTag(t) {
      var i :| 0 <= i < |values| && Clean(values[i]) == t;
      CleanIdempotent(values[i]);
      Text.TrimOfLower(t);
      Text.TrimIdempotent(Text.ToLower(t));
      Text.ToLowerIdempotent(Text.Trim(values[i]));
    }
  }

  /** The tags keep the order in which their first spelling was typed. */
  lemma NormalizeKeepsFirstOccurrenceOrder(values: seq<string>)
    ensures var cleaned := Seqs.Filter(CleanAll(values), NonEmpty);
            forall i, j :: 0 <= i < j < |NormalizeTags(values)| ==>
              Seqs.FirstIndex(cleaned, NormalizeTags(values)[i]) < Seqs.FirstIndex(cleaned, NormalizeTags(values)[j])
  {
    Seqs.DedupKeepsFirstOccurrenceOrder(Seqs.Filter(CleanAll(values), NonEmpty));
  }

  /** Normalising an already normalised list changes nothing. */
  lemma {:induction false} NormalizeIdempotent(values: seq<string>)
    ensures NormalizeTags(NormalizeTags(values)) == NormalizeTags(values)
  {
    var r := NormalizeTags(values);
    NormalizedTagsAreNormal(values);
    forall i | 0 <= i < |r| ensures CleanAll(r)[i] == r[i] {
      NormalFixed(r[i]);
    }
    assert CleanAll(r) == r;
    Seqs.FilterAll(r, NonEmpty);
    Seqs.DedupOfNoDuplicates(r);
  }

  lemma NormalFixed(t: string)
    requires IsNormalTag(t)
    ensures Clean(t) == t
  {
  }

  /** `allTags.filter((t) => !tags.includes(t))`: suggestions are the known
      tags not yet on the note, in their order. */
  function Options(allTags: seq<string>, tags: seq<string>): (r: seq<string>)
    ensures forall t :: t in r <==> t in allTags && t !in tags
  {
    var r := Seqs.Filter(allTags, t => t !in tags);
    assert forall t :: t in r <==> t in allTags && t !in tags;
    r
  }

  lemma OptionsKeepOrder(allTags: seq<string>, tags: seq<string>)
    ensures Seqs.IsSubsequence(Options(allTags, tags), allTags)
  {
    Seqs.FilterIsSubsequence(allTags, t => t !in tags);
  }

  /** A chip's `onClick` in the filter bar: clicking the active tag clears
      the filter, clicking any other tag selects it. */
  function ToggleFilter(activeTag: Option<string>, tag: string): (r: Option<string>)
    ensures activeTag == Some(tag) <==> r.None?
    ensures r.Some? ==> r.value == tag
  {
    if activeTag == Some(tag) then None else Some(tag)
  }

  /** Two clicks on the same chip bring back no filter, or, from an active
      filter on that chip, the filter itself. */
  lemma ToggleTwice(activeTag: Option<string>, tag: string)
    ensures ToggleFilter(ToggleFilter(activeTag, tag), tag) == (if activeTag == Some(tag) then Some(tag) else None)
  {
  }

  /** The filter bar renders only when there is some tag to show. */
  function FilterBarVisible(allTags: seq<string>): (r: bool)
    ensures r <==> allTags != []
  {
    |allTags| != 0
  }
}
