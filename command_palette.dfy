/** The Ctrl+K search palette: which notes a query finds, and how the
    highlighted row moves through them. */
module CommandPalette {
  import opened Domain
  import Seqs
  import Text

  /** The palette never lists more than this many notes. */
  const MAX_RESULTS: nat := 10

  predicate NotDeleted(n: Note)
  {
    !n.deleted
  }

  /** `tags.some((t) => t.toLowerCase().includes(q))`. */
  predicate SomeTagContains(tags: seq<string>, q: string)
  {
    exists i :: 0 <= i < |tags| && Text.Contains(Text.ToLower(tags[i]), q)
  }

  /** A live note whose lower-cased title, content or some tag contains `q`. */
  predicate Matches(n: Note, q: string)
    ensures Matches(n, q) ==> !n.deleted
    ensures q == [] ==> (Matches(n, q) <==> !n.deleted)
  {
    !n.deleted
    && (Text.Contains(Text.ToLower(n.title), q) || Text.Contains(Text.ToLower(n.content), q)
        || SomeTagContains(n.tags, q))
  }

  function Matcher(q: string): Note -> bool
  {
    n => Matches(n, q)
  }

  /** `query.toLowerCase().trim()`. */
  function SearchKey(query: string): (key: string)
    ensures Text.IsLower(key)
    ensures key == [] || (!Text.IsSpace(key[0]) && !Text.IsSpace(key[|key| - 1]))
  {
    Text.Trim(Text.ToLower(query))
  }

  /** `results`: a blank query lists the live notes, any other query the
      live notes matching its search key; either way at most ten, in input
      order. */
  function Results(notes: seq<Note>, query: string): (r: seq<Note>)
    ensures |r| <= MAX_RESULTS
    ensures forall n :: n in r ==> n in notes && !n.deleted
    ensures Text.Trim(query) != [] ==> forall n :: n in r ==> Matches(n, SearchKey(query))
  {
    var blank := Text.Trim(query) == [];
    var f := if blank then Seqs.Filter(notes, NotDeleted) else Seqs.Filter(notes, Matcher(SearchKey(query)));
    assert forall n :: n in f ==> n in notes && !n.deleted && (!blank ==> Matches(n, SearchKey(query)));
    var r := Seqs.Take(f, MAX_RESULTS);
    assert forall n :: n in r ==> n in f;
    r
  }

  /** The blank-query case is the general rule at the empty key: every query
      gives the first ten live notes that match its search key. */
  lemma ResultsAreFirstMatches(notes: seq<Note>, query: string)
    ensures Results(notes, query) == Seqs.Take(Seqs.Filter(notes, Matcher(SearchKey(query))), MAX_RESULTS)
  {
    if Text.Trim(query) == [] {
      BlankKey(query);
      forall i | 0 <= i < |notes| ensures NotDeleted(notes[i]) == Matcher(SearchKey(query))(notes[i]) {
        Text.ContainsEmpty(Text.ToLower(notes[i].title));
      }
      Seqs.FilterCongruent(notes, NotDeleted, Matcher(SearchKey(query)));
    }
  }

  /** A query is blank exactly when its search key is empty. */
  lemma BlankKey(query: string)
    ensures Text.Trim(query) == [] <==> SearchKey(query) == []
  {
    Text.TrimOfLower(query);
  }

  /** When ten or fewer notes match, the palette lists exactly the matching
      notes. */
  lemma ResultsComplete(notes: seq<Note>, query: string)
    requires |Seqs.Filter(notes, Matcher(SearchKey(query)))| <= MAX_RESULTS
    ensures forall n :: n in Results(notes, query) <==> n in notes && Matches(n, SearchKey(query))
  {
    ResultsAreFirstMatches(notes, query);
  }

  /** The listed notes appear in the order of the input. */
  lemma ResultsKeepOrder(notes: seq<Note>, query: string)
    ensures Seqs.IsSubsequence(Results(notes, query), notes)
  {
    ResultsAreFirstMatches(notes, query);
    var f := Seqs.Filter(notes, Matcher(SearchKey(query)));
    Seqs.FilterIsSubsequence(notes, Matcher(SearchKey(query)));
    Seqs.PrefixOfSubsequence(Seqs.Take(f, MAX_RESULTS), f, notes);
  }

  /** Search ignores the case of the query. */
  lemma ResultsIgnoreCase(notes: seq<Note>, query: string)
    ensures Results(notes, Text.ToLower(query)) == Results(notes, query)
  {
    Text.ToLowerIdempotent(query);
    ResultsAreFirstMatches(notes, query);
    ResultsAreFirstMatches(notes, Text.ToLower(query));
  }

  /** ArrowDown: `Math.min(i + 1, results.length - 1)`. */
  function NavDown(i: int, count: nat): (r: int)
    ensures r <= count - 1 && r <= i + 1
    ensures r == i + 1 || r == count - 1
    ensures count == 0 && i >= -1 ==> r == -1
    ensures -1 <= i < count ==> -1 <= r < count
  {
    if i + 1 < count - 1 then i + 1 else count - 1
  }

  /** ArrowUp: `Math.max(i - 1, 0)`. */
  function NavUp(i: int): (r: int)
    ensures r >= 0 && r >= i - 1
    ensures r == i - 1 || r == 0
    ensures i <= 1 ==> r == 0
  {
    if i - 1 > 0 then i - 1 else 0
  }

  /** Away from the ends, one step down and one step up cancel out. */
  lemma NavRoundTrip(i: int, count: nat)
    ensures 0 <= i < count - 1 ==> NavUp(NavDown(i, count)) == i
    ensures 1 <= i < count ==> NavDown(NavUp(i), count) == i
  {
  }

  /** At the bottom row ArrowDown stays put, at the top ArrowUp does. */
  lemma NavStopsAtEnds(count: nat)
    requires count > 0
    ensures NavDown(count - 1, count) == count - 1
    ensures NavUp(0) == 0
  {
  }

  /** What a key press in the palette asks of its owner. */
  datatype KeyOutcome = Stay | Close | Pick(note: Note)

  /** The palette's own state. */
  class Palette {
    var query: string
    var selectedIndex: int

    constructor ()
      ensures query == [] && selectedIndex == 0
    {
      query := [];
      selectedIndex := 0;
    }

    /** The effect that runs when the palette opens: empty query, first row. */
    method Opened()
      modifies this
      ensures query == [] && selectedIndex == 0
    {
      query := [];
      selectedIndex := 0;
    }

    /** The search field's `onChange`. */
    method QueryChanged(text: string)
      modifies this
      ensures query == text && selectedIndex == 0
    {
      query := text;
      selectedIndex := 0;
    }

    /** `handleKeyDown` over the current results: the arrows move the
        highlight, Enter picks the highlighted note when there is one (and
        closes), Escape closes. */
    method KeyDown(key: string, notes: seq<Note>) returns (outcome: KeyOutcome)
      modifies this
      ensures query == old(query)
      ensures var results := Results(notes, old(query));
              var i := old(selectedIndex);
              (key == "ArrowDown" ==> selectedIndex == NavDown(i, |results|) && outcome == Stay)
              && (key == "ArrowUp" ==> selectedIndex == NavUp(i) && outcome == Stay)
              && (key == "Enter" && 0 <= i < |results| ==> selectedIndex == i && outcome == Pick(results[i]))
              && (key == "Enter" && !(0 <= i < |results|) ==> selectedIndex == i && outcome == Stay)
              && (key == "Escape" ==> selectedIndex == i && outcome == Close)
              && (key !in ["ArrowDown", "ArrowUp", "Enter", "Escape"] ==> selectedIndex == i && outcome == Stay)
      ensures outcome.Pick? ==> outcome.note in notes && !outcome.note.deleted
      ensures old(selectedIndex) >= -1 ==> selectedIndex >= -1
    {
      var results := Results(notes, query);
      outcome := Stay;
      if key == "ArrowDown" {
        selectedIndex := NavDown(selectedIndex, |results|);
      } else if key == "ArrowUp" {
        selectedIndex := NavUp(selectedIndex);
      } else if key == "Enter" && 0 <= selectedIndex < |results| {
        outcome := Pick(results[selectedIndex]);
      } else if key == "Escape" {
        outcome := Close;
      }
    }
  }

  /** The palette's window-level listener: Ctrl/Cmd+K closes an open palette
      (opening belongs to the canvas). */
  function ShortcutCloses(open: bool, metaKey: bool, ctrlKey: bool, key: string): (r: bool)
    ensures r ==> open
    ensures !open ==> !r
    ensures open && (metaKey || ctrlKey) ==> (r <==> key == "k")
  {
    open && (metaKey || ctrlKey) && key == "k"
  }
}
