/** The editor's slash-command menu: when typing `/` opens it, which
    commands a query keeps, how the highlight wraps, and which text applying
    a command removes. Editor positions are modelled as indices into the
    document text. */
module SlashMenu {
  import opened Domain
  import Seqs
  import Text

  /** The editor command a menu entry runs. */
  datatype CommandAction =
    | ToggleHeading(level: nat)
    | ToggleBulletList
    | ToggleOrderedList
    | ToggleTaskList
    | ToggleCodeBlock
    | ToggleBlockquote
    | SetHorizontalRule

  datatype SlashCommand = SlashCommand(labelText: string, description: string, action: CommandAction)

  /** The nine commands, in menu order. */
  const COMMANDS: seq<SlashCommand> := [
    SlashCommand("Heading 1", "Large section heading", ToggleHeading(1)),
    SlashCommand("Heading 2", "Medium section heading", ToggleHeading(2)),
    SlashCommand("Heading 3", "Small section heading", ToggleHeading(3)),
    SlashCommand("Bullet List", "Unordered list", ToggleBulletList),
    SlashCommand("Numbered List", "Ordered list", ToggleOrderedList),
    SlashCommand("Checklist", "Task list with checkboxes", ToggleTaskList),
    SlashCommand("Code Block", "Code with syntax highlighting", ToggleCodeBlock),
    SlashCommand("Blockquote", "Quote or callout", ToggleBlockquote),
    SlashCommand("Divider", "Horizontal rule", SetHorizontalRule)
  ]

  /** How many characters before the cursor the trigger test looks at. */
  const LOOKBEHIND: nat := 50

  /** The lower-cased label or description contains the lower-cased query. */
  predicate CommandMatches(cmd: SlashCommand, query: string)
  {
    Text.Contains(Text.ToLower(cmd.labelText), Text.ToLower(query))
    || Text.Contains(Text.ToLower(cmd.description), Text.ToLower(query))
  }

  function CommandMatcher(query: string): SlashCommand -> bool
  {
    cmd => CommandMatches(cmd, query)
  }

  /** `filteredCommands`: the commands the query keeps, in menu order. */
  function Filtered(query: string): (r: seq<SlashCommand>)
    ensures |r| <= |COMMANDS|
    ensures forall cmd :: cmd in r <==> cmd in COMMANDS && CommandMatches(cmd, query)
  {
    var r := Seqs.Filter(COMMANDS, CommandMatcher(query));
    assert forall cmd :: cmd in r ==> CommandMatcher(query)(cmd);
    r
  }

  /** The filtered list keeps the menu order. */
  lemma FilteredKeepsOrder(query: string)
    ensures Seqs.IsSubsequence(Filtered(query), COMMANDS)
  {
    Seqs.FilterIsSubsequence(COMMANDS, CommandMatcher(query));
  }

  /** An empty query keeps all nine commands. */
  lemma EmptyQueryKeepsAll()
    ensures Filtered([]) == COMMANDS && |Filtered([])| == 9
  {
    forall i | 0 <= i < |COMMANDS| ensures CommandMatcher([])(COMMANDS[i]) {
      Text.ContainsEmpty(Text.ToLower(COMMANDS[i].labelText));
    }
    Seqs.FilterAll(COMMANDS, CommandMatcher([]));
  }

  /** No query keeps more commands than the empty one. */
  lemma FilteredAtMostAll(query: string)
    ensures |Filtered(query)| <= |Filtered([])|
  {
    EmptyQueryKeepsAll();
  }

  /** Filtering ignores the case of the query. */
  lemma FilteredIgnoresCase(query: string)
    ensures Filtered(Text.ToLower(query)) == Filtered(query)
  {
    Text.ToLowerIdempotent(query);
    forall i | 0 <= i < |COMMANDS|
      ensures CommandMatcher(Text.ToLower(query))(COMMANDS[i]) == CommandMatcher(query)(COMMANDS[i])
    {
    }
    Seqs.FilterCongruent(COMMANDS, CommandMatcher(Text.ToLower(query)), CommandMatcher(query));
  }

  /** The highlighted row; JavaScript's `NaN` is what the wrap-around
      arithmetic gives for an empty list. */
  datatype Index = Index(value: int) | NaN

  /** JavaScript's `%`, which keeps the sign of the dividend. */
  function JsRem(a: int, b: int): (r: int)
    requires b > 0
    ensures a >= 0 ==> 0 <= r < b && r == a % b
    ensures a < 0 ==> -b < r <= 0
  {
    if a >= 0 then a % b else -((-a) % b)
  }

  /** ArrowDown: `(i + 1) % filteredCommands.length`. */
  function WrapDown(i: Index, count: nat): (r: Index)
    ensures count == 0 || i.NaN? ==> r.NaN?
    ensures count > 0 && i.Index? && 0 <= i.value < count ==>
              r.Index? && 0 <= r.value < count
              && r.value == (if i.value == count - 1 then 0 else i.value + 1)
  {
    if count == 0 || i.NaN? then NaN else Index(JsRem(i.value + 1, count))
  }

  /** ArrowUp: `(i - 1 + filteredCommands.length) % filteredCommands.length`. */
  function WrapUp(i: Index, count: nat): (r: Index)
    ensures count == 0 || i.NaN? ==> r.NaN?
    ensures count > 0 && i.Index? && 0 <= i.value < count ==>
              r.Index? && 0 <= r.value < count
              && r.value == (if i.value == 0 then count - 1 else i.value - 1)
  {
    if count == 0 || i.NaN? then NaN else Index(JsRem(i.value - 1 + count, count))
  }

  /** On a non-empty list one step down and one step up cancel out, in
      both orders, including across the wrap. */
  lemma WrapRoundTrip(i: nat, count: nat)
    requires i < count
    ensures WrapUp(WrapDown(Index(i), count), count) == Index(i)
    ensures WrapDown(WrapUp(Index(i), count), count) == Index(i)
  {
  }

  predicate IsQueryChar(c: char)
  {
    ('a' <= c <= 'z') || ('A' <= c <= 'Z') || ('0' <= c <= '9') || c == ' '
  }

  /** `text.match(/\/([a-zA-Z0-9 ]*)$/)`: the characters after a slash that
      is followed only by letters, digits and spaces up to the end. */
  function SlashQuery(text: string): (r: Option<string>)
    ensures r.Some? ==> |r.value| < |text| && text[|text| - |r.value| - 1] == '/'
                        && text[|text| - |r.value|..] == r.value
                        && forall j :: 0 <= j < |r.value| ==> IsQueryChar(r.value[j])
  {
    if text == [] then None
    else
      var last := text[|text| - 1];
      if last == '/' then Some([])
      else if !IsQueryChar(last) then None
      else match SlashQuery(text[..|text| - 1])
        case None => None
        case Some(q) => Some(q + [last])
  }

  /** The trigger test in both directions: there is a match exactly when
      some slash is followed only by query characters, and then the query is
      everything after that slash. */
  lemma {:induction false} SlashQueryIff(text: string, k: nat)
    requires k < |text| && text[k] == '/'
    ensures (forall j :: k < j < |text| ==> IsQueryChar(text[j])) <==> SlashQuery(text) == Some(text[k + 1..])
    decreases |text|
  {
    var last := text[|text| - 1];
    if k == |text| - 1 {
    } else {
      var init := text[..|text| - 1];
      assert init[k] == '/';
      assert forall j :: k < j < |init| ==> init[j] == text[j];
      SlashQueryIff(init, k);
      assert text[k + 1..] == init[k + 1..] + [last];
      if SlashQuery(text) == Some(text[k + 1..]) {
        assert IsQueryChar(last) by {
          assert text[k + 1..][|text[k + 1..]| - 1] == last;
        }
      }
    }
  }

  /** The menu opens exactly when some slash in the text is followed only
      by letters, digits and spaces. */
  lemma SlashQueryExists(text: string)
    ensures SlashQuery(text).Some? <==>
              exists k :: 0 <= k < |text| && text[k] == '/' && forall j :: k < j < |text| ==> IsQueryChar(text[j])
  {
    if SlashQuery(text).Some? {
      var q := SlashQuery(text).value;
      var k := |text| - |q| - 1;
      forall j | k < j < |text| ensures IsQueryChar(text[j]) {
        assert text[j] == q[j - k - 1];
      }
    } else {
      forall k | 0 <= k < |text| && text[k] == '/'
        ensures !forall j :: k < j < |text| ==> IsQueryChar(text[j])
      {
        SlashQueryIff(text, k);
      }
    }
  }

  /** `textBetween(max(0, from - 50), from)`. */
  function TextBefore(doc: string, from: nat): (r: string)
    requires from <= |doc|
    ensures |r| <= LOOKBEHIND && |r| <= from
    ensures r == doc[from - |r|..from]
  {
    if from < LOOKBEHIND then doc[..from] else doc[from - LOOKBEHIND..from]
  }

  /** The range `[from - query.length - 1, from)` that applying a command
      deletes. */
  datatype Range = Range(start: int, end: int)

  function SlashRange(from: nat, query: string): (r: Range)
    ensures r.end == from && r.end - r.start == |query| + 1
  {
    Range(from - |query| - 1, from)
  }

  /** When the menu was opened by the text before the cursor, the range a
      command deletes is exactly the slash and the query typed after it. */
  lemma SlashRangeIsTrigger(doc: string, from: nat)
    requires from <= |doc|
    requires SlashQuery(TextBefore(doc, from)).Some?
    ensures var q := SlashQuery(TextBefore(doc, from)).value;
            var r := SlashRange(from, q);
            0 <= r.start && r.end == from && doc[r.start..r.end] == "/" + q
  {
    var t := TextBefore(doc, from);
    var q := SlashQuery(t).value;
    var k := |t| - |q| - 1;
    SlashSuffix(t);
    SuffixOfSlice(doc, from - |t|, from, k);
  }

  /** The matched text ends with the slash and the query. */
  lemma SlashSuffix(t: string)
    requires SlashQuery(t).Some?
    ensures t[|t| - |SlashQuery(t).value| - 1..] == "/" + SlashQuery(t).value
  {
    var q := SlashQuery(t).value;
    var u := t[|t| - |q| - 1..];
    assert u[0] == '/' && u[1..] == q;
    assert u == [u[0]] + u[1..];
  }

  lemma SuffixOfSlice(s: string, lo: nat, hi: nat, i: nat)
    requires lo <= hi <= |s| && i <= hi - lo
    ensures s[lo..hi][i..] == s[lo + i..hi]
  {
  }

  /** What a key press or a click in the menu asks of the editor. */
  datatype MenuOutcome = Ignore | Run(cmd: SlashCommand, delete: Range)

  /** The menu's state. */
  class Menu {
    var open: bool
    var query: string
    var selectedIndex: Index

    /** The highlight is a row of the filtered list, or row 0 of an empty
        one, or `NaN` after an arrow key on an empty list. */
    ghost predicate Valid()
      reads this
    {
      selectedIndex.Index? ==> 0 <= selectedIndex.value && (selectedIndex.value < |Filtered(query)| || selectedIndex.value == 0)
    }

    constructor ()
      ensures Valid()
      ensures !open && query == [] && selectedIndex == Index(0)
    {
      open := false;
      query := [];
      selectedIndex := Index(0);
    }

    /** The menu renders only while open and with something to show. */
    function Visible(): bool
      reads this
    {
      open && |Filtered(query)| > 0
    }

    /** `handleUpdate`, after every edit or cursor move: opens the menu with
        the query after the slash, or closes it and clears the query. */
    method Update(doc: string, from: nat)
      requires Valid()
      requires from <= |doc|
      modifies this
      ensures Valid()
      ensures var m := SlashQuery(TextBefore(doc, from));
              (m.Some? ==> open && query == m.value && selectedIndex == Index(0))
              && (m.None? ==> !open && query == [] && selectedIndex == old(selectedIndex))
    {
      var m := SlashQuery(TextBefore(doc, from));
      if m.Some? {
        query := m.value;
        selectedIndex := Index(0);
        open := true;
      } else {
        FilteredAtMostAll(query);
        open := false;
        query := [];
      }
    }

    /** `handleKeyDown`: nothing while closed; the arrows wrap; Enter runs
        the highlighted command, deleting the slash and query first, and
        closes; Escape closes. `consumed` is `preventDefault`: while open,
        the four menu keys never reach the editor, even when the list is
        empty and nothing is shown. */
    method KeyDown(key: string, from: nat) returns (outcome: MenuOutcome, consumed: bool)
      requires Valid()
      modifies this
      ensures Valid()
      ensures consumed <==> old(open) && key in ["ArrowDown", "ArrowUp", "Enter", "Escape"]
      ensures query == old(query)
      ensures !old(open) ==> outcome == Ignore && !open && selectedIndex == old(selectedIndex)
      ensures old(open) ==>
                var cmds := Filtered(query);
                var i := old(selectedIndex);
                (key == "ArrowDown" ==> open && selectedIndex == WrapDown(i, |cmds|) && outcome == Ignore)
                && (key == "ArrowUp" ==> open && selectedIndex == WrapUp(i, |cmds|) && outcome == Ignore)
                && (key == "Enter" && i.Index? && i.value < |cmds| ==>
                      !open && selectedIndex == i && outcome == Run(cmds[i.value], SlashRange(from, query)))
                && (key == "Enter" && !(i.Index? && i.value < |cmds|) ==> open && selectedIndex == i && outcome == Ignore)
                && (key == "Escape" ==> !open && selectedIndex == i && outcome == Ignore)
                && (key !in ["ArrowDown", "ArrowUp", "Enter", "Escape"] ==> open && selectedIndex == i && outcome == Ignore)
    {
      outcome, consumed := Ignore, false;
      if !open {
        return;
      }
      consumed := key in ["ArrowDown", "ArrowUp", "Enter", "Escape"];
      var cmds := Filtered(query);
      if key == "ArrowDown" {
        selectedIndex := WrapDown(selectedIndex, |cmds|);
      } else if key == "ArrowUp" {
        selectedIndex := WrapUp(selectedIndex, |cmds|);
      } else if key == "Enter" {
        if selectedIndex.Index? && selectedIndex.value < |cmds| {
          outcome := Run(cmds[selectedIndex.value], SlashRange(from, query));
          open := false;
        }
      } else if key == "Escape" {
        open := false;
      }
    }

    /** A click on row `i` of the rendered list. */
    method Click(i: nat, from: nat) returns (outcome: MenuOutcome)
      requires Visible() && i < |Filtered(query)|
      requires Valid()
      modifies this
      ensures Valid()
      ensures !open && query == old(query) && selectedIndex == old(selectedIndex)
      ensures outcome == Run(Filtered(query)[i], SlashRange(from, query))
    {
      outcome := Run(Filtered(query)[i], SlashRange(from, query));
      open := false;
    }
  }
}
