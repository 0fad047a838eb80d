/** The inline rename box for stars and black holes: when a typed name is
    committed and when the edit is dropped. */
module InlineRename {
  import opened Domain
  import Text

  datatype RenameOutcome = Commit(newName: string) | Cancel

  /** `commit`: the trimmed text is committed when it is non-empty and not
      the current name; otherwise the edit is cancelled. */
  function CommitDecision(text: string, value: string): (r: RenameOutcome)
    ensures r.Commit? <==> Text.Trim(text) != [] && Text.Trim(text) != value
    ensures r.Commit? ==> r.newName == Text.Trim(text)
  {
    var trimmed := Text.Trim(text);
    if trimmed != [] && trimmed != value then Commit(trimmed) else Cancel
  }

  /** A committed name is never empty, never the old name, and carries no
      surrounding white space. */
  lemma CommittedNameIsClean(text: string, value: string)
    requires CommitDecision(text, value).Commit?
    ensures var name := CommitDecision(text, value).newName;
            name != [] && name != value && Text.Trim(name) == name
  {
    Text.TrimIdempotent(text);
  }

  /** Committing the same text again once the new name is in place does
      nothing: the edit is cancelled. */
  lemma RecommitCancels(text: string, value: string)
    requires CommitDecision(text, value).Commit?
    ensures CommitDecision(text, CommitDecision(text, value).newName) == Cancel
  {
  }

  /** Surrounding white space never changes the decision. */
  lemma PaddingIgnored(text: string, value: string)
    ensures CommitDecision(Text.Trim(text), value) == CommitDecision(text, value)
  {
    Text.TrimIdempotent(text);
  }

  class RenameField {
    const value: string
    var text: string

    /** The buffer starts as the current name. */
    constructor (value: string)
      ensures this.value == value && text == value
    {
      this.value := value;
      text := value;
    }

    /** `onChange`. */
    method Change(newText: string)
      modifies this
      ensures text == newText
    {
      text := newText;
    }

    /** `onKeyDown`: Enter runs the commit rule, Escape cancels, other keys
        do nothing. */
    method KeyDown(key: string) returns (r: Option<RenameOutcome>)
      ensures key == "Enter" ==> r == Some(CommitDecision(text, value))
      ensures key == "Escape" ==> r == Some(Cancel)
      ensures key != "Enter" && key != "Escape" ==> r.None?
    {
      r := None;
      if key == "Enter" {
        r := Some(CommitDecision(text, value));
      }
      if key == "Escape" {
        r := Some(Cancel);
      }
    }

    /** `onBlur`: leaving the field runs the commit rule too. */
    method Blur() returns (r: RenameOutcome)
      ensures r.Commit? <==> Text.Trim(text) != [] && Text.Trim(text) != value
      ensures r.Commit? ==> r.newName == Text.Trim(text)
    {
      r := CommitDecision(text, value);
    }
  }

  /** Opening the box and leaving it without typing cancels, unless the
      current name has surrounding white space: then the trimmed name is
      committed. */
  method OpenAndLeave(value: string) returns (r: RenameOutcome)
    ensures r == Cancel <==> Text.Trim(value) == value || Text.Trim(value) == []
    ensures r.Commit? ==> r.newName == Text.Trim(value)
  {
    var field := new RenameField(value);
    r := field.Blur();
  }
}
