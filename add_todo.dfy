/** The add-task page: a title whose trim is empty is refused locally;
    otherwise one POST is sent with the untrimmed title and `dueDate || null`,
    and a success navigates back to the list (no task is inserted locally:
    the list picks it up on its next fetch). */
module AddTodo {
  import opened Common

  const EmptyTitle := "Task title cannot be empty"
  const AddFailed := "Failed to add task. Please try again."

  /** The characters `String.prototype.trim` removes: ECMAScript's WhiteSpace
      (tab, vertical tab, form feed, space, no-break space, byte-order mark
      and the other space separators) and LineTerminator code points. */
  predicate IsTrimSpace(c: char)
  {
    || c == '\t' || c == '\U{000B}' || c == '\U{000C}' || c == ' ' || c == '\U{00A0}' || c == '\U{FEFF}'
    || c == '\U{1680}' || ('\U{2000}' <= c <= '\U{200A}') || c == '\U{202F}' || c == '\U{205F}' || c == '\U{3000}'
    || c == '\n' || c == '\r' || c == '\U{2028}' || c == '\U{2029}'
  }

  /** Space, tab and the line breaks are trimmed; no printable ASCII
      character is, and nothing above the byte-order mark is. */
  lemma TrimSpaceCharacters(c: char)
    ensures c == ' ' || c == '\t' || c == '\n' || c == '\r' ==> IsTrimSpace(c)
    ensures '!' <= c <= '~' ==> !IsTrimSpace(c)
    ensures IsTrimSpace(c) ==> c <= '\U{FEFF}'
  {
  }

  /** Every character of `s` is whitespace (the empty string included). */
  predicate IsBlank(s: string)
  {
    forall i :: 0 <= i < |s| ==> IsTrimSpace(s[i])
  }

  /** Drops leading whitespace: the result is a suffix of `s` that does not
      start with whitespace, and everything dropped was whitespace. */
  function TrimStart(s: string): (r: string)
    ensures |r| <= |s| && r == s[|s| - |r|..]
    ensures r == [] || !IsTrimSpace(r[0])
    ensures forall i :: 0 <= i < |s| - |r| ==> IsTrimSpace(s[i])
  {
    if s != [] && IsTrimSpace(s[0]) then TrimStart(s[1..]) else s
  }

  /** Drops trailing whitespace: the result is a prefix of `s` that does not
      end with whitespace, and everything dropped was whitespace. */
  function TrimEnd(s: string): (r: string)
    ensures |r| <= |s| && r == s[..|r|]
    ensures r == [] || !IsTrimSpace(r[|r| - 1])
    ensures forall i :: |r| <= i < |s| ==> IsTrimSpace(s[i])
  {
    if s != [] && IsTrimSpace(s[|s| - 1]) then TrimEnd(s[..|s| - 1]) else s
  }

  /** `title.trim()`. */
  function Trim(s: string): (r: string)
    ensures r == [] || (!IsTrimSpace(r[0]) && !IsTrimSpace(r[|r| - 1]))
  {
    TrimEnd(TrimStart(s))
  }

  /** The trim is empty exactly when every character is whitespace. */
  lemma TrimEmptyIffBlank(s: string)
    ensures Trim(s) == [] <==> IsBlank(s)
  {
    var t := TrimStart(s);
    assert t != [] ==> t[0] == s[|s| - |t|];
  }

  /** The trim is the slice of the title that starts after the leading
      whitespace, and everything outside that slice is whitespace. */
  lemma TrimIsSlice(s: string)
    ensures var i := |s| - |TrimStart(s)|;
      && i + |Trim(s)| <= |s|
      && Trim(s) == s[i..i + |Trim(s)|]
      && (forall k :: 0 <= k < i ==> IsTrimSpace(s[k]))
      && (forall k :: i + |Trim(s)| <= k < |s| ==> IsTrimSpace(s[k]))
  {
    var t := TrimStart(s);
    var i := |s| - |t|;
    var r := TrimEnd(t);
    PrefixOfSuffix(s, i, r);
    ShiftedWhitespace(s, i, |r|);
  }

  /** A prefix of the suffix `s[i..]` is the slice of `s` at `i`. */
  lemma PrefixOfSuffix(s: string, i: nat, r: string)
    requires i <= |s| && |r| <= |s| - i && r == s[i..][..|r|]
    ensures r == s[i..i + |r|]
  {
  }

  /** Whitespace at the end of the suffix `s[i..]` is whitespace at the
      same place, shifted by `i`, in `s`. */
  lemma ShiftedWhitespace(s: string, i: nat, m: nat)
    requires i + m <= |s|
    requires forall j :: m <= j < |s[i..]| ==> IsTrimSpace(s[i..][j])
    ensures forall k :: i + m <= k < |s| ==> IsTrimSpace(s[k])
  {
    forall k | i + m <= k < |s| ensures IsTrimSpace(s[k]) {
      assert s[k] == s[i..][k - i];
    }
  }

  /** The title check. */
  function Validate(title: string): (r: Option<string>)
    ensures r.Some? <==> IsBlank(title)
    ensures r.Some? ==> r.value == EmptyTitle
  {
    TrimEmptyIffBlank(title);
    if Trim(title) == [] then Some(EmptyTitle) else None
  }

  /** The body of the POST to /api/todos. */
  datatype TodoPayload = TodoPayload(title: string, dueDate: Option<string>)

  /** `{ title, dueDate: dueDate || null }`: the title exactly as typed, and
      no due date when the date field is empty. */
  function Payload(title: string, dueDate: string): (p: TodoPayload)
    ensures p.title == title
    ensures p.dueDate.None? <==> dueDate == ""
    ensures p.dueDate.Some? ==> p.dueDate.value == dueDate
  {
    TodoPayload(title, if dueDate == "" then None else Some(dueDate))
  }

  /** A padded title is sent as typed, not trimmed. */
  lemma PaddedTitleSentUntrimmed()
    ensures Validate(" Buy milk ") == None
    ensures Payload(" Buy milk ", "").title == " Buy milk "
    ensures Payload(" Buy milk ", "") == TodoPayload(" Buy milk ", None)
  {
    assert " Buy milk "[1] == 'B';
  }

  class AddTodoPage {
    var error: string
    var isSubmitting: bool

    constructor ()
      ensures error == "" && !isSubmitting
    {
      error := "";
      isSubmitting := false;
    }

    /** `handleSubmit` with the field values and the outcome of the POST. */
    method HandleSubmit(title: string, dueDate: string, response: ApiOutcome<()>)
      returns (request: Option<TodoPayload>, navigateTo: Option<string>)
      modifies this
      ensures Validate(title).Some? ==>
        error == EmptyTitle && isSubmitting == old(isSubmitting) && request == None && navigateTo == None
      ensures Validate(title).None? ==> request == Some(Payload(title, dueDate))
      ensures Validate(title).None? && response.Ok? ==>
        navigateTo == Some("/") && isSubmitting && error == old(error)
      ensures Validate(title).None? && response.Failed? ==>
        navigateTo == None && !isSubmitting && error == AddFailed
    {
      var invalid := Validate(title);
      if invalid.Some? {
        error := invalid.value;
        return None, None;
      }
      isSubmitting := true;
      request := Some(Payload(title, dueDate));
      match response
      case Ok(_) =>
        navigateTo := Some("/");
      case Failed(_) =>
        error := AddFailed;
        isSubmitting := false;
        navigateTo := None;
    }
  }
}
