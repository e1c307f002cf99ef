/** One task row: its record, the past-due test against the current time,
    the border colour and due-date styling chosen from it, the date lines it
    renders, and the arguments its buttons pass to the list's handlers.
    Times are milliseconds since the epoch; `now` is a parameter. */
module TodoItem {
  import opened Common

  /** A task as the backend returns it; an absent date is None. */
  datatype Todo = Todo(id: string, title: string, completed: bool,
                       createdAt: Option<int>, dueDate: Option<int>)

  const CompletedBorder := "#93c5fd"
  const PastDueBorder := "#f87171"
  const OpenBorder := "#bfdbfe"

  /** `isPastDue`: the task has a due date and it lies before `now`. */
  predicate IsPastDue(todo: Todo, now: int)
    ensures IsPastDue(todo, now) ==> todo.dueDate.Some?
    ensures todo.dueDate.Some? ==> (IsPastDue(todo, now) <==> todo.dueDate.value < now)
  {
    match todo.dueDate
    case None => false
    case Some(due) => due < now
  }

  /** The left border colour: completed wins over past due. */
  function BorderColor(todo: Todo, now: int): (c: string)
    ensures todo.completed ==> c == CompletedBorder
    ensures !todo.completed && IsPastDue(todo, now) ==> c == PastDueBorder
    ensures !todo.completed && !IsPastDue(todo, now) ==> c == OpenBorder
  {
    if todo.completed then CompletedBorder
    else if IsPastDue(todo, now) then PastDueBorder
    else OpenBorder
  }

  /** The due-date line is drawn in red. */
  predicate DueIsRed(todo: Todo, now: int)
    ensures DueIsRed(todo, now) ==> !todo.completed && todo.dueDate.Some? && todo.dueDate.value < now
    ensures !todo.completed && IsPastDue(todo, now) ==> DueIsRed(todo, now)
  {
    IsPastDue(todo, now) && !todo.completed
  }

  /** The border is red exactly when the due-date line is red. */
  lemma RedBorderIffRedDueDate(todo: Todo, now: int)
    ensures BorderColor(todo, now) == PastDueBorder <==> DueIsRed(todo, now)
  {
    assert CompletedBorder != PastDueBorder && OpenBorder != PastDueBorder;
  }

  /** A task is past due exactly when it has a due date before `now`, so one
      without a due date never is, and one that is stays so as time goes on. */
  lemma PastDueMonotone(todo: Todo, now: int, later: int)
    requires now <= later
    ensures IsPastDue(todo, now) <==> todo.dueDate.Some? && todo.dueDate.value < now
    ensures todo.dueDate.None? ==> !IsPastDue(todo, now)
    ensures IsPastDue(todo, now) ==> IsPastDue(todo, later)
  {
  }

  /** `formatDate`: null for an absent date, otherwise the formatter's text
      (`Intl.DateTimeFormat`, given as `format`). */
  function FormatDate(date: Option<int>, format: int -> string): (r: Option<string>)
    ensures r.None? <==> date.None?
    ensures date.Some? ==> r.value == format(date.value)
  {
    match date
    case None => None
    case Some(d) => Some(format(d))
  }

  /** The due-date line: its text and whether it is drawn in red. */
  datatype DueLine = DueLine(text: string, red: bool)

  /** What a row renders beyond its title. */
  datatype ItemView = ItemView(border: string, checked: bool, struckThrough: bool,
                               createdLine: Option<string>, dueLine: Option<DueLine>)

  /** The row for `todo` at time `now`; a date line appears only when its
      formatted text is truthy. */
  function RenderItem(todo: Todo, now: int, format: int -> string): (v: ItemView)
    ensures v.border == BorderColor(todo, now)
    ensures v.checked == v.struckThrough == todo.completed
    ensures v.createdLine.Some? <==> Truthy(FormatDate(todo.createdAt, format))
    ensures v.dueLine.Some? <==> Truthy(FormatDate(todo.dueDate, format))
    ensures v.createdLine.Some? ==> v.createdLine.value == format(todo.createdAt.value)
    ensures v.dueLine.Some? ==>
      v.dueLine.value.text == format(todo.dueDate.value) && (v.dueLine.value.red <==> DueIsRed(todo, now))
  {
    var created := FormatDate(todo.createdAt, format);
    var due := FormatDate(todo.dueDate, format);
    ItemView(BorderColor(todo, now), todo.completed, todo.completed,
             if Truthy(created) then created else None,
             if Truthy(due) then Some(DueLine(due.value, IsPastDue(todo, now) && !todo.completed)) else None)
  }

  /** The two buttons of a row. */
  datatype Click = ToggleButton | DeleteButton

  /** The handler call a click makes: `onToggleComplete(todo._id, todo.completed)`
      or `onDelete(todo._id)`. */
  datatype ListAction = ToggleComplete(id: string, completed: bool) | Delete(id: string)

  function OnClick(todo: Todo, click: Click): (a: ListAction)
    ensures a.id == todo.id
    ensures click == ToggleButton <==> a.ToggleComplete?
    ensures a.ToggleComplete? ==> a.completed == todo.completed
  {
    match click
    case ToggleButton => ToggleComplete(todo.id, todo.completed)
    case DeleteButton => Delete(todo.id)
  }
}
