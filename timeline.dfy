/** The client's sync controller, the `ProjectTimeline` component: its six
    state fields, the placeholder list, the formatting of API tasks, and the
    handlers that fetch, add, edit, delete and select tasks. A network call is
    an `Outcome` the environment chooses: an ok response with a body, a
    non-ok response, or a thrown error. Every handler runs as one step. */
module Timeline {
  import opened JsValues
  import opened Wire
  import opened Ids
  import opened Seqs

  /** The client's view of a task; its id is a string. */
  datatype Task = Task(
    id: string,
    name: string,
    start: Date,
    end: Date,
    progress: int,
    taskType: string,
    isDisabled: bool,
    styles: Styles)

  /** The add form: the date inputs hold their text. */
  datatype TaskForm = TaskForm(name: string, start: string, end: string, progress: int)

  const EmptyForm: TaskForm := TaskForm("", "", "", 0)

  datatype Outcome<T> = Ok(body: T) | NotOk | Thrown

  /** What a handler sends. An add posts the form with fixed type, flag and
      colours; an edit puts every field of the selected task but its id,
      which goes in the URL. */
  datatype Request =
    | GetTasks
    | PostTask(form: TaskForm, taskType: string, isDisabled: bool, styles: Styles)
    | PutTask(id: string, fields: Task)
    | DeleteTask(id: string)

  /** One change in a form input. The add form keeps the text of a date, the
      edit form the instant `new Date(value)` yields; `parsed` is
      `parseInt(value)`, `None` for NaN. */
  datatype FormInput =
    | NameInput(text: string)
    | StartInput(date: DateText)
    | EndInput(date: DateText)
    | ProgressInput(parsed: Option<int>)

  /** The one sample task shown when there is nothing else: 2025-01-01 to
      2025-12-31, 30% done. */
  const DefaultTasks: seq<Task> :=
    [Task("default-1", "샘플 프로젝트", 1735689600000, 1767139200000, 30, "task", false, DefaultStyles)]

  /** The placeholder list is one placeholder task with the default colours,
      and it is settled. */
  lemma DefaultTasksShape()
    ensures |DefaultTasks| == 1 && AllSynthetic(DefaultTasks) && Settled(DefaultTasks)
    ensures DefaultTasks[0].id == "default-1" && DefaultTasks[0].progress == 30
    ensures DefaultTasks[0].taskType == "task" && !DefaultTasks[0].isDisabled
    ensures DefaultTasks[0].styles == DefaultStyles
  {
    assert DefaultTasks[0].id[..|SyntheticPrefix|] == SyntheticPrefix;
  }

  /** `parseInt(value) || 0`. */
  function ParsedProgress(parsed: Option<int>): int {
    if parsed.Some? && parsed.value != 0 then parsed.value else 0
  }

  /** The ApiTask-to-Task formatting: the id becomes its decimal string,
      falsy or absent progress, type and isDisabled become 0, "task" and
      false, and absent styles become the default colours. */
  function FormatTask(a: ApiTask): (t: Task)
    ensures t.id == NatToString(a.id)
    ensures ParseId(t.id) == Some(a.id) && !IsSynthetic(t.id)
    ensures t.name == a.name && t.start == a.start && t.end == a.end
    ensures t.progress == (if a.progress.Some? then a.progress.value else 0)
    ensures a.taskType.Some? && a.taskType.value != "" ==> t.taskType == a.taskType.value
    ensures !(a.taskType.Some? && a.taskType.value != "") ==> t.taskType == "task"
    ensures t.isDisabled <==> a.isDisabled == Some(true)
    ensures t.styles == (if a.styles.Some? then a.styles.value else DefaultStyles)
  {
    ParseNatToString(a.id);
    Task(
      NatToString(a.id), a.name, a.start, a.end,
      if a.progress.Some? && a.progress.value != 0 then a.progress.value else 0,
      if a.taskType.Some? && a.taskType.value != "" then a.taskType.value else "task",
      if a.isDisabled.Some? && a.isDisabled.value then true else false,
      if a.styles.Some? then a.styles.value else DefaultStyles)
  }

  predicate AllSynthetic(ts: seq<Task>) {
    forall t :: t in ts ==> IsSynthetic(t.id)
  }

  predicate NoneSynthetic(ts: seq<Task>) {
    forall t :: t in ts ==> !IsSynthetic(t.id)
  }

  /** The list invariant: never empty, and placeholders and real tasks never mix. */
  predicate Settled(ts: seq<Task>) {
    ts != [] && (AllSynthetic(ts) || NoneSynthetic(ts))
  }

  /** `tasks.filter((t) => !t.id.startsWith("default-"))`. */
  function WithoutPlaceholders(ts: seq<Task>): seq<Task> {
    Filter(ts, (t: Task) => !IsSynthetic(t.id))
  }

  /** `tasks.filter((task) => task.id !== taskId)`. */
  function Remaining(ts: seq<Task>, id: string): seq<Task> {
    Filter(ts, (t: Task) => t.id != id)
  }

  /** The list after a fetch. */
  function LoadedTasks(o: Outcome<seq<ApiTask>>): (r: seq<Task>)
    ensures Settled(r)
    ensures o.Ok? && o.body != [] ==> |r| == |o.body| && forall i :: 0 <= i < |r| ==> r[i] == FormatTask(o.body[i])
    ensures !(o.Ok? && o.body != []) ==> r == DefaultTasks
  {
    if o.Ok? && o.body != [] then MapSeq(o.body, FormatTask) else DefaultTasks
  }

  /** The list after a successful add: the new task after the old list with
      every placeholder taken out. */
  function AddedTasks(ts: seq<Task>, a: ApiTask): (r: seq<Task>)
    ensures Settled(r) && NoneSynthetic(r)
    ensures r[|r| - 1] == FormatTask(a)
    ensures forall t :: t in r[..|r| - 1] <==> t in ts && !IsSynthetic(t.id)
    ensures NoneSynthetic(ts) ==> r == ts + [FormatTask(a)]
    ensures AllSynthetic(ts) ==> r == [FormatTask(a)]
  {
    var r := WithoutPlaceholders(ts) + [FormatTask(a)];
    assert r[..|r| - 1] == WithoutPlaceholders(ts);
    r
  }

  /** The list after a successful edit: exactly the entries with the selected
      id are replaced by the server's task; the others keep their value and
      place. */
  function EditedTasks(ts: seq<Task>, id: string, a: ApiTask): (r: seq<Task>)
    ensures |r| == |ts|
    ensures forall i :: 0 <= i < |ts| && ts[i].id == id ==> r[i] == FormatTask(a)
    ensures forall i :: 0 <= i < |ts| && ts[i].id != id ==> r[i] == ts[i]
  {
    MapSeq(ts, (t: Task) => if t.id == id then FormatTask(a) else t)
  }

  /** The list after a successful delete: every entry with the id removed,
      and the placeholder list if nothing is left. */
  function AfterDelete(ts: seq<Task>, id: string): (r: seq<Task>)
    ensures r != []
    ensures Remaining(ts, id) != [] ==> r == Remaining(ts, id)
    ensures Remaining(ts, id) == [] ==> r == DefaultTasks
    ensures forall t :: t in r ==> t.id != id || r == DefaultTasks
  {
    var rest := Remaining(ts, id);
    if rest == [] then DefaultTasks else rest
  }

  /** The first real task replaces the whole placeholder set. */
  lemma FirstTaskReplacesPlaceholder(a: ApiTask)
    ensures AddedTasks(DefaultTasks, a) == [FormatTask(a)]
  {
    assert AllSynthetic(DefaultTasks) by {
      assert DefaultTasks[0].id[..|SyntheticPrefix|] == SyntheticPrefix;
    }
  }

  /** An edit of a real id keeps the list settled: a real id matches no
      placeholder, and what replaces a real task is real. */
  lemma EditKeepsSettled(ts: seq<Task>, id: string, a: ApiTask)
    requires Settled(ts) && !IsSynthetic(id)
    ensures Settled(EditedTasks(ts, id, a))
  {
    var r := EditedTasks(ts, id, a);
    if AllSynthetic(ts) {
      forall t | t in r ensures IsSynthetic(t.id) {
        var i :| 0 <= i < |r| && r[i] == t;
        assert ts[i] in ts;
      }
    } else {
      forall t | t in r ensures !IsSynthetic(t.id) {
        var i :| 0 <= i < |r| && r[i] == t;
        assert ts[i] in ts;
      }
    }
  }

  /** A delete keeps the list settled, whatever the id. */
  lemma DeleteKeepsSettled(ts: seq<Task>, id: string)
    requires Settled(ts)
    ensures Settled(AfterDelete(ts, id))
  {
    assert AllSynthetic(DefaultTasks) by {
      assert DefaultTasks[0].id[..|SyntheticPrefix|] == SyntheticPrefix;
    }
  }

  /** A delete of an id the list does not hold changes nothing; in particular
      a real id leaves a placeholder list as it is. */
  lemma DeleteOfAbsentId(ts: seq<Task>, id: string)
    requires ts != [] && forall t :: t in ts ==> t.id != id
    ensures AfterDelete(ts, id) == ts
  {
  }

  class ProjectTimeline {
    var tasks: seq<Task>
    var loading: bool
    var showAddForm: bool
    var showEditForm: bool
    var selectedTask: Option<Task>
    var newTask: TaskForm

    /** Once loaded the list is settled; the edit form is open exactly when a
        task is selected, and a selected task is never a placeholder. The
        two modal flags are independent. */
    ghost predicate Valid()
      reads this
    {
      && (!loading ==> Settled(tasks))
      && (showEditForm <==> selectedTask.Some?)
      && (selectedTask.Some? ==> !IsSynthetic(selectedTask.value.id))
    }

    /** The initial state: no tasks, loading, both forms closed. */
    constructor ()
      ensures Valid()
      ensures tasks == [] && loading && !showAddForm && !showEditForm
      ensures selectedTask == None && newTask == EmptyForm
    {
      tasks := [];
      loading := true;
      showAddForm := false;
      showEditForm := false;
      selectedTask := None;
      newTask := EmptyForm;
    }

    /** `fetchTasks`: whatever the outcome, the list is settled and loading ends. */
    method FetchTasks(response: Outcome<seq<ApiTask>>) returns (sent: Request)
      requires Valid()
      modifies this
      ensures Valid()
      ensures sent == GetTasks
      ensures tasks == LoadedTasks(response) && !loading
      ensures unchanged(this`showAddForm, this`showEditForm, this`selectedTask, this`newTask)
    {
      sent := GetTasks;
      if response.Ok? && response.body != [] {
        tasks := MapSeq(response.body, FormatTask);
      } else {
        tasks := DefaultTasks;
      }
      loading := false;
    }

    /** `handleAddTask`: on success the new task is appended, the placeholders
        dropped, the form reset and closed; a failure changes nothing. */
    method HandleAddTask(response: Outcome<ApiTask>) returns (sent: Request)
      requires Valid()
      modifies this
      ensures Valid()
      ensures sent == PostTask(old(newTask), "task", false, DefaultStyles)
      ensures response.Ok? ==>
                && tasks == AddedTasks(old(tasks), response.body)
                && newTask == EmptyForm && !showAddForm
                && unchanged(this`loading, this`showEditForm, this`selectedTask)
      ensures !response.Ok? ==> unchanged(this)
    {
      sent := PostTask(newTask, "task", false, DefaultStyles);
      if response.Ok? {
        var formatted := FormatTask(response.body);
        tasks := WithoutPlaceholders(tasks) + [formatted];
        newTask := EmptyForm;
        showAddForm := false;
      }
    }

    /** `handleEditTask`: with no selected task nothing happens and nothing is
        sent; on success the entries with the selected id are replaced, and
        the selection and the edit form are cleared; a failure changes nothing. */
    method HandleEditTask(response: Outcome<ApiTask>) returns (sent: Option<Request>)
      requires Valid()
      modifies this
      ensures Valid()
      ensures old(selectedTask).None? ==> sent == None && unchanged(this)
      ensures old(selectedTask).Some? ==> sent == Some(PutTask(old(selectedTask).value.id, old(selectedTask).value))
      ensures old(selectedTask).Some? && response.Ok? ==>
                && tasks == EditedTasks(old(tasks), old(selectedTask).value.id, response.body)
                && selectedTask == None && !showEditForm
                && unchanged(this`loading, this`showAddForm, this`newTask)
      ensures !response.Ok? ==> unchanged(this)
    {
      if selectedTask.None? {
        return None;
      }
      var selected := selectedTask.value;
      sent := Some(PutTask(selected.id, selected));
      if response.Ok? {
        if !loading {
          EditKeepsSettled(tasks, selected.id, response.body);
        }
        tasks := EditedTasks(tasks, selected.id, response.body);
        selectedTask := None;
        showEditForm := false;
      }
    }

    /** `handleDeleteTask`: a placeholder id returns before any request; on
        success every entry with the id goes, and an emptied list becomes the
        placeholder list; a failure changes nothing. */
    method HandleDeleteTask(taskId: string, response: Outcome<()>) returns (sent: Option<Request>)
      requires Valid()
      modifies this
      ensures Valid()
      ensures IsSynthetic(taskId) ==> sent == None && unchanged(this)
      ensures !IsSynthetic(taskId) ==> sent == Some(DeleteTask(taskId))
      ensures !IsSynthetic(taskId) && response.Ok? ==>
                && tasks == AfterDelete(old(tasks), taskId)
                && unchanged(this`loading, this`showAddForm, this`showEditForm, this`selectedTask, this`newTask)
      ensures !response.Ok? ==> unchanged(this)
    {
      if IsSynthetic(taskId) {
        return None;
      }
      sent := Some(DeleteTask(taskId));
      if response.Ok? {
        if !loading {
          DeleteKeepsSettled(tasks, taskId);
        }
        tasks := AfterDelete(tasks, taskId);
      }
    }

    /** `handleTaskClick`: a placeholder changes nothing; a real task is
        selected and the edit form opens. */
    method HandleTaskClick(task: Task)
      requires Valid()
      modifies this
      ensures Valid()
      ensures IsSynthetic(task.id) ==> unchanged(this)
      ensures !IsSynthetic(task.id) ==>
                && selectedTask == Some(task) && showEditForm
                && unchanged(this`tasks, this`loading, this`showAddForm, this`newTask)
    {
      if IsSynthetic(task.id) {
        return;
      }
      selectedTask := Some(task);
      showEditForm := true;
    }

    /** The list's delete button: a placeholder or a declined `confirm` sends
        nothing; otherwise it is `handleDeleteTask`. */
    method DeleteButton(task: Task, confirmed: bool, response: Outcome<()>) returns (sent: Option<Request>)
      requires Valid()
      modifies this
      ensures Valid()
      ensures IsSynthetic(task.id) || !confirmed ==> sent == None && unchanged(this)
      ensures !IsSynthetic(task.id) && confirmed ==> sent == Some(DeleteTask(task.id))
      ensures !IsSynthetic(task.id) && confirmed && response.Ok? ==>
                && tasks == AfterDelete(old(tasks), task.id)
                && unchanged(this`loading, this`showAddForm, this`showEditForm, this`selectedTask, this`newTask)
      ensures !response.Ok? ==> unchanged(this)
    {
      if IsSynthetic(task.id) || !confirmed {
        return None;
      }
      sent := HandleDeleteTask(task.id, response);
    }

    /** The chart's double click: a placeholder changes nothing; otherwise it
        is `handleTaskClick`. */
    method ChartDoubleClick(task: Task)
      requires Valid()
      modifies this
      ensures Valid()
      ensures IsSynthetic(task.id) ==> unchanged(this)
      ensures !IsSynthetic(task.id) ==>
                && selectedTask == Some(task) && showEditForm
                && unchanged(this`tasks, this`loading, this`showAddForm, this`newTask)
    {
      if IsSynthetic(task.id) {
        return;
      }
      HandleTaskClick(task);
    }

    /** The "+ new task" button: opens the add form and nothing else. */
    method OpenAddForm()
      requires Valid()
      modifies this
      ensures Valid()
      ensures showAddForm
      ensures unchanged(this`tasks, this`loading, this`showEditForm, this`selectedTask, this`newTask)
    {
      showAddForm := true;
    }

    /** The add form's cancel button: closes it; the form keeps its contents. */
    method CancelAddForm()
      requires Valid()
      modifies this
      ensures Valid()
      ensures !showAddForm
      ensures unchanged(this`tasks, this`loading, this`showEditForm, this`selectedTask, this`newTask)
    {
      showAddForm := false;
    }

    /** The edit form's cancel button: clears the selection and closes the form. */
    method CancelEditForm()
      requires Valid()
      modifies this
      ensures Valid()
      ensures selectedTask == None && !showEditForm
      ensures unchanged(this`tasks, this`loading, this`showAddForm, this`newTask)
    {
      selectedTask := None;
      showEditForm := false;
    }

    /** An input of the add form changes the one field it is bound to. */
    method ChangeNewTask(input: FormInput)
      requires Valid()
      modifies this
      ensures Valid()
      ensures newTask == match input
        case NameInput(text) => old(newTask).(name := text)
        case StartInput(date) => old(newTask).(start := date.text)
        case EndInput(date) => old(newTask).(end := date.text)
        case ProgressInput(parsed) => old(newTask).(progress := ParsedProgress(parsed))
      ensures unchanged(this`tasks, this`loading, this`showAddForm, this`showEditForm, this`selectedTask)
    {
      match input {
        case NameInput(text) => newTask := newTask.(name := text);
        case StartInput(date) => newTask := newTask.(start := date.text);
        case EndInput(date) => newTask := newTask.(end := date.text);
        case ProgressInput(parsed) => newTask := newTask.(progress := ParsedProgress(parsed));
      }
    }

    /** An input of the edit form changes the one field of the selected task
        it is bound to; the id, and so the target of the edit, stays. The edit
        form is only on screen while a task is selected. */
    method ChangeSelectedTask(input: FormInput)
      requires Valid() && selectedTask.Some?
      modifies this
      ensures Valid()
      ensures selectedTask.Some? && selectedTask.value.id == old(selectedTask).value.id
      ensures selectedTask.value == match input
        case NameInput(text) => old(selectedTask).value.(name := text)
        case StartInput(date) => old(selectedTask).value.(start := date.instant)
        case EndInput(date) => old(selectedTask).value.(end := date.instant)
        case ProgressInput(parsed) => old(selectedTask).value.(progress := ParsedProgress(parsed))
      ensures unchanged(this`tasks, this`loading, this`showAddForm, this`showEditForm, this`newTask)
    {
      var t := selectedTask.value;
      match input {
        case NameInput(text) => t := t.(name := text);
        case StartInput(date) => t := t.(start := date.instant);
        case EndInput(date) => t := t.(end := date.instant);
        case ProgressInput(parsed) => t := t.(progress := ParsedProgress(parsed));
      }
      selectedTask := Some(t);
    }
  }
}
