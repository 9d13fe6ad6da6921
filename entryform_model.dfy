/**
 * The state of the entry-form wizard (internal/ui/components/entryform): the
 * `Model` struct, the messages it reacts to, the commands it hands back to
 * the program, and the two package-level validation strings.
 */
module FormModel {
  import opened Models
  import opened TextInput

  /** The seven screens, in order (`stepDateSelect` ... `stepComplete`). */
  const DateSelect: int := 0
  const DescriptionInput: int := 1
  const ProjectSelect: int := 2
  const TaskInput: int := 3
  const TimeInput: int := 4
  const Confirm: int := 5
  const Complete: int := 6

  /**
   * `entryform.Model`. The date is a day number. `selectedProjIndex` is the
   * source's `selectedProjID`, which holds an index. The view-only fields
   * (`StepLines`, `selected`, `err`, `success`) are not modelled.
   */
  datatype Form = Form(
    apiKey: string,
    workspaceId: string,
    step: int,
    projects: seq<Project>,
    tasks: seq<Task>,
    tasksReady: bool,
    cursor: nat,
    date: int,
    timeStart: Input,
    timeEnd: Input,
    description: Input,
    task: Input,
    projectSearch: Input,
    selectedProj: Project,
    selectedProjIndex: int,
    selectedTask: Task,
    selectedEntry: Entry,
    editing: bool,
    submitting: bool)

  /** What reaches `Update`: a key, a loaded task list, or anything else (window size, blink). */
  datatype Msg =
    | KeyMsg(key: Key)
    | TasksLoadedMsg(loaded: seq<Task>)
    | OtherMsg

  /** The arguments `createTimeEntry` and `updateTimeEntry` pass on to the client. */
  datatype EntryArgs = EntryArgs(
    apiKey: string,
    workspaceId: string,
    projectId: string,
    taskId: string,
    description: string,
    startTime: string,
    endTime: string,
    date: int)

  /** The non-nil commands the form returns; cursor-blink commands are `NoCmd`. */
  datatype Cmd =
    | NoCmd
    | FetchTasks(fetchKey: string, fetchWorkspace: string, fetchProject: string)
    | CreateTimeEntry(create: EntryArgs)
    | UpdateTimeEntry(entryId: string, update: EntryArgs)
    | ModalClosed

  /** The package variables `timeStartErr` and `timeEndErr`, as a value. */
  datatype Errors = Errors(timeStartErr: string, timeEndErr: string)

  const NoErrors: Errors := Errors("", "")

  predicate HasErrors(e: Errors) {
    e.timeStartErr != "" || e.timeEndErr != ""
  }

  /** The same two package variables, as the mutable state the handlers write. */
  class Globals {
    var timeStartErr: string
    var timeEndErr: string

    constructor ()
      ensures timeStartErr == "" && timeEndErr == ""
    {
      timeStartErr := "";
      timeEndErr := "";
    }

    function Errs(): Errors
      reads this
    {
      Errors(timeStartErr, timeEndErr)
    }
  }

  /** `msg` is the key `k`. */
  predicate Pressed(msg: Msg, k: Key) {
    msg.KeyMsg? && msg.key == k
  }

  /** Feeds a message to a text input: only keys reach it. */
  function Feed(t: Input, msg: Msg): (r: Input)
    ensures !msg.KeyMsg? ==> r == t
    ensures msg.KeyMsg? ==> r == KeyUpdate(t, msg.key)
  {
    match msg
    case KeyMsg(k) => KeyUpdate(t, k)
    case _ => t
  }

  /** The character limits `New` gives the five inputs. */
  predicate Configured(m: Form) {
    m.timeStart.charLimit == 8 && m.timeEnd.charLimit == 8 &&
    m.description.charLimit == 100 && m.task.charLimit == 100 &&
    m.projectSearch.charLimit == 0
  }
}
