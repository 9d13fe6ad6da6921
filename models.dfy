/**
 * The record types of internal/models and internal/config.
 *
 * Time is modelled as wall-clock values in the viewer's zone: a day number
 * (day 0 is a Sunday, so `day % 7` is the Go weekday) and a minute of that day.
 */
module Models {

  /** Minutes in one day; a clock reading is a minute in [0, MinutesPerDay). */
  const MinutesPerDay: int := 24 * 60

  type MinuteOfDay = x: int | 0 <= x < 24 * 60

  /** A `time.Time` read in the viewer's zone, without seconds. */
  datatype Stamp = Stamp(day: int, minute: MinuteOfDay)

  /** Stands for Go's zero `time.Time`. */
  const ZeroStamp: Stamp := Stamp(0, 0)

  /** `models.IntervalTime`; `duration` is the server's ISO 8601 duration text (e.g. "PT1H30M"). */
  datatype IntervalTime = IntervalTime(start: Stamp, end: Stamp, duration: string)

  /** `models.Entry`. */
  datatype Entry = Entry(
    id: string,
    description: string,
    projectId: string,
    taskId: string,
    timeInterval: IntervalTime,
    workspaceId: string,
    userId: string,
    billable: bool,
    tagIds: seq<string>)

  /** `models.Task`: the two fields the modelled code reads. */
  datatype Task = Task(id: string, name: string)

  /** `models.Project`. */
  datatype Project = Project(
    id: string,
    name: string,
    clientId: string,
    clientName: string,
    workspaceId: string,
    color: string,
    isBillable: bool,
    isArchived: bool,
    tasks: seq<Task>)

  /** `models.Workspace`: the two fields the modelled code reads. */
  datatype Workspace = Workspace(id: string, name: string)

  /** `config.Config`. */
  datatype Config = Config(apiKey: string, userId: string, workspaceId: string, workspaceName: string)

  const ZeroEntry: Entry := Entry("", "", "", "", IntervalTime(ZeroStamp, ZeroStamp, ""), "", "", false, [])
  const ZeroProject: Project := Project("", "", "", "", "", "", false, false, [])
  const ZeroTask: Task := Task("", "")

  /** The synthetic "no task" choice appended to every loaded task list. */
  const NoTask: Task := Task("", "No Task")
}
