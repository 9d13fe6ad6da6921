/** The task screen of the entry form (4_step_taskselect.go). */
module TaskStep {
  import opened Wrappers
  import opened Models
  import opened TextInput
  import opened FormModel

  /**
   * The selection as `updateTaskInput` writes it: with a non-empty list it
   * indexes `tasks[cursor]` without a bounds check, which panics when the
   * cursor is past the end. `None` stands for that panic.
   */
  function SelectTaskAsWritten(tasks: seq<Task>, cursor: nat, selected: Task): (r: Option<Task>)
    ensures r.None? <==> 0 < |tasks| <= cursor
    ensures tasks == [] ==> r == Some(selected)
    ensures r.Some? && tasks != [] ==> r.value == tasks[cursor]
  {
    if |tasks| > 0 then
      if cursor < |tasks| then Some(tasks[cursor]) else None
    else Some(selected)
  }

  /**
   * The selection as intended: the task under the cursor when there is one,
   * and the previous selection otherwise. The rest of the model uses this.
   */
  function SelectTask(tasks: seq<Task>, cursor: nat, selected: Task): (r: Task)
    ensures r == selected || r in tasks
    ensures cursor < |tasks| ==> r == tasks[cursor]
    ensures cursor >= |tasks| ==> r == selected
  {
    if cursor < |tasks| then tasks[cursor] else selected
  }

  /** Wherever the source does not panic, the corrected selection is the source's. */
  lemma SelectTaskAgrees(tasks: seq<Task>, cursor: nat, selected: Task)
    ensures SelectTaskAsWritten(tasks, cursor, selected).Some? ==>
      SelectTaskAsWritten(tasks, cursor, selected).value == SelectTask(tasks, cursor, selected)
  {
  }

  /** A one-task list (one task plus "No Task") and a cursor left at 2 make the source panic. */
  lemma SelectTaskPanics(t: Task, selected: Task)
    ensures SelectTaskAsWritten([t, NoTask], 2, selected).None?
  {
  }

  /**
   * `updateTaskInput`. Up/"k" and down/"j" move the cursor within the task
   * list; enter records the task under the cursor (the code panics when the
   * cursor is past the end; here the selection is then kept), blurs the task field,
   * focuses the start time and moves to the time screen, whether or not the
   * tasks have arrived. Every message then reaches the task field.
   */
  function TaskSelectStep(m: Form, msg: Msg): (r: Form)
    ensures Configured(m) ==> Configured(r)
    ensures (Pressed(msg, Up) || Pressed(msg, Rune('k'))) ==>
      r == m.(cursor := if m.cursor > 0 then m.cursor - 1 else m.cursor, task := Feed(m.task, msg))
    ensures (Pressed(msg, Down) || Pressed(msg, Rune('j'))) ==>
      r == m.(cursor := if m.cursor < |m.tasks| - 1 then m.cursor + 1 else m.cursor, task := Feed(m.task, msg))
    ensures Pressed(msg, Enter) ==>
      r == m.(selectedTask := SelectTask(m.tasks, m.cursor, m.selectedTask),
              task := Feed(Blur(m.task), msg), timeStart := Focus(m.timeStart), step := TimeInput)
    ensures !(Pressed(msg, Up) || Pressed(msg, Rune('k')) || Pressed(msg, Down) || Pressed(msg, Rune('j')) || Pressed(msg, Enter)) ==>
      r == m.(task := Feed(m.task, msg))
  {
    if Pressed(msg, Up) || Pressed(msg, Rune('k')) then
      var m1 := if m.cursor > 0 then m.(cursor := m.cursor - 1) else m;
      m1.(task := Feed(m1.task, msg))
    else if Pressed(msg, Down) || Pressed(msg, Rune('j')) then
      var m1 := if m.cursor < |m.tasks| - 1 then m.(cursor := m.cursor + 1) else m;
      m1.(task := Feed(m1.task, msg))
    else if Pressed(msg, Enter) then
      var m1 := m.(selectedTask := SelectTask(m.tasks, m.cursor, m.selectedTask),
                   task := Blur(m.task), timeStart := Focus(m.timeStart), step := TimeInput);
      m1.(task := Feed(m1.task, msg))
    else
      m.(task := Feed(m.task, msg))
  }

  method UpdateTaskInput(m: Form, msg: Msg) returns (r: Form, cmd: Cmd)
    ensures r == TaskSelectStep(m, msg) && cmd == NoCmd
  {
    r := m;
    if msg.KeyMsg? {
      var k := msg.key;
      if k == Up || k == Rune('k') {
        if r.cursor > 0 {
          r := r.(cursor := r.cursor - 1);
        }
      } else if k == Down || k == Rune('j') {
        if r.cursor < |r.tasks| - 1 {
          r := r.(cursor := r.cursor + 1);
        }
      } else if k == Enter {
        if r.cursor < |r.tasks| {
          r := r.(selectedTask := r.tasks[r.cursor]);
        }
        r := r.(task := Blur(r.task));
        r := r.(timeStart := Focus(r.timeStart));
        r := r.(step := TimeInput);
      }
    }
    r := r.(task := Feed(r.task, msg));
    cmd := NoCmd;
  }

  /** The arrow keys keep a cursor that starts inside the task list inside it. */
  lemma TaskCursorStaysInList(m: Form, msg: Msg)
    requires Pressed(msg, Up) || Pressed(msg, Rune('k')) || Pressed(msg, Down) || Pressed(msg, Rune('j'))
    requires m.cursor < |m.tasks|
    ensures TaskSelectStep(m, msg).cursor < |TaskSelectStep(m, msg).tasks|
    ensures TaskSelectStep(m, msg).step == m.step && TaskSelectStep(m, msg).selectedTask == m.selectedTask
  {
  }
}
