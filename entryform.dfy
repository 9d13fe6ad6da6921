/**
 * The entry-form wizard as a whole (entryform.go): construction, pre-filling
 * from an existing entry, and `Update`, which first handles tab, shift+tab,
 * enter and esc for the whole form and then, unless it has already returned,
 * hands the same message to the handler of the step the form is on now.
 */
module EntryForm {
  import opened Wrappers
  import opened Models
  import opened TextInput
  import opened Helpers
  import opened FormModel
  import opened DateStep
  import opened DescriptionStep
  import opened ProjectStep
  import opened TaskStep
  import opened TimeStep
  import opened ConfirmStep

  // ---------------------------------------------------------------------------
  // Construction
  // ---------------------------------------------------------------------------

  /** The form `New` returns on day `today`. */
  function NewForm(cfg: Config, projects: seq<Project>, today: int): (m: Form)
    ensures m.apiKey == cfg.apiKey && m.workspaceId == cfg.workspaceId && m.projects == projects
    ensures m.step == DateSelect && m.cursor == 0 && m.date == today
    ensures !m.editing && !m.tasksReady && !m.submitting && m.tasks == []
    ensures Configured(m)
    ensures m.timeStart.value == m.timeEnd.value == m.description.value == m.task.value == m.projectSearch.value == ""
    ensures !m.timeStart.focused && !m.timeEnd.focused && !m.description.focused && !m.task.focused && !m.projectSearch.focused
    ensures m.selectedProj == ZeroProject && m.selectedTask == ZeroTask && m.selectedEntry == ZeroEntry
  {
    Form(cfg.apiKey, cfg.workspaceId, DateSelect, projects, [], false, 0, today,
         NewInput(8), NewInput(8), NewInput(100), NewInput(100), NewInput(0),
         ZeroProject, 0, ZeroTask, ZeroEntry, false, false)
  }

  /** `New`: configures the five inputs one by one, then assembles the form. */
  method New(cfg: Config, projects: seq<Project>, today: int) returns (m: Form)
    ensures m == NewForm(cfg, projects, today)
  {
    var timeStartInput := NewInput(0);
    timeStartInput := timeStartInput.(charLimit := 8);
    var timeEndInput := NewInput(0);
    timeEndInput := timeEndInput.(charLimit := 8);
    var descriptionInput := NewInput(0);
    descriptionInput := descriptionInput.(charLimit := 100);
    var taskInput := NewInput(0);
    taskInput := taskInput.(charLimit := 100);
    var searchInput := NewInput(0);
    m := Form(cfg.apiKey, cfg.workspaceId, DateSelect, projects, [], false, 0, today,
              timeStartInput, timeEndInput, descriptionInput, taskInput, searchInput,
              ZeroProject, 0, ZeroTask, ZeroEntry, false, false);
  }

  /** `SetProjects`: replaces the project list and nothing else. */
  function SetProjects(m: Form, projects: seq<Project>): (r: Form)
    ensures r.projects == projects
    ensures r.(projects := m.projects) == m
  {
    m.(projects := projects)
  }

  /** `getLines`: the number of newline characters in `s`. */
  function GetLines(s: string): (n: nat)
    ensures n == multiset(s)['\n']
    ensures n <= |s|
    decreases |s|
  {
    if s == [] then 0
    else
      assert s == [s[0]] + s[1..];
      (if s[0] == '\n' then 1 else 0) + GetLines(s[1..])
  }

  /** Lines joined with newlines count one less than there are lines. */
  lemma {:induction false} GetLinesOfJoin(lines: seq<string>)
    requires |lines| >= 1
    requires forall k :: 0 <= k < |lines| ==> '\n' !in lines[k]
    ensures GetLines(GoStrings.Join(lines, '\n')) == |lines| - 1
    decreases |lines|
  {
    if |lines| > 1 {
      GetLinesOfJoin(lines[1..]);
      assert multiset(lines[0])['\n'] == 0;
    } else {
      assert multiset(lines[0])['\n'] == 0;
    }
  }

  // ---------------------------------------------------------------------------
  // Pre-filling from an existing entry
  // ---------------------------------------------------------------------------

  /**
   * The form `UpdateEntry(e)` returns: editing mode, the entry and its start
   * day, its description, its start and end clock readings in the "3:04 PM"
   * layout, and, when some project has the entry's project id, the first
   * such project as the selection and its index as both `selectedProjIndex`
   * and the cursor. When none matches those three are left as they were.
   */
  function Prefilled(m: Form, e: Entry): (r: Form)
    ensures r.editing && r.selectedEntry == e && r.date == e.timeInterval.start.day
    ensures r.description == SetValue(m.description, e.description)
    ensures r.timeStart == SetValue(m.timeStart, Kitchen(e.timeInterval.start.minute))
    ensures r.timeEnd == SetValue(m.timeEnd, Kitchen(e.timeInterval.end.minute))
    ensures (forall j :: 0 <= j < |m.projects| ==> m.projects[j].id != e.projectId) ==>
      r.selectedProj == m.selectedProj && r.selectedProjIndex == m.selectedProjIndex && r.cursor == m.cursor
    ensures forall i :: (0 <= i < |m.projects| && m.projects[i].id == e.projectId &&
                         forall j :: 0 <= j < i ==> m.projects[j].id != e.projectId) ==>
      r.selectedProj == m.projects[i] && r.selectedProjIndex == i && r.cursor == i
    ensures r.step == m.step && r.projects == m.projects && r.tasks == m.tasks
  {
    var m1 := m.(editing := true, selectedEntry := e, date := e.timeInterval.start.day,
                 description := SetValue(m.description, e.description),
                 timeStart := SetValue(m.timeStart, Kitchen(e.timeInterval.start.minute)),
                 timeEnd := SetValue(m.timeEnd, Kitchen(e.timeInterval.end.minute)));
    match FirstProjectIndex(m.projects, e.projectId)
    case None => m1
    case Some(i) => m1.(selectedProj := m.projects[i], selectedProjIndex := i, cursor := i)
  }

  /** `UpdateEntry`: sets the fields, then runs the two first-match loops of the source. */
  method UpdateEntry(m: Form, entry: Entry) returns (r: Form)
    ensures r == Prefilled(m, entry)
  {
    r := m;
    r := r.(editing := true);
    r := r.(selectedEntry := entry);
    r := r.(date := entry.timeInterval.start.day);
    r := r.(description := SetValue(r.description, entry.description));
    var startStr := Kitchen(entry.timeInterval.start.minute);
    var endStr := Kitchen(entry.timeInterval.end.minute);
    r := r.(timeStart := SetValue(r.timeStart, startStr));
    r := r.(timeEnd := SetValue(r.timeEnd, endStr));
    r := SelectEntryProject(r, entry.projectId);
    r := PointCursorAtProject(r, entry.projectId);
  }

  /** The first loop of `UpdateEntry`: the first project with the entry's project id becomes the selection. */
  method SelectEntryProject(m: Form, id: string) returns (r: Form)
    ensures FirstProjectIndex(m.projects, id).None? ==> r == m
    ensures FirstProjectIndex(m.projects, id).Some? ==>
      r == m.(selectedProj := m.projects[FirstProjectIndex(m.projects, id).value],
              selectedProjIndex := FirstProjectIndex(m.projects, id).value)
  {
    r := m;
    var i := 0;
    while i < |r.projects|
      invariant 0 <= i <= |r.projects| && r == m
      invariant forall j :: 0 <= j < i ==> r.projects[j].id != id
    {
      if r.projects[i].id == id {
        r := r.(selectedProj := r.projects[i], selectedProjIndex := i);
        break;
      }
      i := i + 1;
    }
  }

  /** The second loop of `UpdateEntry`: the cursor goes to the first project with the entry's project id. */
  method PointCursorAtProject(m: Form, id: string) returns (r: Form)
    ensures FirstProjectIndex(m.projects, id).None? ==> r == m
    ensures FirstProjectIndex(m.projects, id).Some? ==> r == m.(cursor := FirstProjectIndex(m.projects, id).value)
  {
    r := m;
    var k := 0;
    while k < |r.projects|
      invariant 0 <= k <= |r.projects| && r == m
      invariant forall j :: 0 <= j < k ==> r.projects[j].id != id
    {
      if r.projects[k].id == id {
        r := r.(cursor := k);
        break;
      }
      k := k + 1;
    }
  }

  /** A clock reading fits the eight characters the time fields accept. */
  lemma KitchenFits(t: MinuteOfDay)
    ensures |Kitchen(t)| <= 8
  {
  }

  /**
   * Editing round trip: the start and end texts that `UpdateEntry` writes
   * parse back, on the form's date, to the entry's own start and end minutes.
   */
  lemma PrefillParsesBack(m: Form, e: Entry)
    requires Configured(m)
    ensures var r := Prefilled(m, e);
      ParsesTo(r.timeStart.value, r.date, r.date * MinutesPerDay + e.timeInterval.start.minute) &&
      ParsesTo(r.timeEnd.value, r.date, r.date * MinutesPerDay + e.timeInterval.end.minute)
  {
    var r := Prefilled(m, e);
    KitchenFits(e.timeInterval.start.minute);
    KitchenFits(e.timeInterval.end.minute);
    ParseKitchen(e.timeInterval.start.minute, r.date);
    ParseKitchen(e.timeInterval.end.minute, r.date);
  }

  /** Pre-filled times pass validation whenever the entry ends later in its start day. */
  lemma PrefillValidates(m: Form, e: Entry)
    requires Configured(m)
    requires e.timeInterval.end.minute > e.timeInterval.start.minute
    ensures !HasErrors(Check(Prefilled(m, e)))
  {
    PrefillParsesBack(m, e);
  }

  // ---------------------------------------------------------------------------
  // Update
  // ---------------------------------------------------------------------------

  /**
   * The second stage of `Update`: the handler of the form's current step.
   * Confirm has none, and the completion handler returns the form unchanged.
   * Every handler's command is nil or a cursor blink, so none is returned.
   */
  function Dispatch(m: Form, errs: Errors, msg: Msg, today: int): (r: (Form, Errors))
    ensures m.step !in {DateSelect, DescriptionInput, ProjectSelect, TaskInput, TimeInput} ==> r == (m, errs)
    ensures m.step != TimeInput ==> r.1 == errs
  {
    if m.step == DateSelect then (DateSelectStep(m, msg, today), errs)
    else if m.step == DescriptionInput then (DescriptionInputStep(m, msg), errs)
    else if m.step == ProjectSelect then (ProjectSelectStep(m, msg), errs)
    else if m.step == TimeInput then TimeInputStep(m, errs, msg)
    else if m.step == TaskInput then (TaskSelectStep(m, msg), errs)
    else (m, errs)
  }

  /**
   * Where the first stage of `Update` leaves things: the form, the error
   * strings, the command collected so far, and whether the case returned.
   */
  datatype Stage = Stage(form: Form, errs: Errors, cmd: Cmd, returned: bool)

  /** Tab: ignored while the search field has focus; see `TabForward`. */
  function TabStage(m: Form, errs: Errors): (s: Stage)
    ensures Configured(m) ==> Configured(s.form)
    ensures s.errs == errs && s.cmd == NoCmd
    ensures m.projectSearch.focused ==> s == Stage(m, errs, NoCmd, false)
    ensures !m.projectSearch.focused && m.step == TimeInput ==> s == Stage(SwapTimeFocus(m), errs, NoCmd, true)
    ensures !m.projectSearch.focused && m.step == ProjectSelect && m.selectedProj.id == "" ==> s == Stage(m, errs, NoCmd, true)
  {
    if m.projectSearch.focused then Stage(m, errs, NoCmd, false)
    else if m.step == TimeInput then Stage(SwapTimeFocus(m), errs, NoCmd, true)
    else if m.step == ProjectSelect && m.selectedProj.id == "" then Stage(m, errs, NoCmd, true)
    else Stage(TabForward(m), errs, NoCmd, false)
  }

  /** Tab, outside of the search field, the time screen and an unchosen project. */
  function TabForward(m: Form): (r: Form)
    ensures r.step == if m.step < Confirm then m.step + 1 else m.step
    ensures r.timeStart.focused == (m.timeStart.focused || m.step == TaskInput)
  {
    var m1 := if m.step == TaskInput then m.(timeStart := Focus(m.timeStart)) else m;
    if m1.step < Confirm then m1.(step := m1.step + 1) else m1
  }

  method HandleTab(m: Form, g: Globals) returns (r: Form, returned: bool)
    ensures Stage(r, g.Errs(), NoCmd, returned) == TabStage(m, g.Errs())
  {
    r := m;
    returned := false;
    if r.projectSearch.focused {
      return;
    }
    if r.step == TaskInput {
      r := r.(timeStart := Focus(r.timeStart));
    } else if r.step == TimeInput {
      if r.timeStart.focused {
        r := r.(timeStart := Blur(r.timeStart));
        r := r.(timeEnd := Focus(r.timeEnd));
      } else {
        r := r.(timeEnd := Blur(r.timeEnd));
        r := r.(timeStart := Focus(r.timeStart));
      }
      returned := true;
      return;
    } else if r.step == ProjectSelect {
      if r.selectedProj.id == "" {
        returned := true;
        return;
      }
    }
    if r.step < Confirm {
      r := r.(step := r.step + 1);
    }
  }

  /** Shift+tab: ignored while the search field has focus; otherwise one step back. */
  function ShiftTabStage(m: Form, errs: Errors): (s: Stage)
    ensures Configured(m) ==> Configured(s.form)
    ensures !s.returned && s.cmd == NoCmd
    ensures m.projectSearch.focused ==> s == Stage(m, errs, NoCmd, false)
    ensures !m.projectSearch.focused ==> s.form.step == if m.step > DateSelect then m.step - 1 else m.step
    ensures !m.projectSearch.focused ==> s.errs == if m.step == ProjectSelect then NoErrors else errs
    ensures m.projectSearch.focused || m.step != ProjectSelect ==> s.errs == errs
  {
    if m.projectSearch.focused then Stage(m, errs, NoCmd, false)
    else
      var m1 :=
        if m.step == ProjectSelect then m.(description := Focus(m.description))
        else if m.step == TimeInput then m.(timeStart := Blur(m.timeStart), timeEnd := Blur(m.timeEnd))
        else m;
      var e1 := if m.step == ProjectSelect then NoErrors else errs;
      Stage(if m1.step > DateSelect then m1.(step := m1.step - 1) else m1, e1, NoCmd, false)
  }

  method HandleShiftTab(m: Form, g: Globals) returns (r: Form)
    modifies g
    ensures Stage(r, g.Errs(), NoCmd, false) == ShiftTabStage(m, old(g.Errs()))
  {
    r := m;
    if r.projectSearch.focused {
      return;
    }
    if r.step == ProjectSelect {
      g.timeStartErr := "";
      g.timeEndErr := "";
      r := r.(description := Focus(r.description));
    } else if r.step == TimeInput {
      r := r.(timeStart := Blur(r.timeStart));
      r := r.(timeEnd := Blur(r.timeEnd));
    }
    if r.step > DateSelect {
      r := r.(step := r.step - 1);
    }
  }

  /** Enter on the project screen with the search field unfocused. */
  function PickProject(m: Form): (r: Form)
    ensures m.cursor < |Filtered(m)| ==>
      r == m.(selectedProj := Filtered(m)[m.cursor], task := Focus(m.task), cursor := 0,
              tasks := [], tasksReady := false, step := TaskInput)
    ensures m.cursor >= |Filtered(m)| ==> r == m
  {
    var filtered := Filtered(m);
    if |filtered| > 0 && m.cursor < |filtered| then
      m.(selectedProj := filtered[m.cursor], task := Focus(m.task), cursor := 0,
         tasks := [], tasksReady := false, step := TaskInput)
    else m
  }

  /** The project-screen case of enter in `Update`, statement by statement. */
  method SelectFilteredProject(m: Form) returns (r: Form)
    ensures r == PickProject(m)
  {
    r := m;
    var filtered := FilterProjects(r.projects, r.projectSearch.value);
    if |filtered| > 0 && r.cursor < |filtered| {
      r := r.(selectedProj := filtered[r.cursor]);
      r := r.(task := Focus(r.task));
      r := r.(cursor := 0);
      r := r.(tasks := []);
      r := r.(tasksReady := false);
      r := r.(step := TaskInput);
    }
  }

  /**
   * Enter: each step's case of the global switch. On the task screen the
   * selection is `SelectTask`, which keeps the old selection where the code
   * would panic on a cursor past the end of the task list.
   */
  function EnterStage(m: Form, errs: Errors): (s: Stage)
    ensures Configured(m) ==> Configured(s.form)
    ensures m.step == ProjectSelect ==> s.returned && s.errs == errs
    ensures m.step == ProjectSelect && !m.projectSearch.focused ==>
      s.form == PickProject(m) && s.cmd == FetchTasks(m.apiKey, m.workspaceId, s.form.selectedProj.id)
    ensures m.step == TimeInput ==> s.errs == Check(m) && s.returned == HasErrors(Check(m))
    ensures m.step == Confirm ==> s == Stage(m.(submitting := true, step := Complete), errs, SubmitCmd(m), false)
    ensures m.step == Complete ==> s == Stage(m, errs, ModalClosed, false)
  {
    if m.step == DateSelect then
      Stage(m.(step := DescriptionInput, description := Focus(m.description)), errs, NoCmd, false)
    else if m.step == DescriptionInput then
      Stage(m.(description := Blur(m.description), step := ProjectSelect), errs, NoCmd, false)
    else if m.step == ProjectSelect then
      if m.projectSearch.focused then Stage(m.(projectSearch := Blur(m.projectSearch), cursor := 0), errs, NoCmd, true)
      else
        var p := PickProject(m);
        Stage(p, errs, FetchTasks(p.apiKey, p.workspaceId, p.selectedProj.id), true)
    else if m.step == TaskInput then
      Stage(m.(selectedTask := SelectTask(m.tasks, m.cursor, m.selectedTask), task := Blur(m.task),
               step := TimeInput, timeStart := Focus(m.timeStart)), errs, NoCmd, false)
    else if m.step == TimeInput then
      var e := Check(m);
      if HasErrors(e) then Stage(m, e, NoCmd, true)
      else Stage(m.(timeEnd := Blur(m.timeEnd), timeStart := Blur(m.timeStart), step := Confirm), e, NoCmd, false)
    else if m.step == Confirm then
      Stage(m.(submitting := true, step := m.step + 1), errs, SubmitCmd(m), false)
    else if m.step == Complete then
      Stage(m, errs, ModalClosed, false)
    else
      Stage(m, errs, NoCmd, false)
  }

  method HandleEnter(m: Form, g: Globals) returns (r: Form, cmd: Cmd, returned: bool)
    modifies g
    ensures Stage(r, g.Errs(), cmd, returned) == EnterStage(m, old(g.Errs()))
  {
    r := m;
    cmd := NoCmd;
    returned := false;
    if r.step == DateSelect {
      r := r.(step := DescriptionInput);
      r := r.(description := Focus(r.description));
    } else if r.step == DescriptionInput {
      r := r.(description := Blur(r.description));
      r := r.(step := ProjectSelect);
    } else if r.step == ProjectSelect {
      returned := true;
      if r.projectSearch.focused {
        r := r.(projectSearch := Blur(r.projectSearch));
        r := r.(cursor := 0);
        return;
      }
      r := SelectFilteredProject(r);
      cmd := FetchTasks(r.apiKey, r.workspaceId, r.selectedProj.id);
    } else if r.step == TaskInput {
      if r.cursor < |r.tasks| {
        r := r.(selectedTask := r.tasks[r.cursor]);
      }
      r := r.(task := Blur(r.task));
      r := r.(step := TimeInput);
      r := r.(timeStart := Focus(r.timeStart));
    } else if r.step == TimeInput {
      g.timeStartErr := "";
      g.timeEndErr := "";
      Validate(r, g);
      if g.timeStartErr != "" || g.timeEndErr != "" {
        returned := true;
        return;
      }
      r := r.(timeEnd := Blur(r.timeEnd));
      r := r.(timeStart := Blur(r.timeStart));
      r := r.(step := Confirm);
    } else if r.step == Confirm {
      r := r.(submitting := true);
      r := r.(step := r.step + 1);
      cmd := SubmitCmd(r);
    } else if r.step == Complete {
      cmd := ModalClosed;
    }
  }

  /** The first stage of `Update`: loaded tasks, then esc, tab, shift+tab and enter. */
  function GlobalStage(m: Form, errs: Errors, msg: Msg, today: int): (s: Stage)
    ensures msg.TasksLoadedMsg? ==> s == Stage(m.(tasks := msg.loaded + [NoTask], tasksReady := true), errs, NoCmd, true)
    ensures Pressed(msg, Esc) ==> s == Stage(NewForm(Config(m.apiKey, "", m.workspaceId, ""), m.projects, today), NoErrors, NoCmd, false)
    ensures msg.OtherMsg? || (msg.KeyMsg? && msg.key !in {Esc, Tab, ShiftTab, Enter}) ==> s == Stage(m, errs, NoCmd, false)
  {
    match msg
    case TasksLoadedMsg(loaded) => Stage(m.(tasks := loaded + [NoTask], tasksReady := true), errs, NoCmd, true)
    case OtherMsg => Stage(m, errs, NoCmd, false)
    case KeyMsg(k) =>
      if k == Esc then Stage(NewForm(Config(m.apiKey, "", m.workspaceId, ""), m.projects, today), NoErrors, NoCmd, false)
      else if k == Tab then TabStage(m, errs)
      else if k == ShiftTab then ShiftTabStage(m, errs)
      else if k == Enter then EnterStage(m, errs)
      else Stage(m, errs, NoCmd, false)
  }

  /**
   * `Update`, as a function of the form, the two error strings, the message
   * and the current day: the new form, the new error strings and the command.
   * A case that returns skips the step handler; otherwise the handler of the
   * step the first stage left the form on runs with the same message.
   */
  function Transition(m: Form, errs: Errors, msg: Msg, today: int): (r: (Form, Errors, Cmd))
    ensures var s := GlobalStage(m, errs, msg, today);
      r.2 == s.cmd && (s.returned ==> r.0 == s.form && r.1 == s.errs)
  {
    var s := GlobalStage(m, errs, msg, today);
    if s.returned then (s.form, s.errs, s.cmd)
    else
      var d := Dispatch(s.form, s.errs, msg, today);
      (d.0, d.1, s.cmd)
  }

  /** The second stage of `Update`, calling each step's handler method. */
  method DispatchStep(m: Form, g: Globals, msg: Msg, today: int) returns (r: Form)
    modifies g
    ensures (r, g.Errs()) == Dispatch(m, old(g.Errs()), msg, today)
  {
    var cmd: Cmd;
    if m.step == DateSelect {
      r, cmd := UpdateDateSelect(m, msg, today);
    } else if m.step == DescriptionInput {
      r, cmd := UpdateDescriptionInput(m, msg);
    } else if m.step == ProjectSelect {
      r, cmd := UpdateProjectSelect(m, msg);
    } else if m.step == TimeInput {
      r, cmd := UpdateTimeInput(m, g, msg);
    } else if m.step == TaskInput {
      r, cmd := UpdateTaskInput(m, msg);
    } else {
      r := m;
    }
  }

  /**
   * `Update`: the global switch on a copy of the form, writing the package
   * error strings held by `g`, then the step handler unless a case returned.
   */
  method Update(m: Form, g: Globals, msg: Msg, today: int) returns (r: Form, cmd: Cmd)
    modifies g
    ensures (r, g.Errs(), cmd) == Transition(m, old(g.Errs()), msg, today)
  {
    r := m;
    cmd := NoCmd;
    var returned := false;
    match msg {
      case TasksLoadedMsg(loaded) =>
        r := r.(tasks := loaded + [NoTask]);
        r := r.(tasksReady := true);
        return;
      case OtherMsg =>
      case KeyMsg(k) =>
        if k == Esc {
          r := New(Config(r.apiKey, "", r.workspaceId, ""), r.projects, today);
          g.timeStartErr := "";
          g.timeEndErr := "";
        } else if k == Tab {
          r, returned := HandleTab(r, g);
        } else if k == ShiftTab {
          r := HandleShiftTab(r, g);
        } else if k == Enter {
          r, cmd, returned := HandleEnter(r, g);
        }
    }
    assert Stage(r, g.Errs(), cmd, returned) == GlobalStage(m, old(g.Errs()), msg, today);
    if returned {
      return;
    }
    r := DispatchStep(r, g, msg, today);
  }
}
