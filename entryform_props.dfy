/** What `Update` of the entry form guarantees, key by key and over several keys. */
module EntryFormProps {
  import opened Models
  import opened TextInput
  import opened FormModel
  import opened DescriptionStep
  import opened ProjectStep
  import opened TaskStep
  import opened TimeStep
  import opened ConfirmStep
  import opened EntryForm

  /** The new form after one `Update`. */
  function After(m: Form, errs: Errors, k: Key, today: int): Form {
    Transition(m, errs, KeyMsg(k), today).0
  }

  // ---------------------------------------------------------------------------
  // Tab
  // ---------------------------------------------------------------------------

  /** While the search field has focus, tab moves nowhere: the step and the errors stay. */
  lemma TabIgnoredWhileSearching(m: Form, errs: Errors, today: int)
    requires m.projectSearch.focused
    ensures var r := Transition(m, errs, KeyMsg(Tab), today);
      r.0.step == m.step && r.1 == errs && r.2 == NoCmd && r.0.selectedProj == m.selectedProj
  {
    assert GlobalStage(m, errs, KeyMsg(Tab), today) == Stage(m, errs, NoCmd, false);
    DispatchTab(m, errs, today);
  }

  /** No screen's handler moves the step or the selection on tab. */
  lemma DispatchTab(m: Form, errs: Errors, today: int)
    ensures var d := Dispatch(m, errs, KeyMsg(Tab), today);
      d.0.step == m.step && d.1 == errs && d.0.selectedProj == m.selectedProj
  {
    if m.step == DateSelect {
      assert Dispatch(m, errs, KeyMsg(Tab), today).0 == DateStep.DateSelectStep(m, KeyMsg(Tab), today);
    } else if m.step == DescriptionInput {
      assert Dispatch(m, errs, KeyMsg(Tab), today).0 == DescriptionInputStep(m, KeyMsg(Tab));
    } else if m.step == ProjectSelect {
      assert Dispatch(m, errs, KeyMsg(Tab), today).0 == ProjectSelectStep(m, KeyMsg(Tab));
    } else if m.step == TaskInput {
      assert Dispatch(m, errs, KeyMsg(Tab), today).0 == TaskSelectStep(m, KeyMsg(Tab));
    } else if m.step == TimeInput {
      assert Dispatch(m, errs, KeyMsg(Tab), today) == TimeInputStep(m, errs, KeyMsg(Tab));
    }
  }

  /** On the project screen with no project chosen, tab changes nothing. */
  lemma TabNeedsProject(m: Form, errs: Errors, today: int)
    requires !m.projectSearch.focused && m.step == ProjectSelect && m.selectedProj.id == ""
    ensures Transition(m, errs, KeyMsg(Tab), today) == (m, errs, NoCmd)
  {
  }

  /** On the time screen, tab only swaps which of the two fields has focus. */
  lemma TabSwapsTimeFocus(m: Form, errs: Errors, today: int)
    requires !m.projectSearch.focused && m.step == TimeInput
    ensures Transition(m, errs, KeyMsg(Tab), today) == (SwapTimeFocus(m), errs, NoCmd)
  {
  }

  /** Everywhere else tab advances one step, and stops at the confirmation screen. */
  lemma TabAdvances(m: Form, errs: Errors, today: int)
    requires !m.projectSearch.focused
    requires m.step in {DateSelect, DescriptionInput, TaskInput} || (m.step == ProjectSelect && m.selectedProj.id != "")
    ensures var r := Transition(m, errs, KeyMsg(Tab), today);
      r.0.step == m.step + 1 && r.1 == errs && r.2 == NoCmd
  {
    var f := TabForward(m);
    assert f.step == m.step + 1;
  }

  lemma TabStopsAtConfirm(m: Form, errs: Errors, today: int)
    requires !m.projectSearch.focused && m.step >= Confirm
    ensures After(m, errs, Tab, today).step == m.step
  {
  }

  /** Tab from the task screen lands on the time screen with the end field focused. */
  lemma TabFromTaskFocusesEnd(m: Form, errs: Errors, today: int)
    requires !m.projectSearch.focused && m.step == TaskInput
    ensures var r := After(m, errs, Tab, today);
      r.step == TimeInput && r.timeEnd.focused && !r.timeStart.focused
  {
  }

  // ---------------------------------------------------------------------------
  // Shift+tab and esc
  // ---------------------------------------------------------------------------

  /** Shift+tab goes back one step, never below the date screen; leaving the project screen clears the errors. */
  lemma ShiftTabGoesBack(m: Form, errs: Errors, today: int)
    requires !m.projectSearch.focused
    ensures var r := Transition(m, errs, KeyMsg(ShiftTab), today);
      r.0.step == (if m.step > DateSelect then m.step - 1 else m.step) &&
      r.1 == (if m.step == ProjectSelect then NoErrors else errs) && r.2 == NoCmd
  {
    var s := ShiftTabStage(m, errs);
    assert s.form.step == (if m.step > DateSelect then m.step - 1 else m.step);
  }

  lemma ShiftTabIgnoredWhileSearching(m: Form, errs: Errors, today: int)
    requires m.projectSearch.focused
    ensures var r := Transition(m, errs, KeyMsg(ShiftTab), today);
      r.0.step == m.step && r.1 == errs && r.2 == NoCmd
  {
  }

  /** Esc rebuilds the form from the key, the workspace and the projects alone, and clears the errors. */
  lemma EscResets(m: Form, errs: Errors, today: int)
    ensures Transition(m, errs, KeyMsg(Esc), today) ==
      (NewForm(Config(m.apiKey, "", m.workspaceId, ""), m.projects, today), NoErrors, NoCmd)
  {
    var n := NewForm(Config(m.apiKey, "", m.workspaceId, ""), m.projects, today);
    assert DateStep.DateSelectStep(n, KeyMsg(Esc), today) == n;
  }

  // ---------------------------------------------------------------------------
  // Enter
  // ---------------------------------------------------------------------------

  /** Enter on the date screen lands on the project screen: the description handler runs in the same update. */
  lemma EnterOnDateCascades(m: Form, errs: Errors, today: int)
    requires m.step == DateSelect
    ensures var r := Transition(m, errs, KeyMsg(Enter), today);
      r.0.step == ProjectSelect && !r.0.description.focused && r.0.description.value == m.description.value &&
      r.1 == errs && r.2 == NoCmd
  {
  }

  /**
   * Enter on the project screen. With the search focused it blurs the search
   * and resets the cursor. Otherwise it always asks for the tasks of the
   * chosen project, and when the cursor is on a project it chooses it, empties
   * the task list and moves to the task screen.
   */
  lemma EnterOnProjects(m: Form, errs: Errors, today: int)
    requires m.step == ProjectSelect
    ensures var r := Transition(m, errs, KeyMsg(Enter), today);
      r.1 == errs &&
      (m.projectSearch.focused ==> r == (m.(projectSearch := Blur(m.projectSearch), cursor := 0), errs, NoCmd)) &&
      (!m.projectSearch.focused ==> r.2 == FetchTasks(m.apiKey, m.workspaceId, r.0.selectedProj.id)) &&
      (!m.projectSearch.focused && m.cursor < |Filtered(m)| ==>
         r.0.selectedProj == Filtered(m)[m.cursor] && r.0.step == TaskInput && r.0.cursor == 0 &&
         r.0.tasks == [] && !r.0.tasksReady) &&
      (!m.projectSearch.focused && m.cursor >= |Filtered(m)| ==> r.0 == m)
  {
  }

  /** Enter on the task screen selects the task under the cursor and validates the times at once. */
  lemma EnterOnTasks(m: Form, errs: Errors, today: int)
    requires m.step == TaskInput
    ensures var r := Transition(m, errs, KeyMsg(Enter), today);
      r.0.selectedTask == SelectTask(m.tasks, m.cursor, m.selectedTask) &&
      r.1 == Check(m) &&
      r.0.step == (if HasErrors(Check(m)) then TimeInput else Confirm) && r.2 == NoCmd
  {
    var m1 := m.(selectedTask := SelectTask(m.tasks, m.cursor, m.selectedTask), task := Blur(m.task),
                 step := TimeInput, timeStart := Focus(m.timeStart));
    assert EnterStage(m, errs) == Stage(m1, errs, NoCmd, false);
    assert GlobalStage(m, errs, KeyMsg(Enter), today) == Stage(m1, errs, NoCmd, false);
    assert Check(m1) == Check(m);
    TimesAfterTaskPick(m1, errs, today);
  }

  /** The enter that picked a task reaches the time screen, which validates at once. */
  lemma TimesAfterTaskPick(m1: Form, errs: Errors, today: int)
    requires m1.step == TimeInput
    ensures var d := Dispatch(m1, errs, KeyMsg(Enter), today);
      d.0.selectedTask == m1.selectedTask && d.1 == Check(m1) &&
      d.0.step == (if HasErrors(Check(m1)) then TimeInput else Confirm)
  {
    var d := TimeInputStep(m1, errs, KeyMsg(Enter));
    assert Dispatch(m1, errs, KeyMsg(Enter), today) == d;
  }

  /** Enter on the time screen: any error keeps the form where it is; none moves on to confirmation. */
  lemma EnterOnTimes(m: Form, errs: Errors, today: int)
    requires m.step == TimeInput
    ensures var r := Transition(m, errs, KeyMsg(Enter), today);
      r.1 == Check(m) && r.2 == NoCmd &&
      (HasErrors(Check(m)) ==> r.0 == m) &&
      (!HasErrors(Check(m)) ==> r.0.step == Confirm && !r.0.timeStart.focused && !r.0.timeEnd.focused)
  {
    var s := EnterStage(m, errs);
    assert GlobalStage(m, errs, KeyMsg(Enter), today) == s;
    if !HasErrors(Check(m)) {
      assert Dispatch(s.form, s.errs, KeyMsg(Enter), today) == (s.form, s.errs);
    }
  }

  /** Enter on the confirmation screen submits: an update when editing, a create otherwise. */
  lemma EnterOnConfirm(m: Form, errs: Errors, today: int)
    requires m.step == Confirm
    ensures var r := Transition(m, errs, KeyMsg(Enter), today);
      r.0.step == Complete && r.0.submitting && r.1 == errs && r.2 == SubmitCmd(m) &&
      (m.editing ==> r.2 == UpdateTimeEntry(m.selectedEntry.id, Args(m))) &&
      (!m.editing ==> r.2 == CreateTimeEntry(Args(m)))
  {
  }

  /** Enter on the completion screen closes the modal and changes nothing. */
  lemma EnterOnComplete(m: Form, errs: Errors, today: int)
    requires m.step == Complete
    ensures Transition(m, errs, KeyMsg(Enter), today) == (m, errs, ModalClosed)
  {
  }

  // ---------------------------------------------------------------------------
  // Tasks arriving, and invariants
  // ---------------------------------------------------------------------------

  /** Loaded tasks are stored with "No Task" after them, and the step stays. */
  lemma TasksArrive(m: Form, errs: Errors, loaded: seq<Task>, today: int)
    ensures var r := Transition(m, errs, TasksLoadedMsg(loaded), today);
      r.0.tasks[..|loaded|] == loaded && |r.0.tasks| == |loaded| + 1 && r.0.tasks[|loaded|] == NoTask &&
      r.0.tasksReady && r.0.step == m.step && r.1 == errs && r.2 == NoCmd
  {
    assert (loaded + [NoTask])[..|loaded|] == loaded;
  }

  lemma DispatchKeepsRange(m: Form, errs: Errors, msg: Msg, today: int)
    requires DateSelect <= m.step <= Complete
    ensures DateSelect <= Dispatch(m, errs, msg, today).0.step <= Complete
  {
    if m.step == DateSelect {
      assert Dispatch(m, errs, msg, today).0 == DateStep.DateSelectStep(m, msg, today);
    } else if m.step == DescriptionInput {
      assert Dispatch(m, errs, msg, today).0 == DescriptionInputStep(m, msg);
    } else if m.step == ProjectSelect {
      assert Dispatch(m, errs, msg, today).0 == ProjectSelectStep(m, msg);
    } else if m.step == TaskInput {
      assert Dispatch(m, errs, msg, today).0 == TaskSelectStep(m, msg);
    } else if m.step == TimeInput {
      assert Dispatch(m, errs, msg, today) == TimeInputStep(m, errs, msg);
    }
  }

  lemma GlobalKeepsRange(m: Form, errs: Errors, msg: Msg, today: int)
    requires DateSelect <= m.step <= Complete
    ensures DateSelect <= GlobalStage(m, errs, msg, today).form.step <= Complete
  {
    if msg.KeyMsg? && msg.key == Enter {
      assert GlobalStage(m, errs, msg, today) == EnterStage(m, errs);
    } else if msg.KeyMsg? && msg.key == Tab {
      assert GlobalStage(m, errs, msg, today) == TabStage(m, errs);
    } else if msg.KeyMsg? && msg.key == ShiftTab {
      assert GlobalStage(m, errs, msg, today) == ShiftTabStage(m, errs);
    }
  }

  /** The step always stays one of the seven screens. */
  lemma StepStaysInRange(m: Form, errs: Errors, msg: Msg, today: int)
    requires DateSelect <= m.step <= Complete
    ensures DateSelect <= Transition(m, errs, msg, today).0.step <= Complete
  {
    var s := GlobalStage(m, errs, msg, today);
    GlobalKeepsRange(m, errs, msg, today);
    if !s.returned {
      DispatchKeepsRange(s.form, s.errs, msg, today);
    }
  }

  lemma DispatchKeepsLimits(m: Form, errs: Errors, msg: Msg, today: int)
    requires Configured(m)
    ensures Configured(Dispatch(m, errs, msg, today).0)
  {
    if m.step == DateSelect {
      assert Dispatch(m, errs, msg, today).0 == DateStep.DateSelectStep(m, msg, today);
    } else if m.step == DescriptionInput {
      assert Dispatch(m, errs, msg, today).0 == DescriptionInputStep(m, msg);
    } else if m.step == ProjectSelect {
      assert Dispatch(m, errs, msg, today).0 == ProjectSelectStep(m, msg);
    } else if m.step == TaskInput {
      assert Dispatch(m, errs, msg, today).0 == TaskSelectStep(m, msg);
    } else if m.step == TimeInput {
      assert Dispatch(m, errs, msg, today) == TimeInputStep(m, errs, msg);
    }
  }

  lemma GlobalKeepsLimits(m: Form, errs: Errors, msg: Msg, today: int)
    requires Configured(m)
    ensures Configured(GlobalStage(m, errs, msg, today).form)
  {
    if msg.KeyMsg? && msg.key == Enter {
      assert GlobalStage(m, errs, msg, today) == EnterStage(m, errs);
    } else if msg.KeyMsg? && msg.key == Tab {
      assert GlobalStage(m, errs, msg, today) == TabStage(m, errs);
    } else if msg.KeyMsg? && msg.key == ShiftTab {
      assert GlobalStage(m, errs, msg, today) == ShiftTabStage(m, errs);
    }
  }

  /** The character limits `New` sets survive every update. */
  lemma LimitsStay(m: Form, errs: Errors, msg: Msg, today: int)
    requires Configured(m)
    ensures Configured(Transition(m, errs, msg, today).0)
  {
    var s := GlobalStage(m, errs, msg, today);
    GlobalKeepsLimits(m, errs, msg, today);
    if !s.returned {
      DispatchKeepsLimits(s.form, s.errs, msg, today);
    }
  }

  /** Tab then shift+tab from a fresh form returns to the date screen. */
  lemma TabThenShiftTab(cfg: Config, projects: seq<Project>, today: int)
    ensures var m1 := After(NewForm(cfg, projects, today), NoErrors, Tab, today);
      m1.step == DescriptionInput && After(m1, NoErrors, ShiftTab, today).step == DateSelect
  {
    var m0 := NewForm(cfg, projects, today);
    TabAdvances(m0, NoErrors, today);
    var m1 := After(m0, NoErrors, Tab, today);
    ShiftTabGoesBack(m1, NoErrors, today);
  }

  // ---------------------------------------------------------------------------
  // The task index out of range
  // ---------------------------------------------------------------------------

  /** Shift+tab from the task screen goes back to the projects and keeps the cursor. */
  lemma ShiftTabFromTasks(m: Form, errs: Errors, today: int)
    requires m.step == TaskInput && !m.projectSearch.focused
    ensures After(m, errs, ShiftTab, today) == m.(step := ProjectSelect)
  {
    var m1 := m.(step := ProjectSelect);
    assert GlobalStage(m, errs, KeyMsg(ShiftTab), today) == Stage(m1, errs, NoCmd, false);
    assert ProjectSelectStep(m1, KeyMsg(ShiftTab)) == m1;
  }

  /** Down on the projects moves the cursor by one while it is not on the last one. */
  lemma DownOnProjects(m: Form, errs: Errors, today: int)
    requires m.step == ProjectSelect && m.cursor + 1 < |Filtered(m)|
    ensures After(m, errs, Down, today) == m.(cursor := m.cursor + 1)
  {
    assert GlobalStage(m, errs, KeyMsg(Down), today) == Stage(m, errs, NoCmd, false);
    assert ProjectSelectStep(m, KeyMsg(Down)) == m.(cursor := m.cursor + 1);
  }

  /** Tab with a project chosen returns to the task screen and keeps the cursor. */
  lemma TabToTasks(m: Form, errs: Errors, today: int)
    requires m.step == ProjectSelect && !m.projectSearch.focused && m.selectedProj.id != ""
    ensures After(m, errs, Tab, today) == m.(step := TaskInput)
  {
    var m1 := m.(step := TaskInput);
    assert GlobalStage(m, errs, KeyMsg(Tab), today) == Stage(m1, errs, NoCmd, false);
    assert TaskSelectStep(m1, KeyMsg(Tab)) == m1;
  }

  /**
   * The cursor is shared by the project and task lists. After a project is
   * chosen and its one task has arrived, shift+tab, down, down and tab bring
   * the form back to the task screen with the cursor at 2 over a list of two,
   * where the source's enter handler indexes past the end of the list.
   */
  lemma TaskIndexOutOfRange(m: Form, errs: Errors, t: Task, today: int)
    requires m.step == ProjectSelect && !m.projectSearch.focused && m.projectSearch.value == ""
    requires m.cursor == 0 && |m.projects| >= 3 && m.projects[0].id != ""
    ensures var m1 := After(m, errs, Enter, today);
      var m2 := Transition(m1, errs, TasksLoadedMsg([t]), today).0;
      var m3 := After(m2, errs, ShiftTab, today);
      var m4 := After(m3, errs, Down, today);
      var m5 := After(m4, errs, Down, today);
      var m6 := After(m5, errs, Tab, today);
      m6.step == TaskInput && SelectTaskAsWritten(m6.tasks, m6.cursor, m6.selectedTask).None?
  {
    assert Filtered(m) == m.projects by {
      assert Query("") == "";
    }
    EnterOnProjects(m, errs, today);
    var m1 := After(m, errs, Enter, today);
    assert m1 == PickProject(m);
    var m2 := Transition(m1, errs, TasksLoadedMsg([t]), today).0;
    assert m2 == m1.(tasks := [t, NoTask], tasksReady := true);
    ShiftTabFromTasks(m2, errs, today);
    var m3 := After(m2, errs, ShiftTab, today);
    assert Filtered(m3) == m.projects;
    DownOnProjects(m3, errs, today);
    var m4 := After(m3, errs, Down, today);
    assert Filtered(m4) == m.projects;
    DownOnProjects(m4, errs, today);
    var m5 := After(m4, errs, Down, today);
    TabToTasks(m5, errs, today);
  }
}
