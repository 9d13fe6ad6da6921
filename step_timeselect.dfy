/** The time screen of the entry form and its validation (5_step_timeselect.go). */
module TimeStep {
  import opened Wrappers
  import opened TextInput
  import opened Helpers
  import opened FormModel

  const EmptyStart: string := "Start time cannot be empty."
  const EmptyEnd: string := "End time cannot be empty."
  const BadStart: string := "Invalid start time format. Use HH:MM."
  const BadEnd: string := "Invalid end time format. Use HH:MM."
  const EndNotAfter: string := "End time must be after start time."

  /** Both texts parse on `date` and the end is not strictly after the start. */
  predicate EndsTooEarly(start: string, end: string, date: int) {
    var ps := ParseTime(start, date);
    var pe := ParseTime(end, date);
    ps.Success? && pe.Success? && !(pe.value > ps.value)
  }

  /**
   * The error strings after `validate` has run on `start` and `end`, starting
   * from `e`. Each check overwrites its string only when it fires, so a later
   * check wins: an empty field is also unparsable and ends with the format
   * message, and an end that is not after the start ends with that message.
   */
  function ValidateTimes(start: string, end: string, date: int, e: Errors): (r: Errors)
    ensures ParseTime(start, date).Failure? ==> r.timeStartErr == BadStart
    ensures ParseTime(start, date).Success? ==> r.timeStartErr == e.timeStartErr
    ensures EndsTooEarly(start, end, date) ==> r.timeEndErr == EndNotAfter
    ensures ParseTime(end, date).Failure? ==> r.timeEndErr == BadEnd
    ensures ParseTime(end, date).Success? && !EndsTooEarly(start, end, date) ==> r.timeEndErr == e.timeEndErr
  {
    var s1 := if start == "" then EmptyStart else e.timeStartErr;
    var e1 := if end == "" then EmptyEnd else e.timeEndErr;
    var ps := ParseTime(start, date);
    var pe := ParseTime(end, date);
    var s2 := if ps.Failure? then BadStart else s1;
    var e2 := if pe.Failure? then BadEnd else e1;
    var e3 := if ps.Success? && pe.Success? && !(pe.value > ps.value) then EndNotAfter else e2;
    assert start == "" ==> ps.Failure? by {
      ExampleEmpty(date);
    }
    assert end == "" ==> pe.Failure? by {
      ExampleEmpty(date);
    }
    Errors(s2, e3)
  }

  /** `validate`: writes the two package strings in the order of the source. */
  method Validate(m: Form, g: Globals)
    modifies g
    ensures g.Errs() == ValidateTimes(m.timeStart.value, m.timeEnd.value, m.date, old(g.Errs()))
  {
    var startStr := m.timeStart.value;
    var endStr := m.timeEnd.value;
    if startStr == "" {
      g.timeStartErr := EmptyStart;
    }
    if endStr == "" {
      g.timeEndErr := EmptyEnd;
    }
    var startTime := ParseTime(startStr, m.date);
    var endTime := ParseTime(endStr, m.date);
    if startTime.Failure? {
      g.timeStartErr := BadStart;
    }
    if endTime.Failure? {
      g.timeEndErr := BadEnd;
    }
    if startTime.Success? && endTime.Success? && !(endTime.value > startTime.value) {
      g.timeEndErr := EndNotAfter;
    }
  }

  /** The errors a fresh check finds: the caller always clears both strings first. */
  function Check(m: Form): Errors {
    ValidateTimes(m.timeStart.value, m.timeEnd.value, m.date, NoErrors)
  }

  /** A fresh check passes exactly when both times parse and the end comes strictly later. */
  lemma CheckVerdict(m: Form)
    ensures !HasErrors(Check(m)) <==>
      ParseTime(m.timeStart.value, m.date).Success? && ParseTime(m.timeEnd.value, m.date).Success? &&
      ParseTime(m.timeEnd.value, m.date).value > ParseTime(m.timeStart.value, m.date).value
  {
  }

  /** A fresh check does not depend on what the strings held before. */
  lemma CheckForgetsStaleErrors(start: string, end: string, date: int, e: Errors)
    ensures HasErrors(ValidateTimes(start, end, date, NoErrors)) ==>
      HasErrors(ValidateTimes(start, end, date, e))
  {
  }

  /** An empty field reports the format message, which overwrites "cannot be empty". */
  lemma EmptyFieldsGetFormatMessage(start: string, end: string, date: int, e: Errors)
    ensures start == "" ==> ValidateTimes(start, end, date, e).timeStartErr == BadStart
    ensures end == "" ==> ValidateTimes(start, end, date, e).timeEndErr == BadEnd
  {
    ExampleEmpty(date);
  }

  /** The start message depends on the start text alone. */
  lemma StartErrorIgnoresEnd(start: string, end1: string, end2: string, date: int)
    ensures ValidateTimes(start, end1, date, NoErrors).timeStartErr == ValidateTimes(start, end2, date, NoErrors).timeStartErr
  {
  }

  /** A range that starts and ends at the same time is rejected. */
  lemma EqualTimesRejected(t: string, date: int, e: Errors)
    requires ParseTime(t, date).Success?
    ensures ValidateTimes(t, t, date, e).timeEndErr == EndNotAfter
  {
  }

  /** "9a" to "3:30p" passes. */
  lemma MorningToAfternoonPasses(m: Form)
    requires m.timeStart.value == "9a" && m.timeEnd.value == "3:30p"
    ensures !HasErrors(Check(m))
  {
    Example9a(m.date);
    Example330p(m.date);
  }

  /** The focus swap of tab: exactly one of the two fields ends up focused. */
  function SwapTimeFocus(m: Form): (r: Form)
    ensures r.timeStart.focused == !m.timeStart.focused && r.timeEnd.focused == m.timeStart.focused
    ensures r.timeStart.value == m.timeStart.value && r.timeEnd.value == m.timeEnd.value
  {
    if m.timeStart.focused then m.(timeStart := Blur(m.timeStart), timeEnd := Focus(m.timeEnd))
    else m.(timeEnd := Blur(m.timeEnd), timeStart := Focus(m.timeStart))
  }

  /**
   * `updateTimeInput`. Tab swaps the focus; enter clears and re-runs the check
   * and, when it finds an error, returns at once without feeding the key to
   * the fields; without errors it blurs both fields, focuses the task field
   * and moves to the confirmation screen. Everything else reaches both fields.
   */
  function TimeInputStep(m: Form, errs: Errors, msg: Msg): (r: (Form, Errors))
    ensures Configured(m) ==> Configured(r.0)
    ensures Pressed(msg, Enter) ==> r.1 == Check(m)
    ensures Pressed(msg, Enter) && HasErrors(Check(m)) ==> r.0 == m
    ensures Pressed(msg, Enter) && !HasErrors(Check(m)) ==> r.0.step == Confirm && !r.0.timeStart.focused && !r.0.timeEnd.focused
    ensures !Pressed(msg, Enter) ==> r.1 == errs && r.0.step == m.step
    ensures Pressed(msg, Tab) ==> r.0.timeStart.focused == !m.timeStart.focused && r.0.timeEnd.focused == m.timeStart.focused
  {
    if Pressed(msg, Enter) then
      var e := Check(m);
      if HasErrors(e) then (m, e)
      else (FeedTimes(m.(timeEnd := Blur(m.timeEnd), timeStart := Blur(m.timeStart), task := Focus(m.task), step := Confirm), msg), e)
    else if Pressed(msg, Tab) then (FeedTimes(SwapTimeFocus(m), msg), errs)
    else (FeedTimes(m, msg), errs)
  }

  /** Both time fields receive the message. */
  function FeedTimes(m: Form, msg: Msg): Form {
    m.(timeStart := Feed(m.timeStart, msg), timeEnd := Feed(m.timeEnd, msg))
  }

  method UpdateTimeInput(m: Form, g: Globals, msg: Msg) returns (r: Form, cmd: Cmd)
    modifies g
    ensures (r, g.Errs()) == TimeInputStep(m, old(g.Errs()), msg) && cmd == NoCmd
  {
    r := m;
    cmd := NoCmd;
    if msg.KeyMsg? {
      var k := msg.key;
      if k == Tab {
        if r.timeStart.focused {
          r := r.(timeStart := Blur(r.timeStart));
          r := r.(timeEnd := Focus(r.timeEnd));
        } else {
          r := r.(timeEnd := Blur(r.timeEnd));
          r := r.(timeStart := Focus(r.timeStart));
        }
      } else if k == Enter {
        g.timeStartErr := "";
        g.timeEndErr := "";
        Validate(r, g);
        assert g.Errs() == Check(m);
        if g.timeStartErr != "" || g.timeEndErr != "" {
          return;
        }
        r := r.(timeEnd := Blur(r.timeEnd));
        r := r.(timeStart := Blur(r.timeStart));
        r := r.(task := Focus(r.task));
        r := r.(step := Confirm);
      }
    }
    r := r.(timeStart := Feed(r.timeStart, msg));
    r := r.(timeEnd := Feed(r.timeEnd, msg));
  }
}
