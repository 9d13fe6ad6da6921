/** The date screen of the entry form (1_step_dateselect.go). */
module DateStep {
  import opened TextInput
  import opened FormModel

  /**
   * `updateDateSelect`: "t" jumps to today, left/"h" and right/"l" move one day
   * while the form is on this screen, and enter focuses the description and
   * moves to it. Nothing else changes, and the command is always nil.
   */
  function DateSelectStep(m: Form, msg: Msg, today: int): (r: Form)
    ensures r.step == if Pressed(msg, Enter) then DescriptionInput else m.step
    ensures r.date ==
      if Pressed(msg, Rune('t')) then today
      else if (Pressed(msg, Left) || Pressed(msg, Rune('h'))) && m.step == DateSelect then m.date - 1
      else if (Pressed(msg, Right) || Pressed(msg, Rune('l'))) && m.step == DateSelect then m.date + 1
      else m.date
    ensures r.description == if Pressed(msg, Enter) then Focus(m.description) else m.description
    ensures r.(date := m.date, step := m.step, description := m.description) == m
  {
    if !msg.KeyMsg? then m
    else if msg.key == Rune('t') then m.(date := today)
    else if msg.key == Left || msg.key == Rune('h') then
      if m.step == DateSelect then m.(date := m.date - 1) else m
    else if msg.key == Right || msg.key == Rune('l') then
      if m.step == DateSelect then m.(date := m.date + 1) else m
    else if msg.key == Enter then m.(description := Focus(m.description), step := DescriptionInput)
    else m
  }

  method UpdateDateSelect(m: Form, msg: Msg, today: int) returns (r: Form, cmd: Cmd)
    ensures r == DateSelectStep(m, msg, today) && cmd == NoCmd
  {
    r := m;
    if msg.KeyMsg? {
      var k := msg.key;
      if k == Rune('t') {
        r := r.(date := today);
      } else if k == Left || k == Rune('h') {
        if r.step == DateSelect {
          r := r.(date := r.date - 1);
        }
      } else if k == Right || k == Rune('l') {
        if r.step == DateSelect {
          r := r.(date := r.date + 1);
        }
      } else if k == Enter {
        r := r.(description := Focus(r.description));
        r := r.(step := DescriptionInput);
      }
    }
    cmd := NoCmd;
  }

  /** A day back and a day forward return to the same date, and nothing else moved. */
  lemma LeftThenRight(m: Form, today: int)
    requires m.step == DateSelect
    ensures DateSelectStep(DateSelectStep(m, KeyMsg(Left), today), KeyMsg(Right), today) == m
  {
    var once := DateSelectStep(m, KeyMsg(Left), today);
    assert once == m.(date := m.date - 1);
  }
}
