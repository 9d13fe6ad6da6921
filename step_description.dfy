/** The description screen of the entry form (2_step_descriptioninput.go). */
module DescriptionStep {
  import opened TextInput
  import opened FormModel

  /**
   * `updateDescriptionInput`: enter blurs the field and advances exactly one
   * step; every message, enter included, then reaches the field. The text is
   * never checked, so an empty description advances too.
   */
  function DescriptionInputStep(m: Form, msg: Msg): (r: Form)
    ensures r.step == if Pressed(msg, Enter) then m.step + 1 else m.step
    ensures r.description == Feed(if Pressed(msg, Enter) then Blur(m.description) else m.description, msg)
    ensures r.(step := m.step, description := m.description) == m
  {
    var m1 := if Pressed(msg, Enter) then m.(description := Blur(m.description), step := m.step + 1) else m;
    m1.(description := Feed(m1.description, msg))
  }

  method UpdateDescriptionInput(m: Form, msg: Msg) returns (r: Form, cmd: Cmd)
    ensures r == DescriptionInputStep(m, msg) && cmd == NoCmd
  {
    r := m;
    if msg.KeyMsg? && msg.key == Enter {
      r := r.(description := Blur(r.description));
      r := r.(step := r.step + 1);
    }
    r := r.(description := Feed(r.description, msg));
    cmd := NoCmd;
  }

  /** Enter leaves the typed text as it was: the field has just lost focus when enter reaches it. */
  lemma EnterKeepsText(m: Form)
    ensures DescriptionInputStep(m, KeyMsg(Enter)).description.value == m.description.value
    ensures !DescriptionInputStep(m, KeyMsg(Enter)).description.focused
  {
  }
}
