/**
 * The part of a bubbles `textinput.Model` that the entry form relies on: the
 * text, whether the field has focus, and its character limit. The cursor is
 * always at the end of the text.
 */
module TextInput {

  /** A key message, as `tea.KeyMsg.String()` distinguishes them. */
  datatype Key =
    | Enter | Tab | ShiftTab | Esc
    | Up | Down | Left | Right
    | Backspace
    | Rune(c: char)          // one typed character; the space bar is Rune(' ')
    | Other(name: string)    // any other named key ("ctrl+c", "delete", ...)

  /** `charLimit <= 0` means no limit, as in bubbles. */
  datatype Input = Input(value: string, focused: bool, charLimit: int)

  /** `textinput.New()` followed by setting `CharLimit`: empty and without focus. */
  function NewInput(charLimit: int): (r: Input)
    ensures r.value == [] && !r.focused && r.charLimit == charLimit
  {
    Input([], false, charLimit)
  }

  function Focus(t: Input): (r: Input)
    ensures r.focused && r.value == t.value && r.charLimit == t.charLimit
  {
    t.(focused := true)
  }

  function Blur(t: Input): (r: Input)
    ensures !r.focused && r.value == t.value && r.charLimit == t.charLimit
  {
    t.(focused := false)
  }

  /** `SetValue`: the text is cut to the character limit. */
  function SetValue(t: Input, s: string): (r: Input)
    ensures r.focused == t.focused && r.charLimit == t.charLimit
    ensures t.charLimit <= 0 || |s| <= t.charLimit ==> r.value == s
    ensures t.charLimit > 0 && |s| > t.charLimit ==> r.value == s[..t.charLimit]
  {
    if t.charLimit > 0 && |s| > t.charLimit then t.(value := s[..t.charLimit]) else t.(value := s)
  }

  /**
   * `Update` with a key: a field without focus ignores every key; a focused one
   * appends a typed character while under its limit and drops the last
   * character on backspace. Every other key leaves the text alone.
   */
  function KeyUpdate(t: Input, k: Key): (r: Input)
    ensures r.focused == t.focused && r.charLimit == t.charLimit
    ensures !t.focused ==> r == t
    ensures t.focused && k.Rune? && (t.charLimit <= 0 || |t.value| < t.charLimit) ==> r.value == t.value + [k.c]
    ensures t.focused && k.Backspace? && t.value != [] ==> r.value == t.value[..|t.value| - 1]
    ensures !(k.Rune? || k.Backspace?) ==> r == t
    ensures t.charLimit > 0 && |t.value| <= t.charLimit ==> |r.value| <= t.charLimit
  {
    if !t.focused then t
    else match k
      case Rune(c) =>
        if t.charLimit <= 0 || |t.value| < t.charLimit then t.(value := t.value + [c]) else t
      case Backspace =>
        if t.value == [] then t else t.(value := t.value[..|t.value| - 1])
      case _ => t
  }
}
