/**
 * The settings view (internal/ui/views/settings): an API-key field, a
 * workspace field with a pop-up list of workspaces, and a save button, with
 * a focus index cycling over the three.
 */
module Settings {
  import opened Wrappers
  import opened Models
  import opened TextInput

  /** The three focus slots (`apiKeyInput`, `workspaceInput`, `saveButton`). */
  const ApiKeyInput: int := 0
  const WorkspaceInput: int := 1
  const SaveButton: int := 2

  const FieldLimit: int := 64

  /**
   * `settings.Model`. `config` is the configuration the pointer refers to;
   * `err` holds the error's text.
   */
  datatype Model = Model(
    config: Config,
    apiKeyInput: Input,
    workspaceInput: Input,
    workspaces: seq<Workspace>,
    currentIndex: int,
    saving: bool,
    saved: bool,
    err: Option<string>,
    userId: string,
    selectedWorkspaceIndex: int,
    showWorkspacesList: bool)

  /** What reaches `Update`. */
  datatype Msg =
    | KeyMsg(key: Key)
    | WorkspacesLoadedMsg(loaded: seq<Workspace>)
    | ConfigSavedMsg(savedConfig: Config, savedUserId: string)
    | ErrorMsg(text: string)
    | OtherMsg

  /** The commands `Update` returns; cursor-blink commands are `NoCmd`. */
  datatype Cmd = NoCmd | Quit | FetchWorkspaces(apiKey: string) | SaveConfig(config: Config, userId: string)

  predicate InRange(i: int) {
    ApiKeyInput <= i <= SaveButton
  }

  /** A key message reaches a text input; anything else leaves it alone. */
  function Feed(t: Input, msg: Msg): (r: Input)
    ensures r.value == t.value || msg.KeyMsg?
    ensures msg.KeyMsg? ==> r == KeyUpdate(t, msg.key)
  {
    if msg.KeyMsg? then KeyUpdate(t, msg.key) else t
  }

  /**
   * `New(cfg)`: the API-key field starts focused unless a key is configured,
   * in which case it holds the key and is blurred; the workspace field holds
   * the workspace name when a workspace is configured. Focus is on the
   * API-key slot, the list is hidden and nothing is saving.
   */
  function New(cfg: Config): (m: Model)
    ensures m.currentIndex == ApiKeyInput && !m.showWorkspacesList && m.selectedWorkspaceIndex == 0
    ensures !m.saving && !m.saved && m.err.None? && m.workspaces == [] && m.config == cfg
    ensures m.apiKeyInput.focused <==> cfg.apiKey == ""
    ensures !m.workspaceInput.focused
    ensures cfg.apiKey != "" ==> m.apiKeyInput.value == SetValue(NewInput(FieldLimit), cfg.apiKey).value
    ensures cfg.workspaceId != "" ==> m.workspaceInput.value == SetValue(NewInput(FieldLimit), cfg.workspaceName).value
    ensures cfg.workspaceId == "" ==> m.workspaceInput.value == ""
  {
    var key0 := Focus(NewInput(FieldLimit));
    var key := if cfg.apiKey != "" then Blur(SetValue(key0, cfg.apiKey)) else key0;
    var ws0 := NewInput(FieldLimit);
    var ws := if cfg.workspaceId != "" then Blur(SetValue(ws0, cfg.workspaceName)) else ws0;
    Model(cfg, key, ws, [], ApiKeyInput, false, false, None, "", 0, false)
  }

  /**
   * The part of the tab/shift+tab/up/down case that the source keeps: the
   * status is cleared and the index moves one slot, wrapping around.
   */
  function Cycle(m: Model, k: Key): (r: Model)
    ensures !r.saved && r.err.None? && InRange(r.currentIndex)
    ensures r == m.(saved := false, err := None, currentIndex := r.currentIndex)
  {
    var i := if k == Up || k == ShiftTab then m.currentIndex - 1 else m.currentIndex + 1;
    var j := if i > SaveButton then ApiKeyInput else if i < ApiKeyInput then SaveButton else i;
    m.(saved := false, err := None, currentIndex := j)
  }

  /**
   * What `updateFocus` sets out to do: focus the field of the current slot
   * and blur the other, or blur both on the save button.
   */
  function Refocus(m: Model): (r: Model)
    ensures r.apiKeyInput.focused <==> m.currentIndex == ApiKeyInput
    ensures r.workspaceInput.focused <==> m.currentIndex == WorkspaceInput
    ensures r.apiKeyInput.value == m.apiKeyInput.value && r.workspaceInput.value == m.workspaceInput.value
    ensures r == m.(apiKeyInput := r.apiKeyInput, workspaceInput := r.workspaceInput)
  {
    if m.currentIndex == ApiKeyInput then m.(apiKeyInput := Focus(m.apiKeyInput), workspaceInput := Blur(m.workspaceInput))
    else if m.currentIndex == WorkspaceInput then m.(workspaceInput := Focus(m.workspaceInput), apiKeyInput := Blur(m.apiKeyInput))
    else m.(apiKeyInput := Blur(m.apiKeyInput), workspaceInput := Blur(m.workspaceInput))
  }

  /** Navigation with the focus moved as intended. */
  function Navigate(m: Model, k: Key): Model {
    Refocus(Cycle(m, k))
  }

  /** Enter on the save button as intended: the model shows it is saving. */
  function Save(m: Model): (r: (Model, Cmd))
    ensures r.0.saving && r.1 == SaveConfig(m.config, m.userId)
  {
    (m.(saving := true), SaveConfig(m.config, m.userId))
  }

  /** Enter on the save button as written: `saving` is set on a copy inside the command, so the model is unchanged. */
  function SaveAsWritten(m: Model): (r: (Model, Cmd))
    ensures r.0.saving == m.saving && r.1 == SaveConfig(m.config, m.userId)
  {
    (m, SaveConfig(m.config, m.userId))
  }

  /** "j" and "k" in the shown list, bounded by its ends; "down", "up" and "enter" never get here. */
  function MoveInList(m: Model, k: Key): (r: Model)
    ensures r == m.(selectedWorkspaceIndex := r.selectedWorkspaceIndex)
    ensures !m.showWorkspacesList ==> r == m
  {
    if !m.showWorkspacesList then m
    else if k == Rune('j') || k == Down then
      if m.selectedWorkspaceIndex < |m.workspaces| - 1 then m.(selectedWorkspaceIndex := m.selectedWorkspaceIndex + 1) else m
    else if k == Rune('k') || k == Up then
      if m.selectedWorkspaceIndex > 0 then m.(selectedWorkspaceIndex := m.selectedWorkspaceIndex - 1) else m
    else m
  }

  /** The tail of `Update`: while the list is hidden, the field of the current slot gets the message. */
  function FeedActive(m: Model, msg: Msg): (r: Model)
    ensures m.showWorkspacesList ==> r == m
    ensures r == m.(apiKeyInput := r.apiKeyInput, workspaceInput := r.workspaceInput)
    ensures !m.showWorkspacesList && m.currentIndex == ApiKeyInput ==>
      r.apiKeyInput == Feed(m.apiKeyInput, msg) && r.workspaceInput == m.workspaceInput
    ensures !m.showWorkspacesList && m.currentIndex == WorkspaceInput ==>
      r.workspaceInput == Feed(m.workspaceInput, msg) && r.apiKeyInput == m.apiKeyInput
    ensures m.currentIndex != ApiKeyInput && m.currentIndex != WorkspaceInput ==> r == m
  {
    if m.showWorkspacesList then m
    else if m.currentIndex == ApiKeyInput then m.(apiKeyInput := Feed(m.apiKeyInput, msg))
    else if m.currentIndex == WorkspaceInput then m.(workspaceInput := Feed(m.workspaceInput, msg))
    else m
  }

  /**
   * `Update` as written. Ctrl+c quits. Tab/down and shift+tab/up move the
   * focus slot; the focus update they call works on a copy, so the fields keep
   * their focus. Enter on the workspace slot with an API key shows the list and
   * fetches the workspaces; enter on the save button issues the save, whose
   * `saving` flag is set on a copy. Esc hides the list. Other keys
   * move the list cursor while the list is shown. The three result messages
   * store what they carry and end the saving state. Whatever does not return
   * early reaches the current field while the list is hidden.
   */
  function Step(m: Model, msg: Msg): (r: (Model, Cmd))
    ensures msg.WorkspacesLoadedMsg? ==> r == (m.(workspaces := msg.loaded, saving := false), NoCmd)
    ensures msg.ConfigSavedMsg? ==>
      r == (m.(saving := false, saved := true, config := msg.savedConfig, userId := msg.savedUserId), NoCmd)
    ensures msg.ErrorMsg? ==> r == (m.(saving := false, err := Some(msg.text)), NoCmd)
    ensures r.1.FetchWorkspaces? ==> r.1.apiKey == m.apiKeyInput.value && r.1.apiKey != []
  {
    match msg
    case WorkspacesLoadedMsg(ws) => (m.(workspaces := ws, saving := false), NoCmd)
    case ConfigSavedMsg(c, u) => (m.(saving := false, saved := true, config := c, userId := u), NoCmd)
    case ErrorMsg(e) => (m.(saving := false, err := Some(e)), NoCmd)
    case OtherMsg => (FeedActive(m, msg), NoCmd)
    case KeyMsg(k) =>
      if k == Other("ctrl+c") then (m, Quit)
      else if k == Tab || k == ShiftTab || k == Up || k == Down then (Cycle(m, k), NoCmd)
      else if k == Enter then
        if m.currentIndex == WorkspaceInput && m.apiKeyInput.value != "" then
          (m.(showWorkspacesList := true), FetchWorkspaces(m.apiKeyInput.value))
        else if m.currentIndex == SaveButton then SaveAsWritten(m)
        else (FeedActive(m, msg), NoCmd)
      else if k == Esc then (FeedActive(m.(showWorkspacesList := false, selectedWorkspaceIndex := 0), msg), NoCmd)
      else (FeedActive(MoveInList(m, k), msg), NoCmd)
  }

  /** Is `msg` one of the four navigation keys? */
  predicate Navigation(msg: Msg) {
    msg.KeyMsg? && (msg.key == Tab || msg.key == ShiftTab || msg.key == Up || msg.key == Down)
  }

  /**
   * `Update` as its authors meant it: navigation also moves the focus to the
   * field of the new slot, and enter on the save button shows that the view
   * is saving. It sends what `Step` sends, and its view differs from `Step`'s
   * at most in the fields' focus and in `saving`.
   */
  function IntendedStep(m: Model, msg: Msg): (r: (Model, Cmd))
    ensures r.1 == Step(m, msg).1
    ensures r.0 == Step(m, msg).0.(apiKeyInput := r.0.apiKeyInput, workspaceInput := r.0.workspaceInput, saving := r.0.saving)
    ensures r.0.apiKeyInput.value == Step(m, msg).0.apiKeyInput.value
    ensures r.0.workspaceInput.value == Step(m, msg).0.workspaceInput.value
    ensures !Navigation(msg) ==> r.0.apiKeyInput == Step(m, msg).0.apiKeyInput && r.0.workspaceInput == Step(m, msg).0.workspaceInput
  {
    if Navigation(msg) then (Navigate(m, msg.key), NoCmd)
    else if msg == KeyMsg(Enter) && m.currentIndex == SaveButton then Save(m)
    else Step(m, msg)
  }

  /**
   * The body of `updateFocus`, statement by statement, on its receiver. The
   * receiver is a copy of the caller's model, so the caller keeps only the
   * command it returns (a cursor blink, not modelled) and this copy is lost.
   */
  method UpdateFocus(m: Model) returns (r: Model)
    ensures r == Refocus(m)
  {
    r := m;
    if r.currentIndex == ApiKeyInput {
      r := r.(apiKeyInput := Focus(r.apiKeyInput));
      r := r.(workspaceInput := Blur(r.workspaceInput));
    } else if r.currentIndex == WorkspaceInput {
      r := r.(workspaceInput := Focus(r.workspaceInput));
      r := r.(apiKeyInput := Blur(r.apiKeyInput));
    } else {
      r := r.(apiKeyInput := Blur(r.apiKeyInput));
      r := r.(workspaceInput := Blur(r.workspaceInput));
    }
  }

  /** The "update active input" tail of `Update`. */
  method UpdateActiveInput(m: Model, msg: Msg) returns (r: Model)
    ensures r == FeedActive(m, msg)
  {
    r := m;
    if !r.showWorkspacesList {
      if r.currentIndex == ApiKeyInput {
        r := r.(apiKeyInput := Feed(r.apiKeyInput, msg));
      } else if r.currentIndex == WorkspaceInput {
        r := r.(workspaceInput := Feed(r.workspaceInput, msg));
      }
    }
  }

  /** The first part of the tab/shift+tab/up/down case of `Update`: clear the status and move the index. */
  method MoveIndex(m: Model, k: Key) returns (r: Model)
    ensures r == Cycle(m, k)
  {
    r := m;
    r := r.(saved := false);
    r := r.(err := None);
    if k == Up || k == ShiftTab {
      r := r.(currentIndex := r.currentIndex - 1);
    } else {
      r := r.(currentIndex := r.currentIndex + 1);
    }
    if r.currentIndex > SaveButton {
      r := r.(currentIndex := ApiKeyInput);
    } else if r.currentIndex < ApiKeyInput {
      r := r.(currentIndex := SaveButton);
    }
  }

  /**
   * The tab/shift+tab/up/down case of `Update` as written: the index moves,
   * and the focus update runs on a copy that is then dropped.
   */
  method MoveFocus(m: Model, k: Key) returns (r: Model)
    ensures r == Cycle(m, k)
    ensures r.apiKeyInput == m.apiKeyInput && r.workspaceInput == m.workspaceInput
  {
    r := MoveIndex(m, k);
    var receiver := UpdateFocus(r);
  }

  /** The list-cursor case of `Update`: "j" and "k" while the list is shown. */
  method MoveListCursor(m: Model, k: Key) returns (r: Model)
    ensures r == MoveInList(m, k)
  {
    r := m;
    if r.showWorkspacesList {
      if k == Rune('j') || k == Down {
        if r.selectedWorkspaceIndex < |r.workspaces| - 1 {
          r := r.(selectedWorkspaceIndex := r.selectedWorkspaceIndex + 1);
        }
      } else if k == Rune('k') || k == Up {
        if r.selectedWorkspaceIndex > 0 {
          r := r.(selectedWorkspaceIndex := r.selectedWorkspaceIndex - 1);
        }
      }
    }
  }

  /** `Update` as written, statement by statement, on the model copy. */
  method Update(m: Model, msg: Msg) returns (r: Model, cmd: Cmd)
    ensures (r, cmd) == Step(m, msg)
  {
    r := m;
    cmd := NoCmd;
    match msg {
      case KeyMsg(k) =>
        if k == Other("ctrl+c") {
          cmd := Quit;
          return;
        } else if k == Tab || k == ShiftTab || k == Up || k == Down {
          r := MoveFocus(r, k);
          return;
        } else if k == Enter {
          if r.currentIndex == WorkspaceInput {
            if r.apiKeyInput.value != "" {
              r := r.(showWorkspacesList := true);
              cmd := FetchWorkspaces(r.apiKeyInput.value);
              return;
            }
          } else if r.currentIndex == SaveButton {
            cmd := SaveConfig(r.config, r.userId);
            return;
          }
        } else if k == Esc {
          r := r.(showWorkspacesList := false);
          r := r.(selectedWorkspaceIndex := 0);
        } else {
          r := MoveListCursor(r, k);
        }
      case WorkspacesLoadedMsg(ws) =>
        r := r.(workspaces := ws);
        r := r.(saving := false);
        return;
      case ConfigSavedMsg(c, u) =>
        r := r.(saving := false);
        r := r.(saved := true);
        r := r.(config := c);
        r := r.(userId := u);
        return;
      case ErrorMsg(e) =>
        r := r.(saving := false);
        r := r.(err := Some(e));
        return;
      case OtherMsg =>
    }
    r := UpdateActiveInput(r, msg);
  }

  // ---------------------------------------------------------------------------
  // Properties
  // ---------------------------------------------------------------------------

  /** Tab and down move to the next slot, shift+tab and up to the previous one, wrapping around; the status is cleared. */
  lemma NavigationWraps(m: Model, k: Key)
    requires InRange(m.currentIndex)
    requires k == Tab || k == ShiftTab || k == Up || k == Down
    ensures var r := Step(m, KeyMsg(k));
      r.1 == NoCmd && !r.0.saved && r.0.err.None? &&
      r.0.currentIndex == (if k == Up || k == ShiftTab then (m.currentIndex + 2) % 3 else (m.currentIndex + 1) % 3)
  {
  }

  /** Tab then shift+tab returns to the same slot. */
  lemma TabThenBack(m: Model)
    requires InRange(m.currentIndex)
    ensures Step(Step(m, KeyMsg(Tab)).0, KeyMsg(ShiftTab)).0.currentIndex == m.currentIndex
  {
  }

  /** No message takes the focus index out of the three slots. */
  lemma IndexStaysInRange(m: Model, msg: Msg)
    requires InRange(m.currentIndex)
    ensures InRange(Step(m, msg).0.currentIndex)
  {
  }

  /** The model after a sequence of messages. */
  function Run(m: Model, msgs: seq<Msg>): Model
    decreases |msgs|
  {
    if msgs == [] then m else Run(Step(m, msgs[0]).0, msgs[1..])
  }

  /** From `New`, the focus index stays on one of the three slots whatever arrives. */
  lemma {:induction false} IndexAlwaysInRange(m: Model, msgs: seq<Msg>)
    requires InRange(m.currentIndex)
    ensures InRange(Run(m, msgs).currentIndex)
    decreases |msgs|
  {
    if msgs != [] {
      IndexStaysInRange(m, msgs[0]);
      IndexAlwaysInRange(Step(m, msgs[0]).0, msgs[1..]);
    }
  }

  /** As written, a navigation key leaves both fields exactly as they were, focus included. */
  lemma NavigationKeepsFocusAsWritten(m: Model, k: Key)
    requires k == Tab || k == ShiftTab || k == Up || k == Down
    ensures var r := Step(m, KeyMsg(k)).0;
      r.apiKeyInput == m.apiKeyInput && r.workspaceInput == m.workspaceInput
  {
  }

  /** As intended, after any navigation key the field of the new slot, and only it, has focus. */
  lemma NavigationMovesFocus(m: Model, k: Key)
    requires k == Tab || k == ShiftTab || k == Up || k == Down
    ensures var r := IntendedStep(m, KeyMsg(k)).0;
      r.currentIndex == Step(m, KeyMsg(k)).0.currentIndex &&
      (r.apiKeyInput.focused <==> r.currentIndex == ApiKeyInput) &&
      (r.workspaceInput.focused <==> r.currentIndex == WorkspaceInput) &&
      r.apiKeyInput.value == m.apiKeyInput.value && r.workspaceInput.value == m.workspaceInput.value
  {
  }

  /** Enter on the workspace slot opens the list and fetches when a key is entered, and does nothing otherwise. */
  lemma EnterOnWorkspace(m: Model)
    requires m.currentIndex == WorkspaceInput
    ensures m.apiKeyInput.value != "" ==>
      Step(m, KeyMsg(Enter)) == (m.(showWorkspacesList := true), FetchWorkspaces(m.apiKeyInput.value))
    ensures m.apiKeyInput.value == "" ==> Step(m, KeyMsg(Enter)) == (m, NoCmd)
  {
  }

  /** As intended, enter on the save button asks for the configuration to be saved and shows that it is saving. */
  lemma EnterOnSave(m: Model)
    requires m.currentIndex == SaveButton
    ensures IntendedStep(m, KeyMsg(Enter)) == (m.(saving := true), SaveConfig(m.config, m.userId))
  {
  }

  /** Esc hides the list and puts its cursor back on the first workspace. */
  lemma EscClosesList(m: Model)
    ensures var r := Step(m, KeyMsg(Esc));
      !r.0.showWorkspacesList && r.0.selectedWorkspaceIndex == 0 && r.1 == NoCmd &&
      r.0.apiKeyInput.value == m.apiKeyInput.value && r.0.workspaceInput.value == m.workspaceInput.value
  {
  }

  /** "j" and "k" in the shown list keep its cursor on a workspace. */
  lemma ListCursorStaysInList(m: Model, k: Key)
    requires m.showWorkspacesList && 0 <= m.selectedWorkspaceIndex < |m.workspaces|
    requires k == Rune('j') || k == Rune('k')
    ensures var r := Step(m, KeyMsg(k)).0;
      0 <= r.selectedWorkspaceIndex < |r.workspaces| && r.workspaces == m.workspaces &&
      (k == Rune('j') ==> r.selectedWorkspaceIndex == if m.selectedWorkspaceIndex < |m.workspaces| - 1 then m.selectedWorkspaceIndex + 1 else m.selectedWorkspaceIndex) &&
      (k == Rune('k') ==> r.selectedWorkspaceIndex == if m.selectedWorkspaceIndex > 0 then m.selectedWorkspaceIndex - 1 else m.selectedWorkspaceIndex)
  {
  }

  /** Enter is caught before the list's own enter case: it never takes a workspace from the list. */
  lemma ListEnterUnreachable(m: Model)
    requires m.showWorkspacesList
    ensures var r := Step(m, KeyMsg(Enter)).0;
      r.workspaceInput == m.workspaceInput && r.selectedWorkspaceIndex == m.selectedWorkspaceIndex && r.showWorkspacesList
  {
  }

  /** The three result messages always end the saving state. */
  lemma ResultsEndSaving(m: Model, msg: Msg)
    requires msg.WorkspacesLoadedMsg? || msg.ConfigSavedMsg? || msg.ErrorMsg?
    ensures !Step(m, msg).0.saving && Step(m, msg).1 == NoCmd
  {
  }

  /** While the list is shown no message changes the text of either field. */
  lemma ListShownKeepsFields(m: Model, msg: Msg)
    requires m.showWorkspacesList
    ensures var r := Step(m, msg).0;
      r.apiKeyInput.value == m.apiKeyInput.value && r.workspaceInput.value == m.workspaceInput.value
  {
  }

  /** While the list is hidden, a typed character (even "j", "k" or "q") reaches the API-key field on its slot. */
  lemma HiddenListFeedsField(m: Model, c: char)
    requires !m.showWorkspacesList && m.currentIndex == ApiKeyInput
    ensures Step(m, KeyMsg(Rune(c))).0.apiKeyInput == KeyUpdate(m.apiKeyInput, Rune(c))
  {
  }

  // ---------------------------------------------------------------------------
  // Focus after navigation: as written and as intended
  // ---------------------------------------------------------------------------

  /**
   * As written, `updateFocus` has a value receiver, so its `Focus` and `Blur`
   * calls change a copy. From a fresh view with no workspace configured, tab
   * reaches the workspace slot but its field never gains focus, so a typed
   * character is lost.
   */
  lemma WorkspaceTypingLostAsWritten(cfg: Config, c: char)
    requires cfg.workspaceId == ""
    ensures var m1 := Step(New(cfg), KeyMsg(Tab)).0;
      m1.currentIndex == WorkspaceInput &&
      Step(m1, KeyMsg(Rune(c))).0.workspaceInput.value == ""
  {
  }

  /** With the focus moved as intended, the same keys type into the workspace field. */
  lemma WorkspaceTypingReachesField(cfg: Config, c: char)
    requires cfg.workspaceId == ""
    ensures var m1 := IntendedStep(New(cfg), KeyMsg(Tab)).0;
      m1.currentIndex == WorkspaceInput &&
      IntendedStep(m1, KeyMsg(Rune(c))).0.workspaceInput.value == [c]
  {
  }

  /** As written, enter on the save button issues the save but leaves the view, and so `saving`, unchanged. */
  lemma SavingNeverShownAsWritten(m: Model)
    requires m.currentIndex == SaveButton
    ensures Step(m, KeyMsg(Enter)) == (m, SaveConfig(m.config, m.userId))
    ensures !m.saving ==> !Step(m, KeyMsg(Enter)).0.saving
  {
  }
}
