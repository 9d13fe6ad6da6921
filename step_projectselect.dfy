/** The project screen of the entry form (step_projectselect.go). */
module ProjectStep {
  import opened GoStrings
  import opened Models
  import opened TextInput
  import opened FormModel

  /** The search text as `filterProjects` compares it: trimmed and lower-cased. */
  function Query(search: string): string {
    ToLower(TrimSpace(search))
  }

  predicate NameMatches(p: Project, q: string) {
    Contains(ToLower(p.name), q)
  }

  /** The projects whose lower-cased name contains `q`, in their original order. */
  function KeepMatching(ps: seq<Project>, q: string): (r: seq<Project>)
    ensures |r| <= |ps|
    decreases |ps|
  {
    if ps == [] then []
    else KeepMatching(ps[..|ps| - 1], q) + (if NameMatches(ps[|ps| - 1], q) then [ps[|ps| - 1]] else [])
  }

  /** `filterProjects`: all projects for a blank search, otherwise the matching ones. */
  function ProjectsMatching(ps: seq<Project>, search: string): seq<Project> {
    if Query(search) == "" then ps else KeepMatching(ps, Query(search))
  }

  /** The list the cursor moves over. */
  function Filtered(m: Form): seq<Project> {
    ProjectsMatching(m.projects, m.projectSearch.value)
  }

  /** The source's append loop computes the same list. */
  method FilterProjects(ps: seq<Project>, search: string) returns (filtered: seq<Project>)
    ensures filtered == ProjectsMatching(ps, search)
  {
    var query := ToLower(TrimSpace(search));
    if query == "" {
      return ps;
    }
    filtered := [];
    var i := 0;
    while i < |ps|
      invariant 0 <= i <= |ps|
      invariant filtered == KeepMatching(ps[..i], query)
    {
      assert ps[..i + 1][..i] == ps[..i];
      if Contains(ToLower(ps[i].name), query) {
        filtered := filtered + [ps[i]];
      }
      i := i + 1;
    }
    assert ps[..|ps|] == ps;
  }

  /** A project is kept exactly when its name matches, and nothing else is added. */
  lemma {:induction false} KeepMatchingMembers(ps: seq<Project>, q: string, p: Project)
    ensures p in KeepMatching(ps, q) <==> p in ps && NameMatches(p, q)
    decreases |ps|
  {
    if ps != [] {
      var init := ps[..|ps| - 1];
      KeepMatchingMembers(init, q, p);
      assert ps == init + [ps[|ps| - 1]];
    }
  }

  /** When every name matches, filtering keeps the whole list. */
  lemma {:induction false} KeepMatchingAll(ps: seq<Project>, q: string)
    requires forall i :: 0 <= i < |ps| ==> NameMatches(ps[i], q)
    ensures KeepMatching(ps, q) == ps
    decreases |ps|
  {
    if ps != [] {
      KeepMatchingAll(ps[..|ps| - 1], q);
      assert ps[..|ps| - 1] + [ps[|ps| - 1]] == ps;
    }
  }

  /** A blank search shows every project. */
  lemma BlankSearchKeepsAll(ps: seq<Project>, search: string)
    requires forall i :: 0 <= i < |search| ==> IsSpace(search[i])
    ensures ProjectsMatching(ps, search) == ps
  {
    TrimAllSpace(search);
  }

  /** A non-blank search keeps exactly the projects whose lower-cased name contains it. */
  lemma SearchFilters(ps: seq<Project>, search: string, p: Project)
    requires Query(search) != ""
    ensures p in ProjectsMatching(ps, search) <==> p in ps && Contains(ToLower(p.name), Query(search))
  {
    KeepMatchingMembers(ps, Query(search), p);
  }

  /** The search ignores case: "web" and "WEB" select the same projects. */
  lemma SearchIgnoresCase(ps: seq<Project>, s1: string, s2: string)
    requires ToLower(s1) == ToLower(s2)
    ensures ProjectsMatching(ps, s1) == ProjectsMatching(ps, s2)
  {
    TrimSpaceToLower(s1);
    TrimSpaceToLower(s2);
  }

  /**
   * `updateProjectSelect`. Up/"k" and down/"j" move the cursor within the
   * filtered list; "/" toggles the search field's focus and returns at once;
   * enter with the search focused only blurs it and resets the cursor, and
   * otherwise picks `filtered[cursor]` when the cursor is inside the list and
   * moves on. Every message that does not return early then reaches the
   * search field. The command is always nil.
   */
  function ProjectSelectStep(m: Form, msg: Msg): (r: Form)
    ensures Configured(m) ==> Configured(r)
    ensures Pressed(msg, Rune('/')) ==>
      r == m.(projectSearch := if m.projectSearch.focused then Blur(m.projectSearch) else Focus(m.projectSearch))
    ensures Pressed(msg, Enter) && m.projectSearch.focused ==>
      r == m.(projectSearch := Blur(m.projectSearch), cursor := 0)
    ensures Pressed(msg, Enter) && !m.projectSearch.focused && m.cursor < |Filtered(m)| ==>
      r == m.(selectedProj := Filtered(m)[m.cursor], timeStart := Focus(m.timeStart), step := m.step + 1, cursor := 0)
    ensures Pressed(msg, Enter) && !m.projectSearch.focused && m.cursor >= |Filtered(m)| ==> r == m
    ensures !(Pressed(msg, Rune('/')) || Pressed(msg, Enter)) ==>
      r.step == m.step && r.selectedProj == m.selectedProj && r.projectSearch == Feed(m.projectSearch, msg)
  {
    if !msg.KeyMsg? then m.(projectSearch := Feed(m.projectSearch, msg))
    else if msg.key == Rune('/') then
      if m.projectSearch.focused then m.(projectSearch := Blur(m.projectSearch))
      else m.(projectSearch := Focus(m.projectSearch))
    else if msg.key == Enter && m.projectSearch.focused then
      m.(projectSearch := Blur(m.projectSearch), cursor := 0)
    else
      var m1 := MoveOrPick(m, msg.key);
      m1.(projectSearch := Feed(m1.projectSearch, msg))
  }

  /**
   * The branches of `updateProjectSelect` that fall through to the search
   * field: the cursor moves, and enter (with the search not focused) picks
   * `filtered[cursor]` when the cursor is inside the list.
   */
  function MoveOrPick(m: Form, k: Key): (r: Form)
    ensures Configured(m) ==> Configured(r)
    ensures r.projects == m.projects && r.projectSearch == m.projectSearch
    ensures (k == Up || k == Rune('k')) ==> r == m.(cursor := if m.cursor > 0 then m.cursor - 1 else m.cursor)
    ensures (k == Down || k == Rune('j')) ==> r == m.(cursor := if m.cursor < |Filtered(m)| - 1 then m.cursor + 1 else m.cursor)
    ensures k == Enter && m.cursor < |Filtered(m)| ==>
      r == m.(selectedProj := Filtered(m)[m.cursor], timeStart := Focus(m.timeStart), step := m.step + 1, cursor := 0)
    ensures k == Enter && m.cursor >= |Filtered(m)| ==> r == m
    ensures k != Enter ==> r.step == m.step && r.selectedProj == m.selectedProj
  {
    if k == Up || k == Rune('k') then
      if m.cursor > 0 then m.(cursor := m.cursor - 1) else m
    else if k == Down || k == Rune('j') then
      if m.cursor < |Filtered(m)| - 1 then m.(cursor := m.cursor + 1) else m
    else if k == Enter then
      var filtered := Filtered(m);
      if |filtered| > 0 && m.cursor < |filtered| then
        m.(selectedProj := filtered[m.cursor], timeStart := Focus(m.timeStart), step := m.step + 1, cursor := 0)
      else m
    else m
  }

  method UpdateProjectSelect(m: Form, msg: Msg) returns (r: Form, cmd: Cmd)
    ensures r == ProjectSelectStep(m, msg) && cmd == NoCmd
  {
    r := m;
    cmd := NoCmd;
    if !msg.KeyMsg? {
      r := r.(projectSearch := Feed(r.projectSearch, msg));
      return;
    }
    var k := msg.key;
    if k == Rune('/') {
      if r.projectSearch.focused {
        r := r.(projectSearch := Blur(r.projectSearch));
        return;
      }
      r := r.(projectSearch := Focus(r.projectSearch));
      return;
    }
    if k == Enter && r.projectSearch.focused {
      r := r.(projectSearch := Blur(r.projectSearch));
      r := r.(cursor := 0);
      return;
    }
    r := MoveCursorOrPick(r, k);
    r := r.(projectSearch := Feed(r.projectSearch, msg));
  }

  /** The cursor and enter branches of `updateProjectSelect`, statement by statement. */
  method MoveCursorOrPick(m: Form, k: Key) returns (r: Form)
    ensures r == MoveOrPick(m, k)
  {
    r := m;
    if k == Up || k == Rune('k') {
      if r.cursor > 0 {
        r := r.(cursor := r.cursor - 1);
      }
    } else if k == Down || k == Rune('j') {
      var filtered := FilterProjects(r.projects, r.projectSearch.value);
      if r.cursor < |filtered| - 1 {
        r := r.(cursor := r.cursor + 1);
      }
    } else if k == Enter {
      var filtered := FilterProjects(r.projects, r.projectSearch.value);
      if |filtered| > 0 && r.cursor < |filtered| {
        r := r.(selectedProj := filtered[r.cursor]);
        r := r.(timeStart := Focus(r.timeStart));
        r := r.(step := r.step + 1);
        r := r.(cursor := 0);
      }
    }
  }

  /** Up/"k" and down/"j" move the cursor one place, stopping at either end of the filtered list. */
  lemma ArrowKeysMoveCursor(m: Form, k: Key)
    ensures (k == Up || k == Rune('k')) ==>
      ProjectSelectStep(m, KeyMsg(k)).cursor == (if m.cursor > 0 then m.cursor - 1 else m.cursor)
    ensures (k == Down || k == Rune('j')) ==>
      ProjectSelectStep(m, KeyMsg(k)).cursor == (if m.cursor < |Filtered(m)| - 1 then m.cursor + 1 else m.cursor)
  {
  }

  /** Moving the cursor with the arrow keys keeps it inside the filtered list. */
  lemma CursorStaysInList(m: Form, k: Key)
    requires k == Up || k == Down
    requires m.cursor < |Filtered(m)|
    ensures ProjectSelectStep(m, KeyMsg(k)).cursor < |Filtered(ProjectSelectStep(m, KeyMsg(k)))|
  {
    var r := ProjectSelectStep(m, KeyMsg(k));
    assert r.projectSearch == m.projectSearch && r.projects == m.projects;
  }

  /** Pressing "/" twice gives the search field back its focus state. */
  lemma SlashTwice(m: Form)
    ensures ProjectSelectStep(ProjectSelectStep(m, KeyMsg(Rune('/'))), KeyMsg(Rune('/'))) == m
  {
  }
}
