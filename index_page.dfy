/** The dashboard page: which screen is shown, the learning path, the
    user's own tools and the theme flag, with the handlers that replace
    them. */
module IndexPage {
  import opened Wrappers
  import opened LearningPaths
  import ProgressSection
  import Lists

  datatype AppState = Landing | Mentor | Dashboard

  /** What the page renders below the theme button. */
  datatype Screen = LandingScreen | MentorScreen | DashboardScreen(path: LearningPath) | Blank

  // ----- task toggle -------------------------------------------------------

  function ToggleTaskIn(tasks: seq<Task>, taskId: string): seq<Task> {
    seq(|tasks|, k requires 0 <= k < |tasks| =>
      if tasks[k].id == taskId then tasks[k].(completed := !tasks[k].completed) else tasks[k])
  }

  /** The new milestones `handleTaskToggle` computes with `map`. */
  function ToggleTask(ms: seq<Milestone>, milestoneId: string, taskId: string): seq<Milestone> {
    seq(|ms|, i requires 0 <= i < |ms| =>
      if ms[i].id == milestoneId then ms[i].(tasks := ToggleTaskIn(ms[i].tasks, taskId)) else ms[i])
  }

  /** `handleTaskToggle`'s new path: only the milestones change, and their
      number and ids stay. */
  function TogglePath(p: LearningPath, milestoneId: string, taskId: string): (r: LearningPath)
    ensures r.goal == p.goal && r.suggestedTools == p.suggestedTools
    ensures |r.milestones| == |p.milestones|
    ensures forall i :: 0 <= i < |r.milestones| ==> r.milestones[i].id == p.milestones[i].id
  {
    p.(milestones := ToggleTask(p.milestones, milestoneId, taskId))
  }

  /** Only the `completed` flags of the tasks whose id matches, inside the
      milestones whose id matches, change; the goal, the tools, every other
      milestone and task, and every other field stay as they were. */
  lemma TogglePathFrame(p: LearningPath, milestoneId: string, taskId: string)
    ensures var q := TogglePath(p, milestoneId, taskId);
      && q.goal == p.goal && q.suggestedTools == p.suggestedTools
      && |q.milestones| == |p.milestones|
      && (forall i :: 0 <= i < |p.milestones| && p.milestones[i].id != milestoneId ==>
            q.milestones[i] == p.milestones[i])
      && (forall i :: 0 <= i < |p.milestones| ==>
            q.milestones[i].(tasks := []) == p.milestones[i].(tasks := []) &&
            |q.milestones[i].tasks| == |p.milestones[i].tasks|)
      && (forall i, k :: 0 <= i < |p.milestones| && 0 <= k < |p.milestones[i].tasks| ==>
            var t, t' := p.milestones[i].tasks[k], q.milestones[i].tasks[k];
            t'.(completed := false) == t.(completed := false) &&
            (t'.completed != t.completed <==> p.milestones[i].id == milestoneId && t.id == taskId))
  {
  }

  /** Toggling the same task twice restores the path. */
  lemma TogglePathInvolution(p: LearningPath, milestoneId: string, taskId: string)
    ensures TogglePath(TogglePath(p, milestoneId, taskId), milestoneId, taskId) == p
  {
    var ms := p.milestones;
    var ms2 := ToggleTask(ToggleTask(ms, milestoneId, taskId), milestoneId, taskId);
    forall i | 0 <= i < |ms|
      ensures ms2[i] == ms[i]
    {
      if ms[i].id == milestoneId {
        var ts := ms[i].tasks;
        assert ToggleTaskIn(ToggleTaskIn(ts, taskId), taskId) == ts;
      }
    }
    assert ms2 == ms;
  }

  lemma {:induction false} ToggleTaskInKeepsCount(tasks: seq<Task>, taskId: string)
    ensures |ToggleTaskIn(tasks, taskId)| == |tasks|
    ensures taskId !in TaskIds(tasks) ==>
              ProgressSection.CompletedIn(ToggleTaskIn(tasks, taskId)) == ProgressSection.CompletedIn(tasks)
    decreases |tasks|
  {
    if tasks != [] {
      assert ToggleTaskIn(tasks, taskId)[1..] == ToggleTaskIn(tasks[1..], taskId);
      ToggleTaskInKeepsCount(tasks[1..], taskId);
    }
  }

  function TaskIds(tasks: seq<Task>): set<string> {
    set k | 0 <= k < |tasks| :: tasks[k].id
  }

  /** Toggling never changes how many tasks the path has, so the overall
      percentage keeps its denominator. */
  lemma {:induction false} ToggleKeepsTotal(ms: seq<Milestone>, milestoneId: string, taskId: string)
    ensures ProgressSection.TotalTasks(ToggleTask(ms, milestoneId, taskId)) == ProgressSection.TotalTasks(ms)
    decreases |ms|
  {
    if ms != [] {
      assert ToggleTask(ms, milestoneId, taskId)[1..] == ToggleTask(ms[1..], milestoneId, taskId);
      ToggleTaskInKeepsCount(ms[0].tasks, taskId);
      ToggleKeepsTotal(ms[1..], milestoneId, taskId);
    }
  }

  // ----- the user's tools --------------------------------------------------

  /** `userTools.filter(tool => tool.id !== toolId)`. */
  function RemoveTool(tools: seq<Tool>, toolId: string): (r: seq<Tool>)
    ensures forall k :: 0 <= k < |r| ==> r[k].id != toolId
    ensures forall t: Tool :: t.id != toolId ==> multiset(r)[t] == multiset(tools)[t]
    ensures Lists.IsSubsequence(r, tools)
  {
    if tools == [] then []
    else
      var rest := RemoveTool(tools[1..], toolId);
      assert tools == [tools[0]] + tools[1..];
      if tools[0].id == toolId then
        Lists.SubsequenceTail(rest, tools);
        rest
      else
        Lists.SubsequencePrepend(rest, tools[1..], tools[0]);
        [tools[0]] + rest
  }

  /** Removing an id nobody has leaves the list as it was. */
  lemma {:induction false} RemoveAbsentTool(tools: seq<Tool>, toolId: string)
    requires forall k :: 0 <= k < |tools| ==> tools[k].id != toolId
    ensures RemoveTool(tools, toolId) == tools
  {
    if tools != [] {
      RemoveAbsentTool(tools[1..], toolId);
    }
  }

  /** Adding a tool and then removing its id is the same as removing that
      id from the list before the addition. */
  lemma {:induction false} RemoveAfterAdd(tools: seq<Tool>, t: Tool)
    ensures RemoveTool(tools + [t], t.id) == RemoveTool(tools, t.id)
  {
    if tools == [] {
      assert ([t])[1..] == [];
    } else {
      assert (tools + [t])[1..] == tools[1..] + [t];
      RemoveAfterAdd(tools[1..], t);
    }
  }

  // ----- theme ---------------------------------------------------------------

  /** The theme stored under `mentor-theme` decodes to dark mode unless it is
      exactly `light`. */
  function DecodeTheme(saved: Option<string>): (dark: bool)
    ensures !dark <==> saved == Some("light")
  {
    if saved == Some("light") then false else true
  }

  function ThemeName(dark: bool): string {
    if dark then "dark" else "light"
  }

  /** What `toggleTheme` stores decodes back to the new flag. */
  lemma ThemeRoundTrip(dark: bool)
    ensures DecodeTheme(Some(ThemeName(dark))) == dark
  {
  }

  // ----- loading a saved path ----------------------------------------------

  /** A JSON value as `JSON.parse` returns it for a task's `completed`. */
  datatype JsonValue = Undefined | Null | Bool(b: bool) | Number(n: real) | Text(s: string)

  /** `Boolean(v)`. */
  function Truthy(v: JsonValue): bool {
    match v
    case Undefined => false
    case Null => false
    case Bool(b) => b
    case Number(n) => n != 0.0
    case Text(s) => s != ""
  }

  datatype StoredTask = StoredTask(id: string, title: string, description: string, completed: JsonValue)
  datatype StoredMilestone = StoredMilestone(id: string, title: string, description: string,
                                             tasks: seq<StoredTask>, order: int)
  datatype StoredPath = StoredPath(goal: string, milestones: seq<StoredMilestone>, suggestedTools: seq<Tool>)

  /** The load-time repair of a saved path: every task's `completed` becomes
      `Boolean(task.completed)`, everything else is kept. */
  function NormalizeTask(t: StoredTask): Task {
    Task(t.id, t.title, t.description, Truthy(t.completed))
  }

  function NormalizeMilestone(m: StoredMilestone): Milestone {
    Milestone(m.id, m.title, m.description, seq(|m.tasks|, k requires 0 <= k < |m.tasks| => NormalizeTask(m.tasks[k])), m.order)
  }

  function NormalizePath(p: StoredPath): LearningPath {
    LearningPath(p.goal, seq(|p.milestones|, i requires 0 <= i < |p.milestones| => NormalizeMilestone(p.milestones[i])),
                 p.suggestedTools)
  }

  /** How `saveData` writes a path: `completed` as a JSON boolean. */
  function StorePath(p: LearningPath): StoredPath {
    StoredPath(p.goal,
      seq(|p.milestones|, i requires 0 <= i < |p.milestones| =>
        var m := p.milestones[i];
        StoredMilestone(m.id, m.title, m.description,
          seq(|m.tasks|, k requires 0 <= k < |m.tasks| =>
            StoredTask(m.tasks[k].id, m.tasks[k].title, m.tasks[k].description, Bool(m.tasks[k].completed))),
          m.order)),
      p.suggestedTools)
  }

  /** Loading a saved path gives back the path that was saved. */
  lemma StoreLoadRoundTrip(p: LearningPath)
    ensures NormalizePath(StorePath(p)) == p
  {
    var q := NormalizePath(StorePath(p));
    forall i | 0 <= i < |p.milestones|
      ensures q.milestones[i] == p.milestones[i]
    {
      assert q.milestones[i].tasks == p.milestones[i].tasks;
    }
    assert q.milestones == p.milestones;
  }

  // ----- the page --------------------------------------------------------------

  class Dashboard {
    var appState: AppState
    var learningPath: Option<LearningPath>
    var userTools: seq<Tool>
    var darkMode: bool

    /** The state before the mount effect runs. */
    constructor ()
      ensures appState == Landing && learningPath == None && userTools == [] && darkMode
    {
      appState := Landing;
      learningPath := None;
      userTools := [];
      darkMode := true;
    }

    /** The dashboard tabs render only when the state is `dashboard` and a
        path is present; otherwise nothing below the theme button. */
    function View(): (v: Screen)
      reads this
      ensures v.DashboardScreen? <==> appState == Dashboard && learningPath.Some?
      ensures v.Blank? <==> appState == Dashboard && learningPath.None?
    {
      match appState
      case Landing => LandingScreen
      case Mentor => MentorScreen
      case Dashboard => if learningPath.Some? then DashboardScreen(learningPath.value) else Blank
    }

    /** The mount effect, given the decoded storage entries: a saved path is
        repaired and opens the dashboard, saved tools replace the list, and
        the theme flag is decoded. */
    method Load(savedPath: Option<StoredPath>, savedTools: Option<seq<Tool>>, savedTheme: Option<string>)
      modifies this
      ensures savedPath.Some? ==> learningPath == Some(NormalizePath(savedPath.value)) && appState == Dashboard
      ensures savedPath.None? ==> learningPath == old(learningPath) && appState == old(appState)
      ensures userTools == if savedTools.Some? then savedTools.value else old(userTools)
      ensures darkMode == DecodeTheme(savedTheme)
    {
      if savedPath.Some? {
        learningPath := Some(NormalizePath(savedPath.value));
        appState := Dashboard;
      }
      if savedTools.Some? {
        userTools := savedTools.value;
      }
      darkMode := DecodeTheme(savedTheme);
    }

    /** Flips the flag and returns the name stored under `mentor-theme`,
        which decodes back to the new flag. */
    method ToggleTheme() returns (stored: string)
      modifies this`darkMode
      ensures darkMode == !old(darkMode)
      ensures stored == ThemeName(darkMode) && DecodeTheme(Some(stored)) == darkMode
    {
      darkMode := !darkMode;
      stored := ThemeName(darkMode);
    }

    method StartJourney()
      modifies this`appState
      ensures appState == Mentor
    {
      appState := Mentor;
    }

    method PathGenerated(path: LearningPath)
      modifies this`appState, this`learningPath
      ensures learningPath == Some(path) && appState == Dashboard
      ensures View() == DashboardScreen(path)
    {
      learningPath := Some(path);
      appState := Dashboard;
    }

    method BackToHome()
      modifies this`appState
      ensures appState == Landing
    {
      appState := Landing;
    }

    method BackToMentor()
      modifies this`appState
      ensures appState == Mentor
    {
      appState := Mentor;
    }

    /** Without a path nothing happens; otherwise the path becomes the
        toggled path. */
    method HandleTaskToggle(milestoneId: string, taskId: string)
      modifies this`learningPath
      ensures old(learningPath).None? ==> learningPath == None
      ensures old(learningPath).Some? ==>
                learningPath == Some(TogglePath(old(learningPath).value, milestoneId, taskId))
    {
      if learningPath.None? {
        return;
      }
      learningPath := Some(TogglePath(learningPath.value, milestoneId, taskId));
    }

    method HandleAddTool(tool: Tool)
      modifies this`userTools
      ensures userTools == old(userTools) + [tool]
    {
      userTools := userTools + [tool];
    }

    method HandleRemoveTool(toolId: string)
      modifies this`userTools
      ensures userTools == RemoveTool(old(userTools), toolId)
    {
      userTools := RemoveTool(userTools, toolId);
    }
  }
}
