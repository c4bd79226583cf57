/** The learning-path generation function: the goal check, the extraction
    of the JSON text from the model's reply, and the reshaping of the
    parsed reply into a learning path with default ids, orders and
    categories. The upstream call and `JSON.parse` are parameters. */
module GenerateLearningPath {
  import opened Wrappers
  import opened Strings
  import opened LearningPaths
  import ProgressSection

  // ----- the parsed reply ---------------------------------------------------------

  /** A field that may be absent; absent and empty are both falsy. */
  predicate Falsy(s: Option<string>) {
    s.None? || s.value == ""
  }

  datatype RawTask = RawTask(id: Option<string>, title: string, description: string, completed: Option<bool>)

  /** `tasks` is absent when the reply has no list there. */
  datatype RawMilestone = RawMilestone(id: Option<string>, title: string, description: string,
                                       order: Option<int>, tasks: Option<seq<RawTask>>)

  datatype RawTool = RawTool(id: Option<string>, name: string, category: Option<string>,
                             description: string, url: Option<string>)

  datatype RawReply = RawReply(milestones: Option<seq<RawMilestone>>, tools: Option<seq<RawTool>>)

  // ----- default ids --------------------------------------------------------------

  function MilestoneId(i: nat): string {
    "milestone-" + NatToString(i + 1)
  }

  function TaskId(i: nat, j: nat): string {
    NatToString(i + 1) + "-" + NatToString(j + 1)
  }

  function ToolId(i: nat): string {
    "tool-" + NatToString(i + 1)
  }

  /** In a digit string followed by `-`, the first `-` is right after the
      digits. */
  lemma FirstDash(a: string, x: string)
    requires forall k :: 0 <= k < |a| ==> IsDigit(a[k])
    ensures IndexOfFrom(a + "-" + x, "-", 0) == Some(|a|)
  {
    var s := a + "-" + x;
    assert s[|a|..|a| + 1] == "-";
    assert OccursAt(s, "-", |a|);
    forall k | 0 <= k < |a|
      ensures !OccursAt(s, "-", k)
    {
      assert s[k] == a[k];
    }
  }

  /** Two digit strings each followed by `-` split the same way. */
  lemma DigitsDashSplit(a1: string, b1: string, a2: string, b2: string)
    requires forall k :: 0 <= k < |a1| ==> IsDigit(a1[k])
    requires forall k :: 0 <= k < |a2| ==> IsDigit(a2[k])
    requires a1 + "-" + b1 == a2 + "-" + b2
    ensures a1 == a2 && b1 == b2
  {
    FirstDash(a1, b1);
    FirstDash(a2, b2);
    var s := a1 + "-" + b1;
    assert |a1| == |a2|;
    assert a1 == s[..|a1|] && a2 == s[..|a2|];
    assert b1 == s[|a1| + 1..] && b2 == s[|a2| + 1..];
  }

  /** Distinct positions get distinct default task ids. */
  lemma TaskIdInjective(i1: nat, j1: nat, i2: nat, j2: nat)
    requires TaskId(i1, j1) == TaskId(i2, j2)
    ensures i1 == i2 && j1 == j2
  {
    DigitsDashSplit(NatToString(i1 + 1), NatToString(j1 + 1), NatToString(i2 + 1), NatToString(j2 + 1));
    NatToStringInjective(i1 + 1, i2 + 1);
    NatToStringInjective(j1 + 1, j2 + 1);
  }

  /** Distinct positions get distinct default milestone and tool ids. */
  lemma PrefixedIdInjective(i1: nat, i2: nat)
    ensures MilestoneId(i1) == MilestoneId(i2) ==> i1 == i2
    ensures ToolId(i1) == ToolId(i2) ==> i1 == i2
  {
    if MilestoneId(i1) == MilestoneId(i2) {
      assert NatToString(i1 + 1) == MilestoneId(i1)[10..] == MilestoneId(i2)[10..] == NatToString(i2 + 1);
      NatToStringInjective(i1 + 1, i2 + 1);
    }
    if ToolId(i1) == ToolId(i2) {
      assert NatToString(i1 + 1) == ToolId(i1)[5..] == ToolId(i2)[5..] == NatToString(i2 + 1);
      NatToStringInjective(i1 + 1, i2 + 1);
    }
  }

  // ----- reshaping ------------------------------------------------------------------

  /** The task at position `j` of milestone `i`: a falsy id becomes
      `{i+1}-{j+1}`, and the task starts not completed whatever the reply
      says. */
  function ReshapeTask(t: RawTask, i: nat, j: nat): (r: Task)
    ensures r.id == if Falsy(t.id) then TaskId(i, j) else t.id.value
    ensures r.title == t.title && r.description == t.description && !r.completed
  {
    Task(if Falsy(t.id) then TaskId(i, j) else t.id.value, t.title, t.description, false)
  }

  function ReshapeTasks(tasks: seq<RawTask>, i: nat): seq<Task> {
    seq(|tasks|, j requires 0 <= j < |tasks| => ReshapeTask(tasks[j], i, j))
  }

  /** `milestone.order || index + 1`: absent and zero are both falsy. */
  function OrderOr(order: Option<int>, i: nat): (r: int)
    ensures order.Some? && order.value != 0 ==> r == order.value
    ensures order.None? || order.value == 0 ==> r == i + 1
    ensures r != 0
  {
    if order.Some? && order.value != 0 then order.value else i + 1
  }

  /** The milestone at position `i`: a falsy id becomes `milestone-{i+1}`,
      and each task is reshaped at its own position. */
  function ReshapeMilestone(m: RawMilestone, i: nat): (r: Milestone)
    requires m.tasks.Some?
    ensures r.id == if Falsy(m.id) then MilestoneId(i) else m.id.value
    ensures r.title == m.title && r.description == m.description && r.order == OrderOr(m.order, i)
    ensures |r.tasks| == |m.tasks.value|
    ensures forall j :: 0 <= j < |r.tasks| ==> r.tasks[j] == ReshapeTask(m.tasks.value[j], i, j) && !r.tasks[j].completed
  {
    Milestone(if Falsy(m.id) then MilestoneId(i) else m.id.value, m.title, m.description,
              ReshapeTasks(m.tasks.value, i), OrderOr(m.order, i))
  }

  predicate AllTaskLists(ms: seq<RawMilestone>) {
    forall i :: 0 <= i < |ms| ==> ms[i].tasks.Some?
  }

  function ReshapeMilestones(ms: seq<RawMilestone>): seq<Milestone>
    requires AllTaskLists(ms)
  {
    seq(|ms|, i requires 0 <= i < |ms| => ReshapeMilestone(ms[i], i))
  }

  /** A falsy tool id becomes `tool-{i+1}`, a falsy category `General`. */
  function ReshapeTool(t: RawTool, i: nat): (r: Tool)
    ensures r.id == if Falsy(t.id) then ToolId(i) else t.id.value
    ensures r.category == if Falsy(t.category) then "General" else t.category.value
    ensures r.name == t.name && r.description == t.description && r.url == t.url && r.isCustom.None?
  {
    Tool(if Falsy(t.id) then ToolId(i) else t.id.value, t.name,
         if Falsy(t.category) then "General" else t.category.value,
         t.description, t.url, None)
  }

  /** `tools.map((tool, index) => ...)`: one tool per entry, in order. */
  function ReshapeTools(tools: seq<RawTool>): (r: seq<Tool>)
    ensures |r| == |tools|
    ensures forall i :: 0 <= i < |r| ==> r[i].name == tools[i].name && r[i].description == tools[i].description
    ensures forall i :: 0 <= i < |r| && Falsy(tools[i].id) ==> r[i].id == ToolId(i)
  {
    seq(|tools|, i requires 0 <= i < |tools| => ReshapeTool(tools[i], i))
  }

  /** Why a request ends with status 400. */
  datatype ErrorKind =
    | GoalRequired
    | UpstreamError(statusText: string)
    | UnparsableReply
      /** The parsed reply lacks `milestones`, `tools` or a milestone's
          `tasks`, and the `map` over it throws. */
    | MalformedReply

  /** The reply reshaped into a learning path for `goal`, or the failure of
      a missing list. */
  function Reshape(goal: string, reply: RawReply): (r: Result<LearningPath, ErrorKind>)
    ensures r.Failure? <==> reply.milestones.None? || reply.tools.None? || !AllTaskLists(reply.milestones.value)
    ensures r.Failure? ==> r.error == MalformedReply
  {
    if reply.milestones.None? || !AllTaskLists(reply.milestones.value) || reply.tools.None? then
      Failure(MalformedReply)
    else
      Success(LearningPath(goal, ReshapeMilestones(reply.milestones.value), ReshapeTools(reply.tools.value)))
  }

  /** The path echoes the goal and keeps the number and order of the
      milestones, of each milestone's tasks and of the tools: entry `i` of
      each list comes from entry `i` of the reply, with its title, name and
      description as given and every task not completed. */
  lemma ReshapeKeepsShape(goal: string, reply: RawReply)
    requires Reshape(goal, reply).Success?
    ensures var p := Reshape(goal, reply).value;
      var ms, tools := reply.milestones.value, reply.tools.value;
      && p.goal == goal
      && |p.milestones| == |ms| && |p.suggestedTools| == |tools|
      && (forall i :: 0 <= i < |ms| ==>
            && p.milestones[i] == ReshapeMilestone(ms[i], i)
            && p.milestones[i].title == ms[i].title && p.milestones[i].description == ms[i].description
            && p.milestones[i].order == OrderOr(ms[i].order, i)
            && |p.milestones[i].tasks| == |ms[i].tasks.value|
            && (forall j :: 0 <= j < |ms[i].tasks.value| ==>
                  p.milestones[i].tasks[j] == ReshapeTask(ms[i].tasks.value[j], i, j)))
      && (forall i :: 0 <= i < |tools| ==> p.suggestedTools[i] == ReshapeTool(tools[i], i))
  {
  }

  /** Tasks, milestones and tools that came without an id all get distinct
      ids. */
  lemma DefaultIdsDistinct(goal: string, reply: RawReply)
    requires Reshape(goal, reply).Success?
    ensures var p := Reshape(goal, reply).value;
      var ms := reply.milestones.value;
      && (forall i1, i2 :: 0 <= i1 < i2 < |ms| && Falsy(ms[i1].id) && Falsy(ms[i2].id) ==>
            p.milestones[i1].id != p.milestones[i2].id)
      && (forall i1, j1, i2, j2 ::
            0 <= i1 < |ms| && 0 <= j1 < |ms[i1].tasks.value| && 0 <= i2 < |ms| && 0 <= j2 < |ms[i2].tasks.value| &&
            (i1, j1) != (i2, j2) && Falsy(ms[i1].tasks.value[j1].id) && Falsy(ms[i2].tasks.value[j2].id) ==>
            p.milestones[i1].tasks[j1].id != p.milestones[i2].tasks[j2].id)
      && (forall i1, i2 ::
            (0 <= i1 < i2 < |reply.tools.value| &&
             Falsy(reply.tools.value[i1].id) && Falsy(reply.tools.value[i2].id)) ==>
            p.suggestedTools[i1].id != p.suggestedTools[i2].id)
  {
    forall i1: nat, i2: nat | i1 != i2
      ensures MilestoneId(i1) != MilestoneId(i2) && ToolId(i1) != ToolId(i2)
    {
      PrefixedIdInjective(i1, i2);
    }
    forall i1: nat, j1: nat, i2: nat, j2: nat | (i1, j1) != (i2, j2)
      ensures TaskId(i1, j1) != TaskId(i2, j2)
    {
      if TaskId(i1, j1) == TaskId(i2, j2) {
        TaskIdInjective(i1, j1, i2, j2);
      }
    }
  }

  lemma {:induction false} NoneCompleted(ms: seq<Milestone>)
    requires forall i, j :: 0 <= i < |ms| && 0 <= j < |ms[i].tasks| ==> !ms[i].tasks[j].completed
    ensures ProgressSection.CompletedTasks(ms) == 0
    decreases |ms|
  {
    if ms != [] {
      assert ProgressSection.CompletedIn(ms[0].tasks) == 0 by {
        NoneCompletedIn(ms[0].tasks);
      }
      NoneCompleted(ms[1..]);
    }
  }

  lemma {:induction false} NoneCompletedIn(tasks: seq<Task>)
    requires forall j :: 0 <= j < |tasks| ==> !tasks[j].completed
    ensures ProgressSection.CompletedIn(tasks) == 0
    decreases |tasks|
  {
    if tasks != [] {
      NoneCompletedIn(tasks[1..]);
    }
  }

  /** No reshaped task is completed. */
  lemma ReshapedNotCompleted(ms: seq<RawMilestone>)
    requires AllTaskLists(ms)
    ensures var r := ReshapeMilestones(ms);
      forall i, j :: 0 <= i < |r| && 0 <= j < |r[i].tasks| ==> !r[i].tasks[j].completed
  {
  }

  /** A freshly generated path shows 0% overall and 0% on every milestone. */
  lemma FreshPathAtZero(goal: string, reply: RawReply)
    requires Reshape(goal, reply).Success?
    ensures var p := Reshape(goal, reply).value;
      ProgressSection.OverallProgress(p.milestones) == 0 &&
      forall i :: 0 <= i < |p.milestones| ==> ProgressSection.MilestoneProgress(p.milestones[i]) == 0
  {
    var ms := ReshapeMilestones(reply.milestones.value);
    assert Reshape(goal, reply).value.milestones == ms;
    ReshapedNotCompleted(reply.milestones.value);
    NoneCompleted(ms);
    ProgressSection.ZeroIff(0, ProgressSection.TotalTasks(ms));
    forall i | 0 <= i < |ms|
      ensures ProgressSection.MilestoneProgress(ms[i]) == 0
    {
      NoneCompletedIn(ms[i].tasks);
      ProgressSection.ZeroIff(0, |ms[i].tasks|);
    }
  }

  // ----- extracting the JSON text ----------------------------------------------------

  /** A match of the fenced-block pattern: it starts at `start`, its
      capture runs from `captureStart` to `captureEnd`, and it ends at
      `end`. */
  datatype Fence = Fence(start: nat, captureStart: nat, captureEnd: nat, end: nat)

  const Opening := "```json"
  const Closing := "```"
  const NewlineClosing := "\n```"

  /** Where the capture of a fence opened at `p` begins: after the opening
      and the newline that may follow it. */
  function CaptureStart(content: string, p: nat): nat {
    if p + 7 < |content| && content[p + 7] == '\n' then p + 8 else p + 7
  }

  /** The lazy capture ends at the first position from which a closing
      fence, with or without a leading newline, follows. */
  predicate ClosesAt(content: string, e: int) {
    OccursAt(content, NewlineClosing, e) || OccursAt(content, Closing, e)
  }

  /** The leftmost match of ```` /```json\n?(.*?)\n?```/s ````. */
  function FindFence(content: string): (r: Option<Fence>)
    ensures r.None? <==>
      var p := IndexOfFrom(content, Opening, 0);
      p.None? || IndexOfFrom(content, Closing, CaptureStart(content, p.value)).None?
    ensures r.Some? ==>
      && IndexOfFrom(content, Opening, 0) == Some(r.value.start)
      && r.value.captureStart == CaptureStart(content, r.value.start)
      && r.value.captureStart <= r.value.captureEnd
      && ClosesAt(content, r.value.captureEnd)
      && (forall e :: r.value.captureStart <= e < r.value.captureEnd ==> !ClosesAt(content, e))
      && r.value.end == r.value.captureEnd + (if OccursAt(content, NewlineClosing, r.value.captureEnd) then 4 else 3)
      && r.value.end <= |content|
  {
    match IndexOfFrom(content, Opening, 0)
    case None => None
    case Some(p) =>
      var s := CaptureStart(content, p);
      match IndexOfFrom(content, Closing, s)
      case None => None
      case Some(b) =>
        var e := match IndexOfFrom(content, NewlineClosing, s)
                 case Some(a) => if a < b then a else b
                 case None => b;
        Some(Fence(p, s, e, e + if OccursAt(content, NewlineClosing, e) then 4 else 3))
  }

  /** The leftmost match of `/\{[\s\S]*\}/`: from the first `{` to the last
      `}`, when that comes after it. */
  function FindBraces(content: string): (r: Option<(nat, nat)>)
    ensures r.None? <==>
      var i := IndexOfFrom(content, "{", 0);
      i.None? || LastIndexOfUpto(content, "}", |content| - 1).None? ||
      LastIndexOfUpto(content, "}", |content| - 1).value < i.value
    ensures r.Some? ==>
      && r.value.0 < r.value.1 < |content|
      && content[r.value.0] == '{' && content[r.value.1] == '}'
      && (forall k :: 0 <= k < r.value.0 ==> content[k] != '{')
      && (forall k :: r.value.1 < k < |content| ==> content[k] != '}')
  {
    match IndexOfFrom(content, "{", 0)
    case None => None
    case Some(i) =>
      match LastIndexOfUpto(content, "}", |content| - 1)
      case None => None
      case Some(j) =>
        if j < i then None
        else
          OccursAtChar(content, '{', i);
          OccursAtChar(content, '}', j);
          forall k | 0 <= k < i
            ensures content[k] != '{'
          {
            OccursAtChar(content, '{', k);
          }
          forall k | j < k < |content|
            ensures content[k] != '}'
          {
            OccursAtChar(content, '}', k);
          }
          Some((i, j))
  }

  /** `jsonMatch ? (jsonMatch[1] || jsonMatch[0]) : content`: the fenced
      block's contents (the whole fenced match when they are empty), else
      the outermost braces, else the whole text. */
  function ExtractJson(content: string): (r: string)
    ensures FindFence(content).Some? ==>
      var f := FindFence(content).value;
      r == if f.captureStart < f.captureEnd then content[f.captureStart..f.captureEnd] else content[f.start..f.end]
    ensures FindFence(content).None? && FindBraces(content).Some? ==>
      |r| >= 2 && r[0] == '{' && r[|r| - 1] == '}' &&
      r == content[FindBraces(content).value.0..FindBraces(content).value.1 + 1]
    ensures FindFence(content).None? && FindBraces(content).None? ==> r == content
  {
    match FindFence(content)
    case Some(f) =>
      if f.captureStart < f.captureEnd then content[f.captureStart..f.captureEnd] else content[f.start..f.end]
    case None =>
      match FindBraces(content)
      case Some((i, j)) => content[i..j + 1]
      case None => content
  }

  /** A block fenced as ```` ```json ```` on its own line gives back exactly
      its contents, when they are not empty and hold no fence. */
  lemma FencedRoundTrip(body: string)
    requires |body| > 0 && !Contains(body, Closing)
    ensures ExtractJson(Opening + "\n" + body + NewlineClosing) == body
  {
    var content := Opening + "\n" + body + NewlineClosing;
    var n := |body|;
    assert content[0..7] == Opening;
    assert OccursAt(content, Opening, 0);
    assert content[7] == '\n';
    assert CaptureStart(content, 0) == 8;
    assert content[8 + n..8 + n + 4] == NewlineClosing;
    assert OccursAt(content, NewlineClosing, 8 + n);
    assert content[9 + n..12 + n] == Closing;
    assert OccursAt(content, Closing, 9 + n);
    forall e | 8 <= e <= 8 + n
      ensures !OccursAt(content, Closing, e)
    {
      if e + 3 <= 8 + n {
        assert content[e..e + 3] == body[e - 8..e - 5];
        assert !OccursAt(body, Closing, e - 8);
      } else {
        assert content[e..e + 3][8 + n - e] == '\n';
      }
    }
    forall e | 8 <= e < 8 + n
      ensures !ClosesAt(content, e)
    {
      assert !OccursAt(content, Closing, e) && !OccursAt(content, Closing, e + 1);
    }
    var f := FindFence(content).value;
    assert f.captureEnd == 8 + n;
    assert content[8..8 + n] == body;
  }

  /** Without a fence, the text between the first `{` and the last `}` is
      taken, whatever surrounds it. */
  lemma BracesRoundTrip(before: string, inner: string, after: string)
    requires forall k :: 0 <= k < |before| ==> before[k] != '{'
    requires forall k :: 0 <= k < |after| ==> after[k] != '}'
    requires !Contains(before + "{" + inner + "}" + after, Opening)
    ensures ExtractJson(before + "{" + inner + "}" + after) == "{" + inner + "}"
  {
    var content := before + "{" + inner + "}" + after;
    var i, j := |before|, |before| + 1 + |inner|;
    assert content[i] == '{' && content[j] == '}';
    assert IndexOfFrom(content, Opening, 0).None? by {
      var p := IndexOfFrom(content, Opening, 0);
      assert p.Some? ==> OccursAt(content, Opening, p.value);
    }
    assert content[i..i + 1] == "{";
    assert OccursAt(content, "{", i);
    assert content[j..j + 1] == "}";
    assert OccursAt(content, "}", j);
    forall k | 0 <= k < i
      ensures content[k] != '{'
    {
      assert content[k] == before[k];
    }
    forall k | j < k < |content|
      ensures content[k] != '}'
    {
      assert content[k] == after[k - j - 1];
    }
    var b := FindBraces(content).value;
    assert b == (i, j);
    assert content[i..j + 1] == "{" + inner + "}";
  }

  // ----- the request --------------------------------------------------------------------

  /** What the upstream call returned: a failed status with its text, or
      the text of the first content block. */
  datatype Upstream = UpstreamFailed(statusText: string) | UpstreamText(text: string)

  datatype Body = PathBody(path: LearningPath) | ErrorBody(failure: ErrorKind)

  datatype Response = Response(status: int, body: Body)

  /** The `error` message of the JSON body for the failures whose message
      the function writes itself. */
  function ErrorMessage(f: ErrorKind): (m: string)
    requires !f.MalformedReply?
    ensures f.GoalRequired? ==> m == "Goal is required"
    ensures f.UpstreamError? ==> m == "Anthropic API error: " + f.statusText
    ensures f.UnparsableReply? ==> m == "Failed to parse LLM response as JSON"
  {
    match f
    case GoalRequired => "Goal is required"
    case UpstreamError(statusText) => "Anthropic API error: " + statusText
    case UnparsableReply => "Failed to parse LLM response as JSON"
  }

  /** The POST handler for a body whose `goal` is `goal`: the upstream reply
      and `JSON.parse` (none when it throws) are given. */
  function HandleRequest(goal: Option<string>, upstream: Upstream, parse: string -> Option<RawReply>)
    : (r: Response)
    ensures r.status == 200 <==> r.body.PathBody?
    ensures r.status == 200 || r.status == 400
    ensures r.body == ErrorBody(GoalRequired) <==> Falsy(goal)
    ensures !Falsy(goal) && upstream.UpstreamFailed? ==> r.body == ErrorBody(UpstreamError(upstream.statusText))
    ensures !Falsy(goal) && upstream.UpstreamText? && parse(ExtractJson(upstream.text)).None? ==>
              r.body == ErrorBody(UnparsableReply)
    ensures Falsy(goal) ==> ErrorMessage(r.body.failure) == "Goal is required"
    ensures !Falsy(goal) && upstream.UpstreamFailed? ==>
              ErrorMessage(r.body.failure) == "Anthropic API error: " + upstream.statusText
    ensures !Falsy(goal) && upstream.UpstreamText? && parse(ExtractJson(upstream.text)).None? ==>
              ErrorMessage(r.body.failure) == "Failed to parse LLM response as JSON"
    ensures !Falsy(goal) && upstream.UpstreamText? && parse(ExtractJson(upstream.text)).Some? ==>
              var reshaped := Reshape(goal.value, parse(ExtractJson(upstream.text)).value);
              && (reshaped.Success? ==> r == Response(200, PathBody(reshaped.value)))
              && (reshaped.Failure? ==> r == Response(400, ErrorBody(reshaped.error)))
    ensures r.body.PathBody? ==>
              && upstream.UpstreamText? && parse(ExtractJson(upstream.text)).Some?
              && Reshape(goal.value, parse(ExtractJson(upstream.text)).value) == Success(r.body.path)
              && r.body.path.goal == goal.value
  {
    if Falsy(goal) then Response(400, ErrorBody(GoalRequired))
    else match upstream
      case UpstreamFailed(statusText) => Response(400, ErrorBody(UpstreamError(statusText)))
      case UpstreamText(text) =>
        match parse(ExtractJson(text))
        case None => Response(400, ErrorBody(UnparsableReply))
        case Some(reply) =>
          match Reshape(goal.value, reply)
          case Success(path) => Response(200, PathBody(path))
          case Failure(failure) => Response(400, ErrorBody(failure))
  }
}
