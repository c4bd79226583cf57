/** The progress view: completed, total and remaining task counts and the
    rounded completion percentages per milestone and over the whole path. */
module ProgressSection {
  import opened LearningPaths

  function CompletedBit(t: Task): nat {
    if t.completed then 1 else 0
  }

  /** `tasks.filter(task => task.completed).length`. */
  function CompletedIn(tasks: seq<Task>): (r: nat)
    ensures r <= |tasks|
    ensures r == |tasks| <==> forall i :: 0 <= i < |tasks| ==> tasks[i].completed
  {
    if tasks == [] then 0 else CompletedBit(tasks[0]) + CompletedIn(tasks[1..])
  }

  /** The number of tasks over all milestones. */
  function TotalTasks(ms: seq<Milestone>): nat {
    if ms == [] then 0 else |ms[0].tasks| + TotalTasks(ms[1..])
  }

  /** The number of completed tasks over all milestones; never more than
      the number of tasks. */
  function CompletedTasks(ms: seq<Milestone>): (r: nat)
    ensures r <= TotalTasks(ms)
  {
    if ms == [] then 0 else CompletedIn(ms[0].tasks) + CompletedTasks(ms[1..])
  }

  /** `t > 0 ? Math.round((c / t) * 100) : 0`, exactly: the whole number
      nearest to 100c/t, halves rounded up, and 0 when there is nothing to
      count. */
  function RoundPercent(c: nat, t: nat): (r: int)
    ensures t == 0 ==> r == 0
    ensures t > 0 ==> 2 * t * r - t <= 200 * c < 2 * t * r + t
    ensures c <= t ==> 0 <= r <= 100
  {
    if t > 0 then
      RoundingFacts(c, t);
      (200 * c + t) / (2 * t)
    else 0
  }

  /** The quotient behind `RoundPercent` for a positive total. */
  lemma RoundingFacts(c: nat, t: nat)
    requires t > 0
    ensures var r := (200 * c + t) / (2 * t);
      2 * t * r - t <= 200 * c < 2 * t * r + t && 0 <= r && (c <= t ==> r <= 100)
  {
    var a, d := 200 * c + t, 2 * t;
    DivBounds(a, d);
    DivNonNegative(a, d);
    if c <= t {
      DivMonotone(a, d * 100 + t, d);
      DivExact(100, t, d);
    }
  }

  lemma DivBounds(a: int, d: int)
    requires d > 0
    ensures d * (a / d) <= a < d * (a / d) + d
  {
    assert d * (a / d) + a % d == a;
  }

  lemma DivExact(q: int, m: int, d: int)
    requires 0 <= m < d
    ensures (d * q + m) / d == q
  {
    var a := d * q + m;
    DivBounds(a, d);
    var r := a / d;
    assert d * (r - q) < d && d * (q - r) < d;
    BelowFactor(d, r - q);
    BelowFactor(d, q - r);
  }

  lemma DivNonNegative(a: nat, d: int)
    requires d > 0
    ensures a / d >= 0
  {
  }

  lemma DivMonotone(a: int, b: int, d: int)
    requires a <= b && d > 0
    ensures a / d <= b / d
  {
    var qa, qb := a / d, b / d;
    assert d * qa + a % d == a && d * qb + b % d == b;
    assert d * (qa - qb) < d;
    BelowFactor(d, qa - qb);
  }

  lemma MulMonotone(d: nat, x: int, y: int)
    requires x <= y
    ensures d * x <= d * y
  {
    assert d * y - d * x == d * (y - x);
  }

  lemma BelowFactor(d: int, x: int)
    requires d > 0 && d * x < d
    ensures x < 1
  {
  }

  /** `calculateMilestoneProgress`: a percentage, 0 for a milestone without
      tasks or with none completed, 100 when all of at least one task are
      completed. */
  function MilestoneProgress(m: Milestone): (r: int)
    ensures 0 <= r <= 100
    ensures |m.tasks| == 0 || CompletedIn(m.tasks) == 0 ==> r == 0
    ensures |m.tasks| > 0 && (forall i :: 0 <= i < |m.tasks| ==> m.tasks[i].completed) ==> r == 100
  {
    ZeroIff(CompletedIn(m.tasks), |m.tasks|);
    HundredIff(CompletedIn(m.tasks), |m.tasks|);
    RoundPercent(CompletedIn(m.tasks), |m.tasks|)
  }

  /** `calculateOverallProgress`: a percentage, 0 without tasks or with none
      completed, 100 when every task of a path with tasks is completed. */
  function OverallProgress(ms: seq<Milestone>): (r: int)
    ensures 0 <= r <= 100
    ensures TotalTasks(ms) == 0 || CompletedTasks(ms) == 0 ==> r == 0
    ensures 0 < TotalTasks(ms) == CompletedTasks(ms) ==> r == 100
  {
    ZeroIff(CompletedTasks(ms), TotalTasks(ms));
    HundredIff(CompletedTasks(ms), TotalTasks(ms));
    RoundPercent(CompletedTasks(ms), TotalTasks(ms))
  }

  /** The "Remaining" count shown beside the completed count. */
  function RemainingTasks(ms: seq<Milestone>): (r: nat)
    ensures r + CompletedTasks(ms) == TotalTasks(ms)
  {
    TotalTasks(ms) - CompletedTasks(ms)
  }

  /** A milestone card is drawn as completed when its percentage is 100. */
  predicate IsCompleted(m: Milestone)
    ensures IsCompleted(m) <==> |m.tasks| > 0 && 200 * (|m.tasks| - CompletedIn(m.tasks)) <= |m.tasks|
  {
    HundredIff(CompletedIn(m.tasks), |m.tasks|);
    MilestoneProgress(m) == 100
  }

  /** A path without tasks scores 0 overall, a milestone without tasks
      scores 0, and every percentage lies in [0, 100]. */
  lemma ProgressBounds(ms: seq<Milestone>)
    ensures TotalTasks(ms) == 0 ==> OverallProgress(ms) == 0
    ensures 0 <= OverallProgress(ms) <= 100
    ensures forall i :: 0 <= i < |ms| ==> 0 <= MilestoneProgress(ms[i]) <= 100
    ensures forall i :: 0 <= i < |ms| && ms[i].tasks == [] ==> MilestoneProgress(ms[i]) == 0
  {
  }

  /** Two of four tasks complete gives 50. */
  lemma HalfOfFour()
    ensures RoundPercent(2, 4) == 50
  {
  }

  /** The percentage reaches 100 exactly when the incomplete tasks are at
      most a two-hundredth of all tasks (rounding). */
  lemma HundredIff(c: nat, t: nat)
    requires c <= t
    ensures RoundPercent(c, t) == 100 <==> t > 0 && 200 * (t - c) <= t
  {
    if t > 0 {
      var r := RoundPercent(c, t);
      if r == 100 {
        assert 2 * t * 100 - t <= 200 * c;
      } else {
        MulMonotone(2 * t, r, 99);
        assert 200 * c < 199 * t;
      }
    }
  }

  /** The percentage is 0 exactly when the completed tasks are fewer than
      a two-hundredth of all tasks, or there are none. */
  lemma ZeroIff(c: nat, t: nat)
    requires c <= t
    ensures RoundPercent(c, t) == 0 <==> t == 0 || 200 * c < t
  {
    if t > 0 {
      var r := RoundPercent(c, t);
      if 200 * c < t {
        assert 2 * t * r < 2 * t;
        BelowFactor(2 * t, r);
      }
    }
  }

  /** A milestone with tasks, all completed, shows 100 and is completed; with
      exactly one incomplete task it is completed iff it has 200 or more
      tasks. */
  lemma MilestoneCompletion(m: Milestone)
    ensures |m.tasks| > 0 && (forall i :: 0 <= i < |m.tasks| ==> m.tasks[i].completed) ==>
              MilestoneProgress(m) == 100 && IsCompleted(m)
    ensures CompletedIn(m.tasks) + 1 == |m.tasks| ==> (IsCompleted(m) <==> |m.tasks| >= 200)
  {
    HundredIff(CompletedIn(m.tasks), |m.tasks|);
  }

  /** More completed tasks out of the same total never lower the
      percentage. */
  lemma RoundPercentMonotone(c1: nat, c2: nat, t: nat)
    requires c1 <= c2
    ensures RoundPercent(c1, t) <= RoundPercent(c2, t)
  {
    if t > 0 {
      DivMonotone(200 * c1 + t, 200 * c2 + t, 2 * t);
    }
  }

  lemma {:induction false} CompletedInUpdate(tasks: seq<Task>, j: nat, t: Task)
    requires j < |tasks|
    ensures CompletedIn(tasks[j := t]) == CompletedIn(tasks) - CompletedBit(tasks[j]) + CompletedBit(t)
  {
    if j > 0 {
      assert tasks[j := t][1..] == tasks[1..][j - 1 := t];
      CompletedInUpdate(tasks[1..], j - 1, t);
    }
  }

  lemma {:induction false} TotalsUpdate(ms: seq<Milestone>, i: nat, m: Milestone)
    requires i < |ms|
    ensures TotalTasks(ms[i := m]) == TotalTasks(ms) - |ms[i].tasks| + |m.tasks|
    ensures CompletedTasks(ms[i := m]) == CompletedTasks(ms) - CompletedIn(ms[i].tasks) + CompletedIn(m.tasks)
  {
    if i > 0 {
      assert ms[i := m][1..] == ms[1..][i - 1 := m];
      TotalsUpdate(ms[1..], i - 1, m);
    }
  }

  /** Marking one more task complete, anywhere in the path, never lowers the
      overall percentage. */
  lemma MarkCompleteMonotone(ms: seq<Milestone>, i: nat, j: nat)
    requires i < |ms| && j < |ms[i].tasks|
    ensures var m := ms[i];
            var m' := m.(tasks := m.tasks[j := m.tasks[j].(completed := true)]);
            OverallProgress(ms) <= OverallProgress(ms[i := m'])
  {
    var m := ms[i];
    var t := m.tasks[j].(completed := true);
    var m' := m.(tasks := m.tasks[j := t]);
    CompletedInUpdate(m.tasks, j, t);
    TotalsUpdate(ms, i, m');
    RoundPercentMonotone(CompletedTasks(ms), CompletedTasks(ms[i := m']), TotalTasks(ms));
  }
}
