/** The quest board: completing a quest, advancing its progress, the active
    and completed lists, the days left before a deadline and the actions a
    quest card offers. XP is awarded by a callback; each call is recorded as
    an `Award`. */
module QuestSystem {
  import opened Wrappers
  import Lists

  datatype QuestType = Daily | Weekly | Learning | Habit
  datatype Difficulty = Easy | Medium | Hard
  datatype Status = Active | Completed | Failed

  /** Timestamps are milliseconds since the epoch. */
  datatype Quest = Quest(id: string, title: string, description: string, questType: QuestType,
                         xpReward: int, difficulty: Difficulty, status: Status,
                         progress: Option<int>, maxProgress: Option<int>,
                         createdAt: int, deadline: Option<int>)

  /** One call of `onQuestComplete(questId, xpGained)`. */
  datatype Award = Award(questId: string, xpGained: int)

  predicate UniqueIds(quests: seq<Quest>) {
    forall i, j :: 0 <= i < j < |quests| ==> quests[i].id != quests[j].id
  }

  // ----- handleCompleteQuest ---------------------------------------------------

  function MarkCompleted(quests: seq<Quest>, questId: string): seq<Quest> {
    seq(|quests|, i requires 0 <= i < |quests| =>
      if quests[i].id == questId then quests[i].(status := Completed) else quests[i])
  }

  /** `handleCompleteQuest(quest)`: the quests with the same id become
      completed, nothing else changes, and exactly one award of the quest's
      reward is made. */
  method CompleteQuest(quests: seq<Quest>, quest: Quest) returns (updated: seq<Quest>, awards: seq<Award>)
    ensures |updated| == |quests|
    ensures forall i :: 0 <= i < |quests| ==>
              updated[i] == if quests[i].id == quest.id then quests[i].(status := Completed) else quests[i]
    ensures awards == [Award(quest.id, quest.xpReward)]
  {
    updated := MarkCompleted(quests, quest.id);
    awards := [Award(quest.id, quest.xpReward)];
  }

  // ----- updateQuestProgress ---------------------------------------------------

  /** `quest.maxProgress || 100`: a missing or zero maximum means 100. */
  function Threshold(q: Quest): (t: int)
    ensures q.maxProgress.Some? && q.maxProgress.value != 0 ==> t == q.maxProgress.value
    ensures q.maxProgress.None? || q.maxProgress.value == 0 ==> t == 100
  {
    match q.maxProgress
    case Some(m) => if m != 0 then m else 100
    case None => 100
  }

  function ProgressedQuest(q: Quest, questId: string, newProgress: int): Quest {
    if q.id != questId then q
    else if newProgress >= Threshold(q) then q.(progress := Some(newProgress), status := Completed)
    else q.(progress := Some(newProgress))
  }

  function ProgressedQuests(quests: seq<Quest>, questId: string, newProgress: int): seq<Quest> {
    seq(|quests|, i requires 0 <= i < |quests| => ProgressedQuest(quests[i], questId, newProgress))
  }

  /** The awards `updateQuestProgress` makes, in list order: one for each
      quest with the id whose new progress reaches its threshold. */
  function ProgressAwards(quests: seq<Quest>, questId: string, newProgress: int): seq<Award>
    decreases |quests|
  {
    if quests == [] then []
    else
      var last := quests[|quests| - 1];
      ProgressAwards(quests[..|quests| - 1], questId, newProgress)
        + if last.id == questId && newProgress >= Threshold(last) then [Award(questId, last.xpReward)] else []
  }

  /** `updateQuestProgress(questId, newProgress)`: the `map` over the quests,
      which stores the new progress unclamped on the matching quest, marks it
      completed when the progress reaches its threshold and then calls the
      award callback. */
  method UpdateQuestProgress(quests: seq<Quest>, questId: string, newProgress: int)
    returns (updated: seq<Quest>, awards: seq<Award>)
    ensures updated == ProgressedQuests(quests, questId, newProgress)
    ensures awards == ProgressAwards(quests, questId, newProgress)
  {
    updated, awards := [], [];
    var i := 0;
    while i < |quests|
      invariant 0 <= i <= |quests|
      invariant updated == ProgressedQuests(quests[..i], questId, newProgress)
      invariant awards == ProgressAwards(quests[..i], questId, newProgress)
    {
      var quest := quests[i];
      assert quests[..i + 1][..i] == quests[..i];
      if quest.id == questId {
        var updatedQuest := quest.(progress := Some(newProgress));
        if newProgress >= Threshold(quest) {
          updatedQuest := updatedQuest.(status := Completed);
          awards := awards + [Award(questId, quest.xpReward)];
        }
        updated := updated + [updatedQuest];
      } else {
        updated := updated + [quest];
      }
      i := i + 1;
    }
    assert quests[..i] == quests;
  }

  /** The progress is stored as given on the matching quests; those reach
      `completed` exactly when it meets the threshold and otherwise keep
      their status; every other quest is unchanged. */
  lemma ProgressFrame(quests: seq<Quest>, questId: string, newProgress: int)
    ensures var r := ProgressedQuests(quests, questId, newProgress);
      |r| == |quests| &&
      forall i :: 0 <= i < |quests| ==>
        if quests[i].id != questId then r[i] == quests[i]
        else r[i].progress == Some(newProgress) &&
             r[i].(progress := None, status := Active) == quests[i].(progress := None, status := Active) &&
             r[i].status == (if newProgress >= Threshold(quests[i]) then Completed else quests[i].status)
  {
  }

  /** With unique ids, a progress update on a listed quest makes exactly one
      award of its reward when the threshold is reached and none below it;
      an unknown id makes none. */
  lemma {:induction false} ProgressAwardsOnce(quests: seq<Quest>, questId: string, newProgress: int)
    requires UniqueIds(quests)
    ensures forall k :: 0 <= k < |quests| && quests[k].id == questId ==>
              ProgressAwards(quests, questId, newProgress) ==
                if newProgress >= Threshold(quests[k]) then [Award(questId, quests[k].xpReward)] else []
    ensures (forall k :: 0 <= k < |quests| ==> quests[k].id != questId) ==>
              ProgressAwards(quests, questId, newProgress) == []
    decreases |quests|
  {
    if quests != [] {
      var init := quests[..|quests| - 1];
      ProgressAwardsOnce(init, questId, newProgress);
      assert forall k :: 0 <= k < |init| ==> init[k] == quests[k];
    }
  }

  // ----- the lists ---------------------------------------------------------------

  /** `quests.filter(quest => quest.status === s)`. */
  function WithStatus(quests: seq<Quest>, s: Status): (r: seq<Quest>)
    ensures forall k :: 0 <= k < |r| ==> r[k].status == s
    ensures forall q: Quest :: q.status == s ==> multiset(r)[q] == multiset(quests)[q]
    ensures |r| <= |quests|
    ensures Lists.IsSubsequence(r, quests)
  {
    if quests == [] then []
    else
      var rest := WithStatus(quests[1..], s);
      assert quests == [quests[0]] + quests[1..];
      assert multiset(quests) == multiset{quests[0]} + multiset(quests[1..]);
      if quests[0].status == s then
        Lists.SubsequencePrepend(rest, quests[1..], quests[0]);
        [quests[0]] + rest
      else
        Lists.SubsequenceTail(rest, quests);
        rest
  }

  /** `activeQuests`: every active quest, in order, and nothing else. */
  function ActiveQuests(quests: seq<Quest>): (r: seq<Quest>)
    ensures forall k :: 0 <= k < |r| ==> r[k].status == Active
    ensures forall q: Quest :: q.status == Active ==> multiset(r)[q] == multiset(quests)[q]
    ensures Lists.IsSubsequence(r, quests)
  {
    WithStatus(quests, Active)
  }

  /** `completedQuests`: every completed quest, in order, and nothing else. */
  function CompletedQuests(quests: seq<Quest>): (r: seq<Quest>)
    ensures forall k :: 0 <= k < |r| ==> r[k].status == Completed
    ensures forall q: Quest :: q.status == Completed ==> multiset(r)[q] == multiset(quests)[q]
    ensures Lists.IsSubsequence(r, quests)
  {
    WithStatus(quests, Completed)
  }

  /** The completed quests shown: the first five. */
  function ShownCompleted(quests: seq<Quest>): (r: seq<Quest>)
    ensures |r| <= 5
    ensures forall k :: 0 <= k < |r| ==> r[k].status == Completed
    ensures |r| == if |CompletedQuests(quests)| < 5 then |CompletedQuests(quests)| else 5
    ensures r == CompletedQuests(quests)[..|r|]
  {
    var c := CompletedQuests(quests);
    if |c| <= 5 then c else c[..5]
  }

  /** Every quest lands in exactly one of the active, completed and failed
      lists, so failed quests are in neither of the two shown lists. */
  lemma StatusPartition(quests: seq<Quest>)
    ensures multiset(ActiveQuests(quests)) + multiset(CompletedQuests(quests)) + multiset(WithStatus(quests, Failed))
            == multiset(quests)
    ensures |ActiveQuests(quests)| + |CompletedQuests(quests)| + |WithStatus(quests, Failed)| == |quests|
  {
    var a, c, f := ActiveQuests(quests), CompletedQuests(quests), WithStatus(quests, Failed);
    forall q: Quest
      ensures (multiset(a) + multiset(c) + multiset(f))[q] == multiset(quests)[q]
    {
      OtherStatusAbsent(a, Active, q);
      OtherStatusAbsent(c, Completed, q);
      OtherStatusAbsent(f, Failed, q);
    }
    assert multiset(a) + multiset(c) + multiset(f) == multiset(quests);
    assert |multiset(a) + multiset(c) + multiset(f)| == |a| + |c| + |f|;
  }

  /** A list of quests all with status `s` holds no quest of another status. */
  lemma OtherStatusAbsent(r: seq<Quest>, s: Status, q: Quest)
    requires forall k :: 0 <= k < |r| ==> r[k].status == s
    ensures q.status != s ==> multiset(r)[q] == 0
  {
    if q.status != s {
      assert q !in r;
    }
  }

  // ----- deadline -------------------------------------------------------------------

  const MsPerDay := 1000 * 60 * 60 * 24

  /** `Math.ceil(a / b)` for a positive divisor. */
  function CeilDiv(a: int, b: int): (r: int)
    requires b > 0
    ensures (r - 1) * b < a <= r * b
  {
    -((-a) / b)
  }

  /** Days left: absent without a deadline, otherwise the whole days needed
      to cover the time from `now` to the deadline, rounded up (negative once
      it has passed). */
  function DaysUntilDeadline(deadline: Option<int>, now: int): (r: Option<int>)
    ensures r.None? <==> deadline.None?
    ensures r.Some? ==> (r.value - 1) * MsPerDay < deadline.value - now <= r.value * MsPerDay
  {
    match deadline
    case None => None
    case Some(d) => Some(CeilDiv(d - now, MsPerDay))
  }

  // ----- the actions a quest card offers ---------------------------------------

  datatype Action = NoActions | MarkComplete | UpdateProgress(enabled: bool)

  /** Active quests with a progress and a non-zero maximum offer the progress
      button, disabled once the progress reaches the maximum; other active
      quests offer "Mark Complete"; completed and failed quests offer
      nothing. */
  function OfferedAction(q: Quest): (a: Action)
    ensures a != NoActions <==> q.status == Active
    ensures a.UpdateProgress? <==>
              q.status == Active && q.progress.Some? && q.maxProgress.Some? && q.maxProgress.value != 0
    ensures a.UpdateProgress? ==> (a.enabled <==> q.progress.value < q.maxProgress.value)
  {
    if q.status != Active then NoActions
    else if q.progress.Some? && q.maxProgress.Some? && q.maxProgress.value != 0 then
      UpdateProgress(q.progress.value < q.maxProgress.value)
    else MarkComplete
  }

  /** Clicking an enabled progress button on a listed quest (ids unique)
      advances it by one; if that completes it, exactly one award is made and
      the quest then offers no action, so no second award can follow. */
  lemma ProgressClickAwardsOnce(quests: seq<Quest>, k: nat)
    requires UniqueIds(quests) && k < |quests|
    requires OfferedAction(quests[k]) == UpdateProgress(true)
    ensures var q := quests[k];
            var p := q.progress.value + 1;
            var r := ProgressedQuests(quests, q.id, p);
            var a := ProgressAwards(quests, q.id, p);
            (p >= q.maxProgress.value ==> a == [Award(q.id, q.xpReward)] && OfferedAction(r[k]) == NoActions) &&
            (p < q.maxProgress.value ==> a == [] && r[k].status == Active)
  {
    ProgressAwardsOnce(quests, quests[k].id, quests[k].progress.value + 1);
  }

  /** After "Mark Complete" the quest offers no action, so it cannot be
      completed and awarded a second time. */
  lemma CompleteClickAwardsOnce(quests: seq<Quest>, k: nat)
    requires k < |quests| && OfferedAction(quests[k]) == MarkComplete
    ensures OfferedAction(MarkCompleted(quests, quests[k].id)[k]) == NoActions
  {
  }
}
