/** The mentor chat: the greeting, the keyword classifier that picks the
    mentor's reply, the quest built from a stated goal, and the message
    list with its typing indicator. Timers become explicit steps: a sent
    message leaves a pending reply, and a reply to a goal leaves a pending
    quest; each fires later as its own method call. */
module MentorChat {
  import opened Wrappers
  import opened Strings
  import QuestSystem

  datatype MentorMessage = MentorMessage(id: string, content: string, isUser: bool)

  /** `userProfile?.name || 'there'`: an absent or empty name falls back to
      "there". */
  function GreetingName(name: Option<string>): (r: string)
    ensures name.Some? && name.value != "" ==> r == name.value
    ensures name.None? || name.value == "" ==> r == "there"
    ensures r != ""
  {
    if name.Some? && name.value != "" then name.value else "there"
  }

  const GreetingClosing :=
    "! I'm your AI mentor, here to help you achieve your goals through personalized quests and guidance. What would you like to work on today?"

  function Greeting(name: Option<string>): (m: MentorMessage)
    ensures m.id == "1" && !m.isUser
    ensures m.content == "Hello " + GreetingName(name) + GreetingClosing
  {
    MentorMessage("1", "Hello " + GreetingName(name) + GreetingClosing, false)
  }

  // ----- the classifier -------------------------------------------------------

  /** The branch of `generateMentorResponse` a message takes. */
  datatype Topic = GoalTopic | StuckTopic | MotivationTopic | ProductivityTopic | OtherTopic

  /** `words.some(w => lower.includes(w))`, written out as the chain of
      `includes` tests. */
  predicate Mentions(lower: string, words: seq<string>) {
    exists k :: 0 <= k < |words| && Contains(lower, words[k])
  }

  const GoalKeywords: seq<string> := ["goal", "want to", "need to"]
  const StuckKeywords: seq<string> := ["stuck", "difficult", "hard"]
  const MotivationKeywords: seq<string> := ["procrastinate", "motivation"]
  const ProductivityKeywords: seq<string> := ["productive", "focus"]

  predicate GoalWords(lower: string) { Mentions(lower, GoalKeywords) }
  predicate StuckWords(lower: string) { Mentions(lower, StuckKeywords) }
  predicate MotivationWords(lower: string) { Mentions(lower, MotivationKeywords) }
  predicate ProductivityWords(lower: string) { Mentions(lower, ProductivityKeywords) }

  /** The keyword tests on the lower-cased message, in their priority order:
      a topic is chosen only when no earlier topic's words occur. */
  function Classify(message: string): (t: Topic)
    ensures var lower := ToLower(message);
      && (t == GoalTopic <==> GoalWords(lower))
      && (t == StuckTopic <==> !GoalWords(lower) && StuckWords(lower))
      && (t == MotivationTopic <==> !GoalWords(lower) && !StuckWords(lower) && MotivationWords(lower))
      && (t == ProductivityTopic <==>
            !GoalWords(lower) && !StuckWords(lower) && !MotivationWords(lower) && ProductivityWords(lower))
      && (t == OtherTopic <==>
            !GoalWords(lower) && !StuckWords(lower) && !MotivationWords(lower) && !ProductivityWords(lower))
  {
    var lower := ToLower(message);
    if GoalWords(lower) then GoalTopic
    else if StuckWords(lower) then StuckTopic
    else if MotivationWords(lower) then MotivationTopic
    else if ProductivityWords(lower) then ProductivityTopic
    else OtherTopic
  }

  /** The classifier does not see the case of the message. */
  lemma ClassifyIgnoresCase(message: string)
    ensures Classify(ToUpper(message)) == Classify(message)
  {
    LowerOfUpper(message);
  }

  /** A goal word wins over every later topic: "Hard goal" schedules a
      quest although "hard" is a word of being stuck. */
  lemma GoalOutranksStuck()
    ensures StuckWords(ToLower("Hard goal"))
    ensures Classify("Hard goal") == GoalTopic
  {
    var lower := ToLower("Hard goal");
    assert lower == "hard goal";
    assert lower[..4] == "hard" && lower[5..] == "goal";
    assert OccursAt(lower, "hard", 0) && OccursAt(lower, "goal", 5);
    assert Contains(lower, StuckKeywords[2]) && Contains(lower, GoalKeywords[0]);
  }

  const GoalReply := "That sounds like a great goal! Let me create a personalized quest to help you achieve it. \U{1F3AF}"
  const StuckReply := "I understand it feels challenging right now. Remember, every expert was once a beginner. Let's break this down into smaller, manageable steps. What specific part is causing you the most difficulty?"
  const MotivationReply := "Procrastination is often fear in disguise. Let's tackle this with a micro-habit approach. What's the smallest step you could take right now that would move you forward?"
  const ProductivityReply := "Great question! Here are some proven techniques: 1) Use the Pomodoro Technique (25min focused work + 5min break), 2) Eliminate distractions, 3) Set clear priorities for the day. Which resonates most with you?"

  const GenericReplies: seq<string> := [
    "That's an interesting perspective! How does this relate to your current goals?",
    "I appreciate you sharing that. What action step could you take based on this insight?",
    "Excellent! Building on that thought, what would success look like for you?",
    "That shows great self-awareness. How can we turn this into a learning opportunity?",
    "I see the potential here. What resources or support do you need to move forward?"
  ]

  /** `Math.floor(draw * n)` for a draw in [0, 1): an index below `n`. */
  function Pick(draw: real, n: nat): (k: nat)
    requires 0.0 <= draw < 1.0 && n > 0
    ensures k < n
    ensures k as real <= draw * n as real < k as real + 1.0
  {
    ScaleBelow(draw, n);
    (draw * n as real).Floor
  }

  /** A draw in [0, 1) scaled by `n` stays in [0, n). */
  lemma {:induction false} ScaleBelow(draw: real, n: nat)
    requires 0.0 <= draw < 1.0 && n > 0
    ensures 0.0 <= draw * n as real < n as real
  {
    if n > 1 {
      ScaleBelow(draw, n - 1);
      assert draw * n as real == draw * (n - 1) as real + draw;
    }
  }

  /** `generateMentorResponse(message)`, the random draw aside: the fixed
      reply of the message's topic, or one of the five generic replies. */
  function MentorResponse(message: string, draw: real): (reply: string)
    requires 0.0 <= draw < 1.0
    ensures Classify(message) == GoalTopic ==> reply == GoalReply
    ensures Classify(message) == StuckTopic ==> reply == StuckReply
    ensures Classify(message) == MotivationTopic ==> reply == MotivationReply
    ensures Classify(message) == ProductivityTopic ==> reply == ProductivityReply
    ensures Classify(message) == OtherTopic ==> reply in GenericReplies
  {
    match Classify(message)
    case GoalTopic => GoalReply
    case StuckTopic => StuckReply
    case MotivationTopic => MotivationReply
    case ProductivityTopic => ProductivityReply
    case OtherTopic => GenericReplies[Pick(draw, 5)]
  }

  // ----- quest generation -----------------------------------------------------

  /** `userInput.charAt(0).toUpperCase() + userInput.slice(1)`. */
  function Capitalize(s: string): (r: string)
    ensures |r| == |s|
    ensures |s| > 0 ==> r[0] == UpperChar(s[0]) && r[1..] == s[1..]
  {
    if s == [] then [] else [UpperChar(s[0])] + s[1..]
  }

  const QuestTypes: seq<QuestSystem.QuestType> :=
    [QuestSystem.Daily, QuestSystem.Weekly, QuestSystem.Learning, QuestSystem.Habit]
  const Difficulties: seq<QuestSystem.Difficulty> :=
    [QuestSystem.Easy, QuestSystem.Medium, QuestSystem.Hard]

  const SevenDays := 7 * QuestSystem.MsPerDay
  const QuestDescriptionOpening := "Complete this personalized challenge based on your goal: "

  /** `generateQuest(userInput)` with the three draws for the type, the
      reward and the difficulty. The source reads the clock three times
      (for the id, `createdAt` and the deadline); the model takes a single
      reading `now` for all three, so the deadline is exactly seven days
      after `createdAt`. */
  function GenerateQuest(userInput: string, now: nat, typeDraw: real, xpDraw: real, difficultyDraw: real)
    : (q: QuestSystem.Quest)
    requires 0.0 <= typeDraw < 1.0 && 0.0 <= xpDraw < 1.0 && 0.0 <= difficultyDraw < 1.0
    ensures q.id == NatToString(now)
    ensures q.title == "Quest: " + Capitalize(userInput)
    ensures q.description == QuestDescriptionOpening + userInput
    ensures 25 <= q.xpReward <= 74
    ensures q.questType in QuestTypes && q.difficulty in Difficulties
    ensures q.status == QuestSystem.Active
    ensures q.progress.None? && q.maxProgress.None?
    ensures q.createdAt == now && q.deadline == Some(now + SevenDays)
  {
    QuestSystem.Quest(NatToString(now), "Quest: " + Capitalize(userInput), QuestDescriptionOpening + userInput,
                      QuestTypes[Pick(typeDraw, 4)], Pick(xpDraw, 50) + 25,
                      Difficulties[Pick(difficultyDraw, 3)], QuestSystem.Active,
                      None, None, now, Some(now + SevenDays))
  }

  /** On the quest board, a generated quest offers "Mark Complete" and is
      due in seven days. */
  lemma GeneratedQuestOnBoard(userInput: string, now: nat, typeDraw: real, xpDraw: real, difficultyDraw: real)
    requires 0.0 <= typeDraw < 1.0 && 0.0 <= xpDraw < 1.0 && 0.0 <= difficultyDraw < 1.0
    ensures var q := GenerateQuest(userInput, now, typeDraw, xpDraw, difficultyDraw);
      QuestSystem.OfferedAction(q) == QuestSystem.MarkComplete &&
      QuestSystem.DaysUntilDeadline(q.deadline, now) == Some(7)
  {
  }

  /** Every reward from 25 to 74 is reached by some draw. */
  lemma EveryRewardReachable(xp: int)
    requires 25 <= xp <= 74
    ensures GenerateQuest("", 0, 0.0, (xp - 25) as real / 50.0, 0.0).xpReward == xp
  {
    var d := (xp - 25) as real / 50.0;
    assert d * 50.0 == (xp - 25) as real;
  }

  // ----- the chat ---------------------------------------------------------------

  class MentorChatState {
    var messages: seq<MentorMessage>
    var input: string
    var isTyping: bool
    /** Sent texts whose reply timer has not fired yet. */
    var pendingReplies: seq<string>
    /** Goal messages whose quest timer has not fired yet. */
    var pendingQuests: seq<string>

    constructor (name: Option<string>)
      ensures messages == [Greeting(name)] && input == "" && !isTyping
      ensures pendingReplies == [] && pendingQuests == []
    {
      messages := [Greeting(name)];
      input := "";
      isTyping := false;
      pendingReplies := [];
      pendingQuests := [];
    }

    method SetInput(text: string)
      modifies this`input
      ensures input == text
    {
      input := text;
    }

    /** `handleSend`: ignores a blank input; otherwise appends the user's
        message, clears the input, shows the typing indicator and schedules
        the reply to the text sent. It does not look at `isTyping`. */
    method Send(now: nat)
      modifies this`messages, this`input, this`isTyping, this`pendingReplies
      ensures AllWhitespace(old(input)) ==>
                messages == old(messages) && input == old(input) &&
                isTyping == old(isTyping) && pendingReplies == old(pendingReplies)
      ensures !AllWhitespace(old(input)) ==>
                messages == old(messages) + [MentorMessage(NatToString(now), old(input), true)] &&
                input == "" && isTyping && pendingReplies == old(pendingReplies) + [old(input)]
    {
      BlankIffAllWhitespace(input);
      if IsBlank(input) {
        return;
      }
      messages := messages + [MentorMessage(NatToString(now), input, true)];
      pendingReplies := pendingReplies + [input];
      input := "";
      isTyping := true;
    }

    /** The send button, disabled for a blank input and while the mentor is
        typing. */
    method PressSend(now: nat) returns (sent: bool)
      modifies this`messages, this`input, this`isTyping, this`pendingReplies
      ensures sent <==> !old(isTyping) && !AllWhitespace(old(input))
      ensures !sent ==>
                messages == old(messages) && input == old(input) &&
                isTyping == old(isTyping) && pendingReplies == old(pendingReplies)
      ensures sent ==>
                messages == old(messages) + [MentorMessage(NatToString(now), old(input), true)] &&
                input == "" && isTyping && pendingReplies == old(pendingReplies) + [old(input)]
    {
      if isTyping {
        return false;
      }
      sent := !AllWhitespace(input);
      Send(now);
    }

    /** The reply timer of the `k`-th pending text fires at clock `now`:
        the mentor's reply is appended, the typing indicator is cleared and,
        for a goal, the quest timer is scheduled. */
    method ReplyArrives(k: nat, now: nat, draw: real)
      requires k < |pendingReplies| && 0.0 <= draw < 1.0
      modifies this`messages, this`isTyping, this`pendingReplies, this`pendingQuests
      ensures var text := old(pendingReplies)[k];
        && messages == old(messages) + [MentorMessage(NatToString(now + 1), MentorResponse(text, draw), false)]
        && !isTyping
        && pendingReplies == old(pendingReplies)[..k] + old(pendingReplies)[k + 1..]
        && pendingQuests == old(pendingQuests) + (if Classify(text) == GoalTopic then [text] else [])
    {
      var text := pendingReplies[k];
      messages := messages + [MentorMessage(NatToString(now + 1), MentorResponse(text, draw), false)];
      isTyping := false;
      pendingReplies := pendingReplies[..k] + pendingReplies[k + 1..];
      if Classify(text) == GoalTopic {
        pendingQuests := pendingQuests + [text];
      }
    }

    /** The quest timer of the `k`-th pending goal fires: the quest is
        handed to `onQuestGenerated`. */
    method QuestArrives(k: nat, now: nat, typeDraw: real, xpDraw: real, difficultyDraw: real)
      returns (quest: QuestSystem.Quest)
      requires k < |pendingQuests|
      requires 0.0 <= typeDraw < 1.0 && 0.0 <= xpDraw < 1.0 && 0.0 <= difficultyDraw < 1.0
      modifies this`pendingQuests
      ensures quest == GenerateQuest(old(pendingQuests)[k], now, typeDraw, xpDraw, difficultyDraw)
      ensures pendingQuests == old(pendingQuests)[..k] + old(pendingQuests)[k + 1..]
    {
      quest := GenerateQuest(pendingQuests[k], now, typeDraw, xpDraw, difficultyDraw);
      pendingQuests := pendingQuests[..k] + pendingQuests[k + 1..];
    }
  }
}
