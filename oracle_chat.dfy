/** The oracle chat: the seeded conversation, free-text exchanges with a
    randomly chosen reply, and the module selector whose choice is handed
    to the workspace. Clock readings and random draws are parameters. */
module OracleChat {
  import opened Wrappers
  import opened Strings
  import Lists

  datatype Sender = User | Oracle

  /** A chat message; `modules` lists module ids offered by the oracle. */
  datatype Message = Message(id: string, content: string, sender: Sender, modules: Option<seq<string>>)

  /** The ids of `availableModules`, in their order. */
  const ModuleIds: seq<string> := ["quests", "calendar", "tasks", "progress", "habits"]

  const Responses: seq<string> := [
    "I perceive wisdom in your words. The path becomes clearer...",
    "The cosmic energies align with your intentions. Continue on this journey...",
    "Your dedication illuminates the way forward. Let us proceed...",
    "The oracle sees great potential in your approach. Trust in your path...",
    "Your spirit resonates with the frequencies of success. Embrace this energy..."
  ]

  const ActivationText :=
    "The chosen modules have been woven into your workspace. Your personalized realm of productivity is now complete. May these tools serve you well on your journey to greatness."

  const ReplyOpening := "I sense great potential within you. \""
  const ReplyClosing :=
    "\" - these words reveal much about your journey ahead. \n\nLet me divine the tools that will best serve your path to enlightenment. I can manifest various modules to assist you:\n\nWould you like me to activate any of these mystical tools for your workspace?"

  /** The middle part of a concatenation occurs in it. */
  lemma ContainsMiddle(a: string, m: string, b: string)
    ensures Contains(a + m + b, m)
  {
    assert (a + m + b)[|a|..|a| + |m|] == m;
    assert OccursAt(a + m + b, m, |a|);
  }

  /** The conversation seeded on mount: the user's initial message, then the
      oracle's reply, quoting it and offering every module. */
  function InitialMessages(initialMessage: string): (r: seq<Message>)
    ensures |r| == 2
    ensures r[0] == Message("user-initial", initialMessage, User, None)
    ensures r[1].sender == Oracle && r[1].id == "oracle-initial"
    ensures r[1].modules == Some(ModuleIds)
    ensures Contains(r[1].content, initialMessage)
  {
    ContainsMiddle(ReplyOpening, initialMessage, ReplyClosing);
    [Message("user-initial", initialMessage, User, None),
     Message("oracle-initial", ReplyOpening + initialMessage + ReplyClosing, Oracle, Some(ModuleIds))]
  }

  /** `generateOracleResponse` for a draw `r` of `Math.random()`: the reply
      at index `floor(r * 5)`. */
  function OracleResponse(r: real): (reply: string)
    requires 0.0 <= r < 1.0
    ensures reply in Responses
    ensures r < 0.2 ==> reply == Responses[0]
    ensures 0.8 <= r ==> reply == Responses[4]
  {
    var k := (r * 5.0).Floor;
    assert 0 <= k < 5;
    Responses[k]
  }

  /** Every one of the five replies is chosen by some draw. */
  lemma EveryResponseReachable(k: nat)
    requires k < 5
    ensures OracleResponse(k as real / 5.0) == Responses[k]
  {
    assert (k as real / 5.0) * 5.0 == k as real;
  }

  class OracleChatState {
    var messages: seq<Message>
    var input: string
    var selectedModules: seq<string>
    var showModuleSelection: bool

    constructor ()
      ensures messages == [] && input == "" && selectedModules == [] && !showModuleSelection
    {
      messages := [];
      input := "";
      selectedModules := [];
      showModuleSelection := false;
    }

    /** The mount effect: replaces the messages by the seeded conversation
        and shows the module selector. */
    method Seed(initialMessage: string)
      modifies this`messages, this`showModuleSelection
      ensures messages == InitialMessages(initialMessage) && showModuleSelection
    {
      messages := InitialMessages(initialMessage);
      showModuleSelection := true;
    }

    method SetInput(text: string)
      modifies this`input
      ensures input == text
    {
      input := text;
    }

    /** `handleSubmit`: a blank input changes nothing; otherwise the user's
        message and then the oracle's reply are appended, with ids taken
        from the two clock readings, and the input is cleared. */
    method Submit(userNow: nat, oracleNow: nat, draw: real)
      requires 0.0 <= draw < 1.0
      modifies this`messages, this`input
      ensures AllWhitespace(old(input)) ==> messages == old(messages) && input == old(input)
      ensures !AllWhitespace(old(input)) ==>
                messages == old(messages) + [Message("user-" + NatToString(userNow), old(input), User, None),
                                             Message("oracle-" + NatToString(oracleNow), OracleResponse(draw), Oracle, None)]
                && input == ""
    {
      BlankIffAllWhitespace(input);
      if IsBlank(input) {
        return;
      }
      var userMessage := Message("user-" + NatToString(userNow), input, User, None);
      var oracleMessage := Message("oracle-" + NatToString(oracleNow), OracleResponse(draw), Oracle, None);
      messages := messages + [userMessage, oracleMessage];
      input := "";
    }

    /** `handleModuleToggle`: removes a selected id, appends an unselected
        one. */
    method ModuleToggle(moduleId: string)
      modifies this`selectedModules
      ensures selectedModules == Lists.ToggleMember(old(selectedModules), moduleId)
      ensures moduleId in selectedModules <==> moduleId !in old(selectedModules)
    {
      selectedModules := Lists.ToggleMember(selectedModules, moduleId);
    }

    /** `handleActivateModules`: hands over the selection as it is, hides
        the selector and appends one oracle message. */
    method ActivateModules(now: nat) returns (activated: seq<string>)
      modifies this`messages, this`showModuleSelection
      ensures activated == selectedModules
      ensures !showModuleSelection
      ensures messages == old(messages) + [Message("oracle-activation-" + NatToString(now), ActivationText, Oracle, None)]
    {
      activated := selectedModules;
      showModuleSelection := false;
      messages := messages + [Message("oracle-activation-" + NatToString(now), ActivationText, Oracle, None)];
    }

    /** The "Manifest Selected Tools" button: rendered only while the
        selector is shown and disabled while nothing is selected, so what it
        hands over is never empty. */
    method PressActivate(now: nat) returns (activated: Option<seq<string>>)
      modifies this`messages, this`showModuleSelection
      ensures activated.Some? <==> old(showModuleSelection) && |selectedModules| > 0
      ensures activated.Some? ==> activated.value == selectedModules && |activated.value| > 0 && !showModuleSelection
      ensures activated.Some? ==>
                messages == old(messages) + [Message("oracle-activation-" + NatToString(now), ActivationText, Oracle, None)]
      ensures activated.None? ==> messages == old(messages) && showModuleSelection == old(showModuleSelection)
    {
      if !showModuleSelection || |selectedModules| == 0 {
        return None;
      }
      var chosen := ActivateModules(now);
      activated := Some(chosen);
    }
  }
}
