# Quest Forge mentor app: a verified model of its core logic

This project models, in Dafny, the logic of the Quest Forge mentor web app:
- the learning-path dashboard, with its task toggling, its tools and its theme flag
- the progress percentages
- the quest board
- the XP-level bar and the recent achievements
- the tool search and custom tools
- the four-step profile wizard
- the oracle and mentor chats
- the server function that turns a language model's reply into a learning path

Each React component becomes one module:
- The state a component replaces through its setters becomes a `class` whose methods have `modifies` clauses.
- The values a component computes with `map`, `filter` and `reduce` become functions.
- Loops that update variables become methods with loop invariants.

Shared modules:
- `Wrappers`: `Option` and `Result`.
- `Strings`: ASCII models of `trim`, `toLowerCase`, `toUpperCase`, `includes`, `indexOf`, `lastIndexOf` and number printing.
- `Lists`: the toggle and remove-all list operations.
- `LearningPaths`: the shared records.

The model replaces the outside world with parameters:
- Clock readings (`Date.now()`) are integer milliseconds.
- Each `Math.random()` draw is a real in [0, 1).
- Callbacks are results: `onQuestComplete` calls are a list of `Award`s, and the tool, profile or module selection handed to a parent is returned.
- The upstream language-model call is an `Upstream` value, and `JSON.parse` is a function parameter.

## Model

| member | source | states |
|---|---|---|
| Strings.BlankIffAllWhitespace | src/components/ToolsSection.tsx:48 | `s.trim()` is empty exactly when every character of `s` is whitespace |
| Strings.LowerOfUpper | src/components/ToolsSection.tsx:42-44 | lower-casing after upper-casing equals lower-casing, so comparisons made after `toLowerCase` ignore case |
| Strings.IndexOfFrom | supabase/functions/generate-learning-path/index.ts:62 | the result is the first occurrence at or after `from`, and there is none when it is absent |
| Strings.LastIndexOfUpto | supabase/functions/generate-learning-path/index.ts:62 | the result is the last occurrence at or before `upto`, and there is none when it is absent |
| Strings.NatToString | supabase/functions/generate-learning-path/index.ts:79 | a number prints as a non-empty string of decimal digits |
| Strings.NatToStringInjective | supabase/functions/generate-learning-path/index.ts:74-86 | distinct numbers print differently |
| Lists.RemoveAll | src/components/ProfileSetup.tsx:96 | `filter(g => g !== x)` removes every copy of `x` and keeps the other elements, in order and with their multiplicities |
| Lists.ToggleMember | src/components/ProfileSetup.tsx:95-97 | after the toggle `x` is present iff it was absent; no other element's count changes; an absent `x` is appended at the end |
| Lists.ToggleTwice | src/components/ProfileSetup.tsx:95-97 | toggling an absent element twice restores the list; toggling a present one twice removes its copies and appends it once at the end |
| Lists.ToggleTwiceMovesPresent | src/components/ProfileSetup.tsx:95-97 | toggling `1` twice in `[1, 2]` gives `[2, 1]`, so a duplicate-free list is restored only up to order |
| Lists.ToggleKeepsNoDuplicates | src/components/ProfileSetup.tsx:95-97 | toggling keeps a duplicate-free list duplicate-free, so the goals and interests never hold a value twice |
| ProgressSection.CompletedIn | src/components/ProgressSection.tsx:42 | the number of completed tasks is at most the number of tasks, and equals it iff every task is completed |
| ProgressSection.CompletedTasks | src/components/ProgressSection.tsx:34-37 | completed tasks over all milestones never exceed the total |
| ProgressSection.RoundPercent | src/components/ProgressSection.tsx:38-43 | 0 when there are no tasks; otherwise the whole number nearest to 100c/t with halves rounded up (2tr − t ≤ 200c < 2tr + t); in [0, 100] when c ≤ t |
| ProgressSection.MilestoneProgress | src/components/ProgressSection.tsx:41-44 | a milestone's percentage lies in [0, 100]; it is 0 without tasks or with none completed, and 100 when all of its tasks are completed |
| ProgressSection.OverallProgress | src/components/ProgressSection.tsx:32-39 | the overall percentage lies in [0, 100]; it is 0 without tasks or with none completed, and 100 when every task of a path with tasks is completed |
| ProgressSection.IsCompleted | src/components/ProgressSection.tsx:91 | a milestone is drawn as completed iff it has tasks and the incomplete ones are at most 1/200 of them |
| ProgressSection.RemainingTasks | src/components/ProgressSection.tsx:79 | remaining plus completed equals the total, and remaining is never negative |
| ProgressSection.ProgressBounds | src/components/ProgressSection.tsx:32-44 | overall progress is 0 without tasks; the overall and every milestone percentage lie in [0, 100] |
| ProgressSection.HalfOfFour | src/components/ProgressSection.tsx:43 | 2 of 4 tasks shows 50 |
| ProgressSection.HundredIff | src/components/ProgressSection.tsx:38-43 | the percentage is 100 iff there are tasks and the incomplete ones are at most 1/200 of them |
| ProgressSection.ZeroIff | src/components/ProgressSection.tsx:38-43 | the percentage is 0 iff there are no tasks or the completed ones are fewer than 1/200 of them |
| ProgressSection.MilestoneCompletion | src/components/ProgressSection.tsx:89-91 | a milestone with all its tasks completed shows 100 and is completed; with one task left it is completed iff it has at least 200 tasks |
| ProgressSection.RoundPercentMonotone | src/components/ProgressSection.tsx:38 | more completed tasks out of the same total never lower the percentage |
| ProgressSection.CompletedInUpdate | src/components/ProgressSection.tsx:42 | replacing one task changes the completed count by that task's change only |
| ProgressSection.TotalsUpdate | src/components/ProgressSection.tsx:33-37 | replacing one milestone changes both totals by that milestone's change only |
| ProgressSection.MarkCompleteMonotone | src/components/ProgressSection.tsx:32-39 | marking any one task complete never lowers the overall percentage |
| IndexPage.TogglePathFrame | src/pages/Index.tsx:112-125 | the toggle flips `completed` exactly on matching tasks inside matching milestones; the goal, the tools and everything else stay unchanged |
| IndexPage.TogglePath | src/pages/Index.tsx:112-125 | the toggle keeps the goal, the tools, the number of milestones and their ids |
| IndexPage.TogglePathInvolution | src/pages/Index.tsx:117-119 | toggling the same task twice restores the path |
| IndexPage.ToggleKeepsTotal | src/pages/Index.tsx:115-123 | toggling never changes the number of tasks |
| IndexPage.RemoveTool | src/pages/Index.tsx:137 | no tool with the id remains; every other tool keeps its multiplicity; the result is a subsequence of the list |
| IndexPage.RemoveAbsentTool | src/pages/Index.tsx:137 | removing an id no tool has leaves the list unchanged |
| IndexPage.RemoveAfterAdd | src/pages/Index.tsx:130-137 | adding a tool and then removing its id equals removing that id from the list as it was before |
| IndexPage.DecodeTheme | src/pages/Index.tsx:72 | dark mode is off exactly when the saved theme is `light` |
| IndexPage.ThemeRoundTrip | src/pages/Index.tsx:89-99 | the name `toggleTheme` stores decodes back to the new flag |
| IndexPage.StoreLoadRoundTrip | src/pages/Index.tsx:54-64 | loading a saved path, with its `Boolean(task.completed)` repair, gives back the path that was saved |
| IndexPage.Dashboard.View | src/pages/Index.tsx:165-199 | the dashboard is shown iff the state is `dashboard` and a path is present; with no path the screen stays blank |
| IndexPage.Dashboard.constructor | src/pages/Index.tsx:43-46 | the page starts on the landing view, without a path or tools, in dark mode |
| IndexPage.Dashboard.Load | src/pages/Index.tsx:49-79 | a saved path is repaired and opens the dashboard; saved tools replace the list; the theme flag is decoded |
| IndexPage.Dashboard.ToggleTheme | src/pages/Index.tsx:89-99 | the flag flips, and the stored name decodes to the new flag |
| IndexPage.Dashboard.StartJourney | src/pages/Index.tsx:102-104 | the state becomes `mentor` |
| IndexPage.Dashboard.PathGenerated | src/pages/Index.tsx:106-110 | the path is stored and the dashboard shows it |
| IndexPage.Dashboard.BackToHome | src/pages/Index.tsx:142-144 | the state becomes `landing` |
| IndexPage.Dashboard.BackToMentor | src/pages/Index.tsx:146-148 | the state becomes `mentor` |
| IndexPage.Dashboard.HandleTaskToggle | src/pages/Index.tsx:112-127 | nothing happens without a path; otherwise the path becomes the toggled path |
| IndexPage.Dashboard.HandleAddTool | src/pages/Index.tsx:130-134 | the tool is appended at the end, without deduplication |
| IndexPage.Dashboard.HandleRemoveTool | src/pages/Index.tsx:136-140 | the tools become the list with every tool of that id removed |
| QuestSystem.CompleteQuest | src/components/QuestSystem.tsx:69-75 | quests with the id become completed; every other quest is unchanged; exactly one award of the quest's reward is made |
| QuestSystem.Threshold | src/components/QuestSystem.tsx:87 | the threshold is `maxProgress`, or 100 when it is missing or zero |
| QuestSystem.UpdateQuestProgress | src/components/QuestSystem.tsx:83-101 | the loop over the quests produces the specified new list and the specified awards, in list order |
| QuestSystem.ProgressFrame | src/components/QuestSystem.tsx:84-97 | the progress is stored unclamped on matching quests; they complete exactly when it reaches the threshold and otherwise keep their status; other quests are unchanged |
| QuestSystem.ProgressAwardsOnce | src/components/QuestSystem.tsx:87-89 | with unique ids there is exactly one award when the threshold is reached, none below it, and none for an unknown id |
| QuestSystem.WithStatus | src/components/QuestSystem.tsx:66-67 | the filter keeps exactly the quests with that status, with their multiplicities, in their order (a subsequence of the quests) |
| QuestSystem.ActiveQuests | src/components/QuestSystem.tsx:66 | every active quest, in order, with its multiplicity, and no other quest |
| QuestSystem.CompletedQuests | src/components/QuestSystem.tsx:67 | every completed quest, in order, with its multiplicity, and no other quest |
| QuestSystem.ShownCompleted | src/components/QuestSystem.tsx:260 | the listed quests are the first min(5, n) of the n completed quests, in order |
| QuestSystem.StatusPartition | src/components/QuestSystem.tsx:66-67 | the active, completed and failed lists partition the quests, so failed quests are in neither shown list |
| QuestSystem.CeilDiv | src/components/QuestSystem.tsx:107 | `Math.ceil(a / b)`: the least r with a ≤ r·b |
| QuestSystem.DaysUntilDeadline | src/components/QuestSystem.tsx:103-108 | absent without a deadline; otherwise the whole days, rounded up, from now to the deadline |
| QuestSystem.OfferedAction | src/components/QuestSystem.tsx:168-175 | only active quests offer an action; the progress button appears iff progress and a non-zero maximum exist, and is enabled iff progress < maximum |
| QuestSystem.ProgressClickAwardsOnce | src/components/QuestSystem.tsx:174-175 | an enabled progress click awards once when it reaches the maximum (and then no action is offered), and awards nothing below it |
| QuestSystem.CompleteClickAwardsOnce | src/components/QuestSystem.tsx:69-75 | after "Mark Complete" the quest offers no action, so it cannot be awarded again |
| ProgressTracker.XpForLevelIncreasing | src/components/ProgressTracker.tsx:47-49 | the requirement is 150L − 50 and strictly increasing |
| ProgressTracker.XpForLevel | src/components/ProgressTracker.tsx:47-49 | the requirement is 150L − 50, at least 100 from level 1 on |
| ProgressTracker.LevelRange | src/components/ProgressTracker.tsx:51-55 | the divisor is 100 at level 1 and 150 from level 2 on, never zero |
| ProgressTracker.CurrentLevelProgress | src/components/ProgressTracker.tsx:56 | the bar value always lies in [0, 100] |
| ProgressTracker.LevelProgressEnds | src/components/ProgressTracker.tsx:52-56 | the bar is 0 at the previous threshold and 100 at or above the level's threshold |
| ProgressTracker.LevelProgressMonotone | src/components/ProgressTracker.tsx:54-56 | more XP never moves the bar back |
| ProgressTracker.SortNewestFirst | src/components/ProgressTracker.tsx:61-62 | the in-place sort leaves the achievements newest first and is a permutation |
| ProgressTracker.InsertNewestFirst | src/components/ProgressTracker.tsx:62 | one insertion step extends the sorted prefix and keeps the multiset |
| ProgressTracker.RecentAchievements | src/components/ProgressTracker.tsx:61-63 | the array ends newest first and a permutation of its old contents; the result is its first min(3, n) entries, none of the rest newer, and the first is at least as new as every achievement given |
| ProgressTracker.TopEntries | src/components/ProgressTracker.tsx:61-63 | the first n entries of a newest-first rearrangement are ordered, drawn from the input, no older than the rest, and headed by an entry at least as new as every input entry |
| ToolsSection.FilteredSuggested | src/components/ToolsSection.tsx:39-45 | a subsequence of the suggestions; a tool is kept iff it is not owned and the query is empty or occurs in its lower-cased name, category or description |
| ToolsSection.MatchesQuery | src/components/ToolsSection.tsx:39-45 | the empty query matches every tool |
| ToolsSection.SearchIgnoresQueryCase | src/components/ToolsSection.tsx:42-44 | upper-casing the query does not change the result |
| ToolsSection.BuildCustomTool | src/components/ToolsSection.tsx:47-57 | no tool for a blank name; otherwise `isCustom` is true, the id is `custom-` and the clock, the category defaults to `Custom`, and the other fields are copied |
| ToolsSection.ToolsPanel.constructor | src/components/ToolsSection.tsx:30-37 | the form starts hidden with an empty draft |
| ToolsSection.ToolsPanel.AddCustomTool | src/components/ToolsSection.tsx:47-62 | a blank name changes nothing; otherwise the built tool is handed over and the form is emptied and hidden |
| ToolsSection.CategoryColor | src/components/ToolsSection.tsx:64-72 | one of four fixed classes for the four known categories; the inherited member for a name of `Object.prototype` (`constructor`, `toString`, `__proto__`, …); the muted class for any other text |
| ProfileSetup.IsStepValid | src/components/ProfileSetup.tsx:109-121 | step 1 needs a non-blank name, 2 a goal, 3 an interest, 4 a non-blank available time; no other step is valid |
| ProfileSetup.ToggleGoal | src/components/ProfileSetup.tsx:93-99 | only the goals change, and the goal is present afterwards iff it was absent |
| ProfileSetup.ToggleInterest | src/components/ProfileSetup.tsx:101-107 | only the interests change, and the interest is present afterwards iff it was absent |
| ProfileSetup.EditKeepsEarlierSteps | src/components/ProfileSetup.tsx:151-290 | editing controls of the current step keeps every earlier step valid |
| ProfileSetup.CompleteProfile | src/components/ProfileSetup.tsx:109-121 | a profile that passes all four steps has a name, a goal, an interest and an available time |
| ProfileSetup.ProfileWizard.constructor | src/components/ProfileSetup.tsx:70-77 | the wizard starts at step 1 with empty goals and interests, encouraging, beginner and medium |
| ProfileSetup.ProfileWizard.HandleNext | src/components/ProfileSetup.tsx:79-85 | below step 4 the step advances; at step 4 it stays and the profile is handed over |
| ProfileSetup.ProfileWizard.PressNext | src/components/ProfileSetup.tsx:310-311 | an invalid step does not advance; a valid step below 4 advances by one; a valid step 4 stays and hands over the profile, which then has all four answers |
| ProfileSetup.ProfileWizard.HandlePrevious | src/components/ProfileSetup.tsx:87-91 | steps back, never below 1, and the step stays in [1, 4] |
| ProfileSetup.ProfileWizard.ToggleGoalAt | src/components/ProfileSetup.tsx:209 | the goal toggle on step 2 keeps the wizard invariant |
| ProfileSetup.ProfileWizard.ToggleInterestAt | src/components/ProfileSetup.tsx:234 | the interest toggle on step 3 keeps the wizard invariant and changes only the interests |
| ProfileSetup.ProfileWizard.SetName | src/components/ProfileSetup.tsx:164 | typing the name on step 1 replaces only the name and keeps the wizard invariant |
| ProfileSetup.ProfileWizard.SetExperience | src/components/ProfileSetup.tsx:176 | choosing the experience on step 1 replaces only it and keeps the wizard invariant |
| ProfileSetup.ProfileWizard.SetAvailableTime | src/components/ProfileSetup.tsx:255 | typing the available time on step 4 replaces only it and keeps the wizard invariant |
| ProfileSetup.ProfileWizard.SetMotivationStyle | src/components/ProfileSetup.tsx:267 | choosing the motivation style on step 4 replaces only it and keeps the wizard invariant |
| ProfileSetup.ProfileWizard.SetPreferredDifficulty | src/components/ProfileSetup.tsx:290 | choosing the difficulty on step 4 replaces only it and keeps the wizard invariant |
| OracleChat.InitialMessages | src/components/OracleChat.tsx:85-105 | the seeded conversation is the user's initial message, then the oracle reply that quotes it and offers all five module ids |
| OracleChat.OracleResponse | src/components/OracleChat.tsx:137-146 | the reply is one of the five fixed replies, picked by `floor(draw · 5)` |
| OracleChat.EveryResponseReachable | src/components/OracleChat.tsx:145 | every one of the five replies is picked by some draw |
| OracleChat.OracleChatState.constructor | src/components/OracleChat.tsx:77-80 | the chat starts with no messages, an empty input, nothing selected and the selector hidden |
| OracleChat.OracleChatState.Seed | src/components/OracleChat.tsx:83-108 | the mount effect sets the seeded conversation and shows the selector |
| OracleChat.OracleChatState.SetInput | src/components/OracleChat.tsx:255 | the input holds the typed text |
| OracleChat.OracleChatState.Submit | src/components/OracleChat.tsx:114-135 | a blank input adds nothing; otherwise exactly the user message and then the oracle reply are appended, and the input is cleared |
| OracleChat.OracleChatState.ModuleToggle | src/components/OracleChat.tsx:148-154 | a selected id is removed and an unselected one appended |
| OracleChat.OracleChatState.ActivateModules | src/components/OracleChat.tsx:156-168 | the selection is handed over unchanged, the selector is hidden, and one oracle message is appended |
| OracleChat.OracleChatState.PressActivate | src/components/OracleChat.tsx:199-237 | the button acts iff the selector is shown and something is selected, so it never hands over an empty selection; acting hides the selector and appends the activation message |
| MentorChat.GreetingName | src/components/MentorChat.tsx:24 | the greeting uses the name, or `there` when it is absent or empty |
| MentorChat.Greeting | src/components/MentorChat.tsx:21-28 | the first message is the mentor's (id `1`), greeting the name or `there` |
| MentorChat.Classify | src/components/MentorChat.tsx:39-73 | the topic follows the keyword tests on the lower-cased message in priority order: goal, stuck, motivation, productivity, other |
| MentorChat.ClassifyIgnoresCase | src/components/MentorChat.tsx:40 | upper-casing the message does not change its topic |
| MentorChat.GoalOutranksStuck | src/components/MentorChat.tsx:43-51 | "Hard goal" contains a stuck word ("hard") yet is classified as a goal, since goal words are tested first |
| MentorChat.Pick | src/components/MentorChat.tsx:73 | `Math.floor(draw · n)` is an index below n |
| MentorChat.MentorResponse | src/components/MentorChat.tsx:39-74 | each topic gets its fixed reply; other messages get one of the five generic replies |
| MentorChat.Capitalize | src/components/MentorChat.tsx:83 | the first character is upper-cased and the rest kept |
| MentorChat.GenerateQuest | src/components/MentorChat.tsx:76-94 | the reward lies in [25, 74]; type and difficulty come from their lists; the quest is active with no progress; the title is `Quest: ` and the capitalised input; the deadline is seven days later |
| MentorChat.GeneratedQuestOnBoard | src/components/MentorChat.tsx:88-90 | on the quest board a generated quest offers "Mark Complete" and is due in 7 days |
| MentorChat.EveryRewardReachable | src/components/MentorChat.tsx:86 | every reward from 25 to 74 is produced by some draw |
| MentorChat.MentorChatState.constructor | src/components/MentorChat.tsx:21-30 | the chat starts with the greeting alone, an empty input, not typing, and nothing pending |
| MentorChat.MentorChatState.SetInput | src/components/MentorChat.tsx:183 | the input holds the typed text |
| MentorChat.MentorChatState.Send | src/components/MentorChat.tsx:96-108 | a blank input changes nothing; otherwise the user message is appended, the input cleared, typing shown and the reply scheduled |
| MentorChat.MentorChatState.PressSend | src/components/MentorChat.tsx:188 | the button sends iff the mentor is not typing and the input is not blank; a send appends the user message, clears the input, shows typing and schedules the reply; otherwise nothing changes |
| MentorChat.MentorChatState.ReplyArrives | src/components/MentorChat.tsx:111-121 | the reply to the text sent is appended and typing cleared; a goal schedules a quest |
| MentorChat.MentorChatState.QuestArrives | src/components/MentorChat.tsx:44-46 | the quest generated from the goal message is handed over |
| GenerateLearningPath.TaskIdInjective | supabase/functions/generate-learning-path/index.ts:79 | distinct positions get distinct default task ids `{i+1}-{j+1}` |
| GenerateLearningPath.PrefixedIdInjective | supabase/functions/generate-learning-path/index.ts:74-86 | distinct positions get distinct default milestone and tool ids |
| GenerateLearningPath.ReshapeTask | supabase/functions/generate-learning-path/index.ts:78-83 | a falsy id becomes `{i+1}-{j+1}`; title and description are kept; `completed` is always false |
| GenerateLearningPath.ReshapeMilestone | supabase/functions/generate-learning-path/index.ts:73-84 | a falsy id becomes `milestone-{i+1}`; title and description are kept; the order defaults to `i+1`; task `j` is reshaped at position (i, j) and is not completed |
| GenerateLearningPath.OrderOr | supabase/functions/generate-learning-path/index.ts:77 | the order is kept unless it is absent or 0, which becomes `i+1` |
| GenerateLearningPath.ReshapeTool | supabase/functions/generate-learning-path/index.ts:85-91 | a falsy id becomes `tool-{i+1}` and a falsy category `General`; the other fields are kept |
| GenerateLearningPath.ReshapeTools | supabase/functions/generate-learning-path/index.ts:85-92 | one tool per entry, in order, with name and description kept and a falsy id becoming `tool-{i+1}` |
| GenerateLearningPath.Reshape | supabase/functions/generate-learning-path/index.ts:71-92 | the reshaping fails iff the milestones, the tools or a milestone's tasks are missing |
| GenerateLearningPath.ReshapeKeepsShape | supabase/functions/generate-learning-path/index.ts:71-92 | the path echoes the goal and keeps the number and order of milestones, tasks and tools: milestone `i` is `ReshapeMilestone` of reply milestone `i`, task (i, j) is `ReshapeTask` of reply task (i, j), tool `i` is `ReshapeTool` of reply tool `i` |
| GenerateLearningPath.DefaultIdsDistinct | supabase/functions/generate-learning-path/index.ts:73-86 | entries that arrived without ids get pairwise distinct ids |
| GenerateLearningPath.FreshPathAtZero | supabase/functions/generate-learning-path/index.ts:82 | a freshly generated path shows 0% overall and on every milestone |
| GenerateLearningPath.FindFence | supabase/functions/generate-learning-path/index.ts:62 | the leftmost lazy match of the fenced-block pattern: its capture ends at the first closing fence |
| GenerateLearningPath.FindBraces | supabase/functions/generate-learning-path/index.ts:62 | the match of the brace pattern runs from the first `{` to the last `}` |
| GenerateLearningPath.ExtractJson | supabase/functions/generate-learning-path/index.ts:62-63 | the fenced contents (the whole match when they are empty), else the outer braces, else the whole text |
| GenerateLearningPath.FencedRoundTrip | supabase/functions/generate-learning-path/index.ts:62-63 | a non-empty block fenced as json on its own line gives back exactly its contents |
| GenerateLearningPath.BracesRoundTrip | supabase/functions/generate-learning-path/index.ts:62-63 | without a fence, the text from the first `{` to the last `}` is taken, whatever surrounds it |
| GenerateLearningPath.ErrorMessage | supabase/functions/generate-learning-path/index.ts:17-67 | the three error messages the function writes itself |
| GenerateLearningPath.HandleRequest | supabase/functions/generate-learning-path/index.ts:14-111 | status 200 iff a path is returned, 400 otherwise; a falsy goal fails with `GoalRequired`, whose `ErrorMessage` is "Goal is required"; an upstream failure carries its status text and its message is "Anthropic API error: " followed by it; an unparsable reply's message is "Failed to parse LLM response as JSON"; a parsed reply answers 200 with the reshaped path when reshaping succeeds and 400 with its failure (a missing list) otherwise; a returned path echoes the goal |

## Left out

- Rendering, CSS classes, icons, toasts, scrolling and refs: these are display only.
- `localStorage` and `document.documentElement`: the page works on the decoded values. `saveData` is not modelled. It writes the values from before the update because of React state batching, which is framework behaviour.
- The `timestamp` field of chat messages is not modelled. The clock enters only through ids, `createdAt`, deadlines and `unlockedAt`.
- `setTimeout` delays: a pending reply or quest fires when its method is called, in any order. The random part of the delay is not modelled.
- Floating point: percentages and the level bar use exact integer or real arithmetic.
- Unicode case mapping and whitespace: only ASCII letters change case, and only ASCII whitespace is trimmed.
- JSON values of the wrong type (a number where a string is expected, `NaN` orders, `null` entries inside lists): text fields are strings, and missing lists are `None`.
- MalformedReply: the message of the `TypeError` thrown on a missing list comes from the JavaScript engine, so only the failure kind is modelled.
- Request decoding and network code: the CORS preflight and the reading of the request body are not modelled. `HandleRequest` is the POST handler starting from the decoded `goal`, so a body `req.json()` cannot parse (a 400 carrying the runtime's own message) is not represented. The upstream call is the `Upstream` parameter.
- The XP, level, streak and achievement updates after a quest completes: the quest board only calls `onQuestComplete`, and that code is not part of this model.
- src/components/MentorPath.tsx, src/components/ModularWorkspace.tsx, src/components/OracleLanding.tsx and src/components/MentorLanding.tsx are not part of this model. They are tab routing, landing pages and a fetch wrapper.
- Lists.ToggleTwice: toggling twice restores a duplicate-free list only when the element was absent. A present element comes back at the end, as `Lists.ToggleTwiceMovesPresent` shows.
- QuestSystem.UpdateQuestProgress: `updateQuestProgress` (src/components/QuestSystem.tsx:83-101) stores the new progress as given, without clamping it into [0, maxProgress], and does not check the quest's status. The model does the same. Only the progress button limits what is passed in, which `OfferedAction` and `ProgressClickAwardsOnce` capture.
- ProfileSetup.ProfileWizard.SetName, ProfileSetup.ProfileWizard.SetExperience, ProfileSetup.ProfileWizard.SetAvailableTime, ProfileSetup.ProfileWizard.SetMotivationStyle and ProfileSetup.ProfileWizard.SetPreferredDifficulty: these plain setters require their step, because their controls render only on that step. Their contracts state the new profile and the kept invariant.
- MentorChat.MentorChatState.Send: pressing Enter calls it directly and skips the button's typing guard. The model keeps that path open, so a second message can be sent while a reply is pending.
- ProgressTracker.SortNewestFirst: the order among achievements unlocked at the same time is not specified, because `Array.prototype.sort` stability is not modelled.
- ProgressTracker.RecentAchievements: when several achievements share the `unlockedAt` of the third-newest one, the model does not fix which of them enter the top three, nor their order among themselves, because the stability of `Array.prototype.sort` is not modelled; it does fix that the three are among the newest and newest first.
- ToolsSection.CategoryColor: for a category named after a member of `Object.prototype`, the source uses the inherited member as the class string (its string conversion, such as the text of a function). The model returns `Inherited(key)` and does not model that string conversion, which is display only.
