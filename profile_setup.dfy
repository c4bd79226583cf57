/** The four-step profile wizard: name and experience, goals, interests,
    then available time, motivation style and difficulty. */
module ProfileSetup {
  import opened Wrappers
  import opened Strings
  import Lists

  datatype MotivationStyle = Encouraging | Challenging | Analytical
  datatype Experience = Beginner | Intermediate | Advanced
  datatype Difficulty = Easy | Medium | Hard

  /** The partial profile the wizard fills in; `name` and `availableTime`
      are absent until typed. */
  datatype Profile = Profile(name: Option<string>, goals: seq<string>, interests: seq<string>,
                             motivationStyle: MotivationStyle, experience: Experience,
                             availableTime: Option<string>, preferredDifficulty: Difficulty)

  const InitialProfile := Profile(None, [], [], Encouraging, Beginner, None, Medium)

  /** `s && s.trim().length > 0`. */
  function Filled(s: Option<string>): (r: bool)
    ensures r <==> s.Some? && !AllWhitespace(s.value)
  {
    if s.None? then false
    else
      BlankIffAllWhitespace(s.value);
      !IsBlank(s.value)
  }

  /** `isStepValid`: step 1 needs a name that is not blank, step 2 a goal,
      step 3 an interest, step 4 an available time that is not blank; no
      other step is valid. */
  function IsStepValid(step: int, p: Profile): (valid: bool)
    ensures valid ==> 1 <= step <= 4
    ensures step == 1 ==> (valid <==> p.name.Some? && !AllWhitespace(p.name.value))
    ensures step == 4 ==> (valid <==> p.availableTime.Some? && !AllWhitespace(p.availableTime.value))
  {
    match step
    case 1 => Filled(p.name)
    case 2 => |p.goals| > 0
    case 3 => |p.interests| > 0
    case 4 => Filled(p.availableTime)
    case _ => false
  }

  /** `toggleGoal`: only the goals change. */
  function ToggleGoal(p: Profile, goal: string): (r: Profile)
    ensures r.(goals := p.goals) == p
    ensures goal in r.goals <==> goal !in p.goals
  {
    p.(goals := Lists.ToggleMember(p.goals, goal))
  }

  /** `toggleInterest`: only the interests change. */
  function ToggleInterest(p: Profile, interest: string): (r: Profile)
    ensures r.(interests := p.interests) == p
    ensures interest in r.interests <==> interest !in p.interests
  {
    p.(interests := Lists.ToggleMember(p.interests, interest))
  }

  /** Every step before `step` has been passed with a valid profile. */
  predicate EarlierStepsValid(step: int, p: Profile) {
    forall k :: 1 <= k < step ==> IsStepValid(k, p)
  }

  /** Editing a control of step `step` or later leaves the earlier steps
      valid. */
  lemma EditKeepsEarlierSteps(step: int, p: Profile, q: Profile)
    requires step <= 4 && EarlierStepsValid(step, p)
    requires step > 1 ==> q.name == p.name
    requires step > 2 ==> q.goals == p.goals
    requires step > 3 ==> q.interests == p.interests
    ensures EarlierStepsValid(step, q)
  {
    forall k | 1 <= k < step
      ensures IsStepValid(k, q)
    {
      assert IsStepValid(k, p);
    }
  }

  /** A profile that passes all four steps has a name, a goal, an interest
      and an available time. */
  lemma CompleteProfile(p: Profile)
    requires EarlierStepsValid(4, p) && IsStepValid(4, p)
    ensures Filled(p.name) && |p.goals| > 0 && |p.interests| > 0 && Filled(p.availableTime)
  {
    assert IsStepValid(1, p) && IsStepValid(2, p) && IsStepValid(3, p);
  }

  class ProfileWizard {
    var step: int
    var profile: Profile

    /** The step stays in [1, 4]; the profile passes every step already
        left behind (the controls of a step render only on that step). */
    predicate Valid()
      reads this
    {
      1 <= step <= 4 && EarlierStepsValid(step, profile)
    }

    constructor ()
      ensures Valid() && step == 1 && profile == InitialProfile
    {
      step := 1;
      profile := InitialProfile;
    }

    /** `handleNext`: advances below step 4; at step 4 hands the profile to
        `onProfileComplete` and stays. */
    method HandleNext() returns (completed: Option<Profile>)
      requires 1 <= step <= 4
      modifies this`step
      ensures 1 <= step <= 4
      ensures old(step) < 4 ==> step == old(step) + 1 && completed == None
      ensures old(step) == 4 ==> step == 4 && completed == Some(profile)
    {
      if step < 4 {
        step := step + 1;
        completed := None;
      } else {
        completed := Some(profile);
      }
    }

    /** The Next button: disabled while the current step is invalid, so the
        profile is completed only from a valid step 4, and then it has a
        name, a goal, an interest and an available time. */
    method PressNext() returns (completed: Option<Profile>)
      requires Valid()
      modifies this`step
      ensures Valid() && profile == old(profile)
      ensures !IsStepValid(old(step), profile) ==> step == old(step) && completed == None
      ensures IsStepValid(old(step), profile) && old(step) < 4 ==> step == old(step) + 1 && completed == None
      ensures IsStepValid(old(step), profile) && old(step) == 4 ==> step == 4 && completed == Some(profile)
      ensures completed.Some? ==>
                old(step) == 4 && completed.value == profile &&
                Filled(profile.name) && |profile.goals| > 0 && |profile.interests| > 0 && Filled(profile.availableTime)
    {
      if !IsStepValid(step, profile) {
        return None;
      }
      completed := HandleNext();
      if completed.Some? {
        CompleteProfile(profile);
      }
    }

    /** `handlePrevious`: steps back, but not below step 1. */
    method HandlePrevious()
      requires Valid()
      modifies this`step
      ensures Valid()
      ensures step == if old(step) > 1 then old(step) - 1 else 1
    {
      if step > 1 {
        step := step - 1;
      }
    }

    method SetName(name: string)
      requires Valid() && step == 1
      modifies this`profile
      ensures Valid() && profile == old(profile).(name := Some(name))
    {
      var edited := profile.(name := Some(name));
      EditKeepsEarlierSteps(step, profile, edited);
      profile := edited;
    }

    method SetExperience(e: Experience)
      requires Valid() && step == 1
      modifies this`profile
      ensures Valid() && profile == old(profile).(experience := e)
    {
      var edited := profile.(experience := e);
      EditKeepsEarlierSteps(step, profile, edited);
      profile := edited;
    }

    method ToggleGoalAt(goal: string)
      requires Valid() && step == 2
      modifies this`profile
      ensures Valid() && profile == ToggleGoal(old(profile), goal)
    {
      var edited := ToggleGoal(profile, goal);
      EditKeepsEarlierSteps(step, profile, edited);
      profile := edited;
    }

    method ToggleInterestAt(interest: string)
      requires Valid() && step == 3
      modifies this`profile
      ensures Valid() && profile == ToggleInterest(old(profile), interest)
    {
      var edited := ToggleInterest(profile, interest);
      EditKeepsEarlierSteps(step, profile, edited);
      profile := edited;
    }

    method SetAvailableTime(time: string)
      requires Valid() && step == 4
      modifies this`profile
      ensures Valid() && profile == old(profile).(availableTime := Some(time))
    {
      var edited := profile.(availableTime := Some(time));
      EditKeepsEarlierSteps(step, profile, edited);
      profile := edited;
    }

    method SetMotivationStyle(m: MotivationStyle)
      requires Valid() && step == 4
      modifies this`profile
      ensures Valid() && profile == old(profile).(motivationStyle := m)
    {
      var edited := profile.(motivationStyle := m);
      EditKeepsEarlierSteps(step, profile, edited);
      profile := edited;
    }

    method SetPreferredDifficulty(d: Difficulty)
      requires Valid() && step == 4
      modifies this`profile
      ensures Valid() && profile == old(profile).(preferredDifficulty := d)
    {
      var edited := profile.(preferredDifficulty := d);
      EditKeepsEarlierSteps(step, profile, edited);
      profile := edited;
    }
  }
}
