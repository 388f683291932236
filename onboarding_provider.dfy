/**
 * The onboarding context of the frontend: the user's onboarding state, the list of
 * missions, and the guided mission in progress with its current step. Missions are
 * started from the list, walked step by step, and on their last step recorded in the
 * mock store (when a user is logged in) and marked completed.
 *
 * The logged-in user is the parameter `userId` (`None` when nobody is logged in);
 * the celebration toast and console logging are not modelled.
 */
module OnboardingProvider {
  import opened Common
  import opened MockApi

  /** `activeMission.currentStepIndex || 0`. */
  function IndexOf(m: Mission): int {
    m.currentStepIndex.GetOr(0)
  }

  /** A guided mission whose index points into its steps. */
  predicate OnStep(m: Mission) {
    0 <= IndexOf(m) < |m.steps|
  }

  /** `startMission`'s guard: the mission exists, is not locked, and has steps. */
  predicate CanStart(m: Option<Mission>) {
    m.Some? && m.value.status != MissionLocked && |m.value.steps| > 0
  }

  /** The copy `startMission` makes active: in progress, at its first step. */
  function Started(m: Mission): (r: Mission)
    requires |m.steps| > 0
    ensures OnStep(r) && IndexOf(r) == 0 && r.status == MissionInProgress
    ensures r.id == m.id && r.steps == m.steps
  {
    m.(status := MissionInProgress, currentStepIndex := Some(0))
  }

  /** The active mission after `completeMissionStep`: moved one step on, or none after its last step. */
  function Advanced(m: Mission): (r: Option<Mission>)
    requires OnStep(m)
    ensures r.Some? <==> IndexOf(m) + 1 < |m.steps|
    ensures r.Some? ==> OnStep(r.value) && IndexOf(r.value) == IndexOf(m) + 1 &&
                        r.value == m.(currentStepIndex := Some(IndexOf(m) + 1))
  {
    var next := IndexOf(m) + 1;
    if next < |m.steps| then Some(m.(currentStepIndex := Some(next))) else None
  }

  /** The active mission after `k` completed steps, or none once it is finished. */
  function AdvancedTimes(m: Mission, k: nat): Option<Mission>
    requires OnStep(m)
  {
    if k == 0 then Some(m)
    else
      var a := AdvancedTimes(m, k - 1);
      if a.Some? && OnStep(a.value) then Advanced(a.value) else None
  }

  /** A started mission with `n` steps is at step `k` after `k` completions and finished after exactly `n`. */
  lemma {:induction false} WalkThrough(m: Mission, k: nat)
    requires |m.steps| > 0 && k <= |m.steps|
    ensures k < |m.steps| ==> AdvancedTimes(Started(m), k) == Some(Started(m).(currentStepIndex := Some(k)))
    ensures k == |m.steps| ==> AdvancedTimes(Started(m), k) == None
  {
    if k > 0 {
      WalkThrough(m, k - 1);
      var a := AdvancedTimes(Started(m), k - 1);
      assert a == Some(Started(m).(currentStepIndex := Some(k - 1)));
      assert IndexOf(a.value) == k - 1;
    }
  }

  /** The local update after a mission's last step: that mission marked completed, the rest as they were. */
  function MarkCompleted(ms: seq<Mission>, id: string): (r: seq<Mission>)
    ensures |r| == |ms|
    ensures forall i :: 0 <= i < |ms| ==>
      r[i] == if ms[i].id == id then ms[i].(status := MissionCompleted) else ms[i]
  {
    seq(|ms|, i requires 0 <= i < |ms| => if ms[i].id == id then ms[i].(status := MissionCompleted) else ms[i])
  }

  /** Every mission of the list carrying the id shows as completed. */
  predicate ShowsCompleted(ms: seq<Mission>, id: string) {
    forall i :: 0 <= i < |ms| && ms[i].id == id ==> ms[i].status == MissionCompleted
  }

  /** The missions the store lists after it recorded the mission show it as completed. */
  lemma ReloadShowsCompleted(st: OnboardingState, id: string)
    ensures ShowsCompleted(MissionsFor(WithMission(st, id)), id)
  {
    MissionsLaws(WithMission(st, id));
  }

  class Provider {
    var state: Option<OnboardingState>
    var missions: seq<Mission>
    var isLoading: bool
    var activeMission: Option<Mission>
    /** The current step of the active mission, by id. */
    var currentMissionStep: Option<string>

    /** A mission is active exactly when a step is current, and that step is the one the mission's index points to. */
    ghost predicate Valid()
      reads this
    {
      (activeMission.None? <==> currentMissionStep.None?) &&
      (activeMission.Some? ==>
        OnStep(activeMission.value) && currentMissionStep == Some(activeMission.value.steps[IndexOf(activeMission.value)]))
    }

    constructor ()
      ensures Valid()
      ensures state.None? && missions == [] && isLoading && activeMission.None? && currentMissionStep.None?
    {
      state := None;
      missions := [];
      isLoading := true;
      activeMission := None;
      currentMissionStep := None;
    }

    /** `loadOnboardingState`: the user's state from the store; loading ends either way. */
    method LoadOnboardingState(userId: Option<string>, store: MockStore)
      modifies this`state, this`isLoading, store`onboarding
      ensures userId.None? ==> state == old(state) && isLoading == old(isLoading) && store.onboarding == old(store.onboarding)
      ensures userId.Some? ==> (
        state == Some(StateOf(old(store.onboarding), userId.value)) && !isLoading &&
        store.onboarding == old(store.onboarding)[userId.value := StateOf(old(store.onboarding), userId.value)])
    {
      if userId.None? {
        return;
      }
      var data := store.GetState(userId.value);
      state := Some(data);
      isLoading := false;
    }

    /** `loadMissions`: the user's missions from the store. */
    method LoadMissions(userId: Option<string>, store: MockStore)
      modifies this`missions, store`onboarding
      ensures userId.None? ==> missions == old(missions) && store.onboarding == old(store.onboarding)
      ensures userId.Some? ==> (
        missions == MissionsFor(StateOf(old(store.onboarding), userId.value)) &&
        store.onboarding == old(store.onboarding)[userId.value := StateOf(old(store.onboarding), userId.value)])
    {
      if userId.None? {
        return;
      }
      missions := store.GetMissions(userId.value);
    }

    /** `startMission`: an unknown, locked or stepless mission changes nothing; otherwise a started copy becomes active at its first step. */
    method StartMission(missionId: string)
      requires Valid()
      modifies this`activeMission, this`currentMissionStep
      ensures Valid()
      ensures var m := Find(missions, MissionIs(missionId));
        !CanStart(m) ==> activeMission == old(activeMission) && currentMissionStep == old(currentMissionStep)
      ensures var m := Find(missions, MissionIs(missionId));
        CanStart(m) ==> activeMission == Some(Started(m.value)) && currentMissionStep == Some(m.value.steps[0])
    {
      var mission := Find(missions, MissionIs(missionId));
      if mission.None? || mission.value.status == MissionLocked || |mission.value.steps| == 0 {
        return;
      }
      activeMission := Some(mission.value.(status := MissionInProgress, currentStepIndex := Some(0)));
      currentMissionStep := Some(mission.value.steps[0]);
    }

    /**
     * `completeMissionStep`: without an active mission nothing happens. Before the last
     * step the mission moves one step on. After it, the mission is recorded in the store
     * for a logged-in user, the guide is cleared, the mission is marked completed in the
     * list, and the list is then reloaded from the store.
     */
    method CompleteMissionStep(userId: Option<string>, store: MockStore)
      requires Valid()
      modifies this`activeMission, this`currentMissionStep, this`missions, store`onboarding
      ensures Valid()
      ensures old(activeMission).None? ==>
        activeMission == old(activeMission) && missions == old(missions) && store.onboarding == old(store.onboarding)
      ensures old(activeMission).Some? && Advanced(old(activeMission).value).Some? ==>
        activeMission == Advanced(old(activeMission).value) && missions == old(missions) &&
        store.onboarding == old(store.onboarding)
      ensures old(activeMission).Some? && Advanced(old(activeMission).value).None? ==>
        var id := old(activeMission).value.id;
        activeMission.None? && currentMissionStep.None? &&
        (userId.None? ==> missions == MarkCompleted(old(missions), id) && store.onboarding == old(store.onboarding)) &&
        (userId.Some? ==>
          var recorded := WithMission(StateOf(old(store.onboarding), userId.value), id);
          missions == MissionsFor(recorded) && store.onboarding == old(store.onboarding)[userId.value := recorded])
      ensures old(activeMission).Some? && Advanced(old(activeMission).value).None? ==>
        ShowsCompleted(missions, old(activeMission).value.id)
    {
      if activeMission.None? || currentMissionStep.None? {
        return;
      }
      var mission := activeMission.value;
      var currentIndex := mission.currentStepIndex.GetOr(0);
      var nextIndex := currentIndex + 1;
      if nextIndex < |mission.steps| {
        activeMission := Some(mission.(currentStepIndex := Some(nextIndex)));
        currentMissionStep := Some(mission.steps[nextIndex]);
      } else {
        if userId.Some? {
          var _ := store.CompleteMission(userId.value, mission.id);
        }
        activeMission := None;
        currentMissionStep := None;
        missions := MarkCompleted(missions, mission.id);
        if userId.Some? {
          missions := store.GetMissions(userId.value);
          ReloadShowsCompleted(StateOf(old(store.onboarding), userId.value), mission.id);
        }
      }
    }

    /** `cancelMission`: the guide is cleared. */
    method CancelMission()
      modifies this`activeMission, this`currentMissionStep
      ensures Valid()
      ensures activeMission.None? && currentMissionStep.None?
    {
      activeMission := None;
      currentMissionStep := None;
    }

    /** `startOnboarding`: an existing state goes back to the welcome step, in progress. */
    method StartOnboarding()
      modifies this`state
      ensures old(state).None? ==> state.None?
      ensures old(state).Some? ==> state == Some(old(state).value.(status := StatusInProgress, currentStep := Welcome))
    {
      if state.Some? {
        state := Some(state.value.(status := StatusInProgress, currentStep := Welcome));
      }
    }

    /** `completeStep`: for a logged-in user, the store records the step, and the state and missions are reloaded. */
    method CompleteStep(userId: Option<string>, step: Step, store: MockStore)
      modifies this`state, this`missions, store`onboarding
      ensures userId.None? ==> state == old(state) && missions == old(missions) && store.onboarding == old(store.onboarding)
      ensures userId.Some? ==>
        var after := AfterStep(StateOf(old(store.onboarding), userId.value), step);
        state == Some(after) && missions == MissionsFor(after) &&
        store.onboarding == old(store.onboarding)[userId.value := after]
    {
      if userId.None? {
        return;
      }
      var newState := store.UpdateStep(userId.value, step);
      state := Some(newState);
      missions := store.GetMissions(userId.value);
    }

    /**
     * `resetOnboarding`: for a logged-in user the store resets the state, the local state
     * takes it, the missions are reloaded, and `startOnboarding` runs. That call reads the
     * state captured when the callback was made, the one from before the reset, so a user
     * who had a state ends with that old state moved to the welcome step, while one who
     * had none keeps the default state as the store returned it.
     */
    method ResetOnboarding(userId: Option<string>, store: MockStore)
      modifies this`state, this`missions, store`onboarding
      ensures userId.None? ==> state == old(state) && missions == old(missions) && store.onboarding == old(store.onboarding)
      ensures userId.Some? ==>
        store.onboarding == old(store.onboarding)[userId.value := DEFAULT_STATE] &&
        missions == MissionsFor(DEFAULT_STATE) &&
        (old(state).None? ==> state == Some(DEFAULT_STATE)) &&
        (old(state).Some? ==> state == Some(old(state).value.(status := StatusInProgress, currentStep := Welcome)))
      ensures userId.Some? && old(state).Some? && old(state).value.completedSteps != [] ==>
        state.value.completedSteps != StateOf(store.onboarding, userId.value).completedSteps
    {
      if userId.None? {
        return;
      }
      var captured := state;
      var newState := store.ResetState(userId.value);
      state := Some(newState);
      missions := store.GetMissions(userId.value);
      if captured.Some? {
        state := Some(captured.value.(status := StatusInProgress, currentStep := Welcome));
      }
    }

    /** `toggleTips`: for a logged-in user the store switches the tips and the local state takes the result. */
    method ToggleTips(userId: Option<string>, enabled: bool, store: MockStore)
      modifies this`state, store`onboarding
      ensures userId.None? ==> state == old(state) && store.onboarding == old(store.onboarding)
      ensures userId.Some? ==>
        var after := StateOf(old(store.onboarding), userId.value).(showTips := enabled);
        state == Some(after) && store.onboarding == old(store.onboarding)[userId.value := after]
      ensures userId.Some? ==>
        (state.value.showTips == enabled &&
         state.value.(showTips := true) == StateOf(old(store.onboarding), userId.value).(showTips := true))
    {
      if userId.None? {
        return;
      }
      var newState := store.ToggleTips(userId.value, enabled);
      state := Some(newState);
    }

    /** `skipOnboarding`: an existing state is marked skipped; without one nothing happens. */
    method SkipOnboarding()
      modifies this`state
      ensures old(state).None? ==> state.None?
      ensures old(state).Some? ==> state == Some(old(state).value.(status := StatusSkipped))
    {
      if state.Some? {
        state := Some(state.value.(status := StatusSkipped));
      }
    }
  }
}
