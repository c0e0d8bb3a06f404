/** The emotion-goal tracker: each time the user labels a conversation with
    the goal's target emotion, progress rises by a fixed step, capped at 100;
    at 100 the goal is completed and moved into the history. */
module Goals {
  import opened Types

  const Step := 5
  const Full := 100

  /** The achievement text recorded for an observation of `emotion`. */
  function AchievementText(emotion: string): string
  {
    "목표 감정 '" + emotion + "'을(를) 경험했습니다."
  }

  function Min(a: int, b: int): int { if a <= b then a else b }

  /** The goal state after the user picks `emotion` on day `today`
      (app.py:55-82). Without an active goal, or for another emotion, nothing
      changes. */
  function Observe(goals: EmotionGoals, emotion: string, today: string): EmotionGoals
  {
    match goals.activeGoal
    case None => goals
    case Some(g) =>
      if g.targetEmotion != Some(emotion) then goals
      else
        var p := Min(g.progress + Step, Full);
        var g' := g.(progress := p,
                     achievements := g.achievements + [Achievement(today, AchievementText(emotion))]);
        if p >= Full then
          EmotionGoals(None, goals.history + [g'.(completed := true, completionDate := Some(today))])
        else
          EmotionGoals(Some(g'), goals.history)
  }

  /** Observing anything but the active goal's target leaves the goals as they are. */
  lemma ObserveOtherEmotion(goals: EmotionGoals, emotion: string, today: string)
    requires goals.activeGoal.None? || goals.activeGoal.value.targetEmotion != Some(emotion)
    ensures Observe(goals, emotion, today) == goals
  {
  }

  /** Observing the target raises progress to min(progress + 5, 100) and
      records exactly one achievement; the goal stays active below 100 and is
      otherwise completed, stamped and appended to the history. */
  lemma ObserveTarget(goals: EmotionGoals, emotion: string, today: string)
    requires goals.activeGoal.Some? && goals.activeGoal.value.targetEmotion == Some(emotion)
    ensures var g := goals.activeGoal.value;
      var r := Observe(goals, emotion, today);
      var p := if g.progress + 5 <= 100 then g.progress + 5 else 100;
      && (p < 100 ==>
            && r.history == goals.history
            && r.activeGoal == Some(g.(progress := p, achievements := g.achievements + [Achievement(today, AchievementText(emotion))])))
      && (p == 100 ==>
            && r.activeGoal.None?
            && |r.history| == |goals.history| + 1
            && r.history[..|goals.history|] == goals.history
            && r.history[|goals.history|] ==
                 g.(progress := 100, completed := true, completionDate := Some(today),
                    achievements := g.achievements + [Achievement(today, AchievementText(emotion))]))
  {
    var r := Observe(goals, emotion, today);
    if goals.activeGoal.value.progress + 5 >= 100 {
      assert r.history[..|goals.history|] == goals.history;
    }
  }

  /** Progress never goes above 100: tracked goals stay within bounds, and a
      goal still active after an observation has not reached 100. */
  predicate Bounded(goals: EmotionGoals)
  {
    && (goals.activeGoal.Some? ==> goals.activeGoal.value.progress < Full)
    && forall k :: 0 <= k < |goals.history| ==> goals.history[k].progress <= Full
  }

  lemma ObservePreservesBounded(goals: EmotionGoals, emotion: string, today: string)
    requires Bounded(goals)
    ensures Bounded(Observe(goals, emotion, today))
    ensures goals.history <= Observe(goals, emotion, today).history
  {
  }

  /** `n` consecutive observations of the same emotion. */
  function ObserveTimes(goals: EmotionGoals, emotion: string, today: string, n: nat): EmotionGoals
    decreases n
  {
    if n == 0 then goals else ObserveTimes(Observe(goals, emotion, today), emotion, today, n - 1)
  }

  /** Observations still needed to complete a goal at progress `p`. */
  function StepsToComplete(p: int): nat
  {
    if p >= Full then 0 else (Full - p + Step - 1) / Step
  }

  /** An active goal with target `emotion` and progress p in [0, 100) is
      completed after exactly ceil((100 - p) / 5) observations of `emotion`:
      it is still active after one fewer and in the history after that many. */
  lemma {:induction false} CompletesAfterSteps(goals: EmotionGoals, emotion: string, today: string)
    requires goals.activeGoal.Some? && goals.activeGoal.value.targetEmotion == Some(emotion)
    requires 0 <= goals.activeGoal.value.progress < Full
    ensures var n := StepsToComplete(goals.activeGoal.value.progress);
      && n >= 1
      && ObserveTimes(goals, emotion, today, n - 1).activeGoal.Some?
      && ObserveTimes(goals, emotion, today, n).activeGoal.None?
      && |ObserveTimes(goals, emotion, today, n).history| == |goals.history| + 1
    decreases Full - goals.activeGoal.value.progress
  {
    var g := goals.activeGoal.value;
    var next := Observe(goals, emotion, today);
    var n := StepsToComplete(g.progress);
    if g.progress + Step >= Full {
      assert n == 1;
      assert ObserveTimes(goals, emotion, today, 0) == goals;
      assert ObserveTimes(goals, emotion, today, 1) == ObserveTimes(next, emotion, today, 0);
    } else {
      assert next.activeGoal == Some(next.activeGoal.value);
      assert next.activeGoal.value.progress == g.progress + Step;
      assert next.activeGoal.value.targetEmotion == Some(emotion);
      assert StepsToComplete(g.progress + Step) == n - 1;
      CompletesAfterSteps(next, emotion, today);
      assert ObserveTimes(goals, emotion, today, n) == ObserveTimes(next, emotion, today, n - 1);
      assert ObserveTimes(goals, emotion, today, n - 1) == ObserveTimes(next, emotion, today, n - 2);
    }
  }
}
