/**
 * The personal daily-action tracker: a list of daily actions, the user's
 * aggregate statistics, and the streak achievements.  Completing an action
 * marks it done, raises its streak, adds its impact to the statistics
 * (only the eco score is capped, at 100) and records an achievement when the
 * streak reaches 7.  A periodic reset clears every completion flag.
 *
 * `completeAction` is a `map` over the action list whose callback also
 * updates the statistics; `Tracker.CompleteAction` runs that `map` as a loop,
 * and `CompleteRun` is the same pass written as a function over prefixes of
 * the list, about which the lemmas below are proved.
 */
module PersonalTracker {
  import opened Wrappers
  import Seqs

  datatype Category = Plastic | Water | Energy | Waste | Transport

  /** The aggregate statistics; the source's decimal literals are exact reals here. */
  datatype PersonalStats = PersonalStats(
    plasticReduction: real,
    waterSaving: real,
    energySaving: real,
    wasteReduction: real,
    ecoScore: real,
    co2Saved: real,   // kg per month
    moneySaved: real  // euros per month
  )

  /** What one action adds to the statistics; the four percentage deltas are optional. */
  datatype Impact = Impact(
    plasticReduction: Option<real>,
    waterSaving: Option<real>,
    energySaving: Option<real>,
    wasteReduction: Option<real>,
    co2Saved: real,
    moneySaved: real,
    ecoScore: real
  )

  datatype DailyAction = DailyAction(
    id: string,
    title: string,
    description: string,
    category: Category,
    impact: Impact,
    completed: bool,
    streak: int
  )

  /** The transient congratulation message, by the two amounts it quotes. */
  datatype Feedback = NoFeedback | Saved(co2Saved: real, moneySaved: real)

  /** The four pieces of component state that completing an action writes. */
  datatype Tally = Tally(
    actions: seq<DailyAction>,
    stats: PersonalStats,
    achievements: seq<string>,
    feedback: Feedback
  )

  const StreakGoal := 7

  /** `delta || 0`: an absent delta adds nothing. */
  function OrZero(delta: Option<real>): real {
    if delta.Some? then delta.value else 0.0
  }

  /** The statistics after one action's impact: every field grows by its delta, the eco score is capped at 100. */
  function AddImpact(s: PersonalStats, i: Impact): (r: PersonalStats)
    ensures r.ecoScore <= 100.0
    ensures s.ecoScore + i.ecoScore <= 100.0 ==> r.ecoScore == s.ecoScore + i.ecoScore
    ensures s.ecoScore + i.ecoScore > 100.0 ==> r.ecoScore == 100.0
    ensures r.co2Saved - s.co2Saved == i.co2Saved && r.moneySaved - s.moneySaved == i.moneySaved
    ensures r.plasticReduction - s.plasticReduction == OrZero(i.plasticReduction)
    ensures r.waterSaving - s.waterSaving == OrZero(i.waterSaving)
    ensures r.energySaving - s.energySaving == OrZero(i.energySaving)
    ensures r.wasteReduction - s.wasteReduction == OrZero(i.wasteReduction)
  {
    PersonalStats(
      s.plasticReduction + OrZero(i.plasticReduction),
      s.waterSaving + OrZero(i.waterSaving),
      s.energySaving + OrZero(i.energySaving),
      s.wasteReduction + OrZero(i.wasteReduction),
      if s.ecoScore + i.ecoScore < 100.0 then s.ecoScore + i.ecoScore else 100.0,
      s.co2Saved + i.co2Saved,
      s.moneySaved + i.moneySaved
    )
  }

  /** The action is the one asked for and is still open: only such an action is completed. */
  predicate Pending(a: DailyAction, id: string) {
    a.id == id && !a.completed
  }

  /** The achievement text recorded for a 7-day streak. */
  function StreakAchievement(title: string): string {
    title + " - 7 jours d'affilée !"
  }

  /** The achievements added when `a` is completed: one entry exactly when its new streak is 7. */
  function StreakAward(a: DailyAction): seq<string> {
    if a.streak + 1 == StreakGoal then [StreakAchievement(a.title)] else []
  }

  /** The `map` callback on one action, seen on the action alone. */
  function MarkDone(a: DailyAction, id: string): (r: DailyAction)
    ensures Pending(a, id) ==> r.completed && r.streak == a.streak + 1
    ensures Pending(a, id) ==> r.(completed := a.completed, streak := a.streak) == a
    ensures !Pending(a, id) ==> r == a
    ensures r.id == a.id && r.title == a.title && r.impact == a.impact && r.category == a.category
    ensures !Pending(r, id)
  {
    if Pending(a, id) then a.(completed := true, streak := a.streak + 1) else a
  }

  /** The whole action list after the `map`. */
  function MarkAll(s: seq<DailyAction>, id: string): (r: seq<DailyAction>)
    ensures |r| == |s|
    ensures forall j :: 0 <= j < |s| ==> r[j] == MarkDone(s[j], id)
  {
    seq(|s|, j requires 0 <= j < |s| => MarkDone(s[j], id))
  }

  /** One step of the `map`: the callback on `a`, with the state writes it makes. */
  function CompleteStep(t: Tally, a: DailyAction, id: string): Tally {
    if Pending(a, id) then
      Tally(t.actions + [MarkDone(a, id)],
            AddImpact(t.stats, a.impact),
            t.achievements + StreakAward(a),
            Saved(a.impact.co2Saved, a.impact.moneySaved))
    else
      t.(actions := t.actions + [a])
  }

  /** `completeAction(id)` run over the prefix `s` of the action list, starting from `t`. */
  function CompleteRun(s: seq<DailyAction>, id: string, t: Tally): Tally {
    if s == [] then t else CompleteStep(CompleteRun(s[..|s| - 1], id, t), s[|s| - 1], id)
  }

  /** The action list produced by the pass is the `map` of the callback over the old list. */
  lemma {:induction false} CompleteRunActions(s: seq<DailyAction>, id: string, t: Tally)
    requires t.actions == []
    ensures CompleteRun(s, id, t).actions == MarkAll(s, id)
  {
    if s != [] {
      CompleteRunActions(s[..|s| - 1], id, t);
    }
  }

  /** No pending action with this id (unknown id, or already completed): nothing but the list copy happens. */
  lemma {:induction false} CompleteRunNoMatch(s: seq<DailyAction>, id: string, t: Tally)
    requires forall j :: 0 <= j < |s| ==> !Pending(s[j], id)
    ensures CompleteRun(s, id, t) == t.(actions := t.actions + s)
  {
    if s != [] {
      CompleteRunNoMatch(s[..|s| - 1], id, t);
      assert s[..|s| - 1] + [s[|s| - 1]] == s;
    }
  }

  /** With exactly one pending action with this id, the statistics, achievements and feedback see its impact once. */
  lemma {:induction false} CompleteRunOneMatch(s: seq<DailyAction>, id: string, t: Tally, k: nat)
    requires k < |s| && Pending(s[k], id)
    requires forall j :: 0 <= j < |s| && j != k ==> !Pending(s[j], id)
    ensures CompleteRun(s, id, t).stats == AddImpact(t.stats, s[k].impact)
    ensures CompleteRun(s, id, t).achievements == t.achievements + StreakAward(s[k])
    ensures CompleteRun(s, id, t).feedback == Saved(s[k].impact.co2Saved, s[k].impact.moneySaved)
  {
    var n := |s| - 1;
    if k == n {
      CompleteRunNoMatch(s[..n], id, t);
    } else {
      CompleteRunOneMatch(s[..n], id, t, k);
    }
  }

  /**
   * Completing the open action at index `k`: it becomes completed with its streak
   * raised by one, every other action and the list's length and order are kept, the
   * statistics receive its impact, and a 7-day achievement is appended iff the new
   * streak is 7.
   */
  lemma CompleteActionEffect(s: seq<DailyAction>, id: string, t: Tally, k: nat)
    requires Seqs.UniqueKeys(s, (a: DailyAction) => a.id) && t.actions == []
    requires k < |s| && s[k].id == id && !s[k].completed
    ensures var r := CompleteRun(s, id, t);
      && |r.actions| == |s|
      && r.actions[k] == s[k].(completed := true, streak := s[k].streak + 1)
      && (forall j :: 0 <= j < |s| && j != k ==> r.actions[j] == s[j])
      && r.stats == AddImpact(t.stats, s[k].impact)
      && r.achievements == t.achievements + (if s[k].streak + 1 == 7 then [StreakAchievement(s[k].title)] else [])
  {
    CompleteRunActions(s, id, t);
    CompleteRunOneMatch(s, id, t, k);
  }

  /** Completing the same id a second time leaves actions, statistics, achievements and feedback as they are. */
  lemma CompleteTwiceIsOnce(s: seq<DailyAction>, id: string, t: Tally)
    requires t.actions == []
    ensures var r := CompleteRun(s, id, t);
      CompleteRun(r.actions, id, r.(actions := [])) == r
  {
    var r := CompleteRun(s, id, t);
    CompleteRunActions(s, id, t);
    CompleteRunNoMatch(r.actions, id, r.(actions := []));
  }

  /** The eco score never rises above 100 once it starts at or below 100. */
  lemma {:induction false} CompleteRunEcoCap(s: seq<DailyAction>, id: string, t: Tally)
    requires t.stats.ecoScore <= 100.0
    ensures CompleteRun(s, id, t).stats.ecoScore <= 100.0
  {
    if s != [] {
      CompleteRunEcoCap(s[..|s| - 1], id, t);
    }
  }

  /** `resetDailyActions`: every completion flag cleared, everything else kept. */
  function ClearCompleted(s: seq<DailyAction>): (r: seq<DailyAction>)
    ensures |r| == |s|
    ensures forall j :: 0 <= j < |s| ==> !r[j].completed && r[j] == s[j].(completed := false)
  {
    seq(|s|, j requires 0 <= j < |s| => s[j].(completed := false))
  }

  /** Resetting twice is resetting once. */
  lemma ClearCompletedIdempotent(s: seq<DailyAction>)
    ensures ClearCompleted(ClearCompleted(s)) == ClearCompleted(s)
  {
  }

  /** `completedToday`: the number of completed actions. */
  function CompletedCount(s: seq<DailyAction>): (n: nat)
    ensures n <= |s|
    ensures n == |Seqs.Filter(s, (a: DailyAction) => a.completed)|
  {
    if s == [] then 0 else (if s[0].completed then 1 else 0) + CompletedCount(s[1..])
  }

  /** After a reset no action counts as completed today. */
  lemma {:induction false} CompletedCountAfterReset(s: seq<DailyAction>)
    ensures CompletedCount(ClearCompleted(s)) == 0
  {
    if s != [] {
      CompletedCountAfterReset(s[1..]);
      assert ClearCompleted(s)[1..] == ClearCompleted(s[1..]);
    }
  }

  /** Completing an open action with a unique id raises `completedToday` by exactly one. */
  lemma {:induction false} CompletedCountAfterComplete(s: seq<DailyAction>, id: string, k: nat)
    requires k < |s| && Pending(s[k], id)
    requires forall j :: 0 <= j < |s| && j != k ==> !Pending(s[j], id)
    ensures CompletedCount(MarkAll(s, id)) == CompletedCount(s) + 1
  {
    assert MarkAll(s, id)[1..] == MarkAll(s[1..], id);
    if k == 0 {
      CompletedCountUnchanged(s[1..], id);
    } else {
      CompletedCountAfterComplete(s[1..], id, k - 1);
    }
  }

  /** With no open action of this id the count of completed actions is kept. */
  lemma {:induction false} CompletedCountUnchanged(s: seq<DailyAction>, id: string)
    requires forall j :: 0 <= j < |s| ==> !Pending(s[j], id)
    ensures CompletedCount(MarkAll(s, id)) == CompletedCount(s)
  {
    if s != [] {
      assert MarkAll(s, id)[1..] == MarkAll(s[1..], id);
      CompletedCountUnchanged(s[1..], id);
    }
  }

  function InitialStats(): PersonalStats {
    PersonalStats(25.0, 15.0, 30.0, 40.0, 28.0, 12.0, 45.0)
  }

  /** The five seeded daily actions. */
  function InitialActions(): seq<DailyAction> {
    [ DailyAction("1", "Utiliser ma gourde réutilisable",
        "Éviter d'acheter des bouteilles en plastique aujourd'hui", Plastic,
        Impact(Some(5.0), None, None, None, 0.1, 2.0, 3.0), false, 0),
      DailyAction("2", "Prendre une douche de 5 minutes max",
        "Limiter ma consommation d'eau chaude", Water,
        Impact(None, Some(8.0), Some(3.0), None, 0.8, 1.5, 4.0), false, 0),
      DailyAction("3", "Débrancher mes appareils en veille",
        "Éteindre complètement TV, ordinateur, chargeurs...", Energy,
        Impact(None, None, Some(5.0), None, 0.5, 1.0, 2.0), false, 0),
      DailyAction("4", "Utiliser mes sacs réutilisables",
        "Faire mes courses sans sacs plastiques", Plastic,
        Impact(Some(3.0), None, None, None, 0.2, 0.5, 2.0), false, 0),
      DailyAction("5", "Trier mes déchets correctement",
        "Séparer recyclables, compost et déchets ménagers", Waste,
        Impact(None, None, None, Some(10.0), 0.3, 0.8, 3.0), false, 0) ]
  }

  /** Completing the first seeded action from the seeded state: eco score 28 to 31, CO2 saved 12 to 12.1. */
  lemma FirstActionScenario()
    ensures var r := CompleteRun(InitialActions(), "1", Tally([], InitialStats(), [], NoFeedback));
      r.stats.ecoScore == 31.0 && r.stats.co2Saved == 12.1 && r.stats.plasticReduction == 30.0
      && r.achievements == [] && r.actions[0].completed && r.actions[0].streak == 1
  {
    var s := InitialActions();
    assert Seqs.UniqueKeys(s, (a: DailyAction) => a.id);
    CompleteActionEffect(s, "1", Tally([], InitialStats(), [], NoFeedback), 0);
  }

  /** The tracker component's state. */
  class Tracker {
    var actions: seq<DailyAction>
    var stats: PersonalStats
    var achievements: seq<string>
    var feedback: Feedback

    constructor ()
      ensures actions == InitialActions() && stats == InitialStats()
      ensures achievements == [] && feedback == NoFeedback
    {
      actions := InitialActions();
      stats := InitialStats();
      achievements := [];
      feedback := NoFeedback;
    }

    /** `completeAction(actionId)`: the `map` over the list, with its state writes made in order. */
    method CompleteAction(id: string)
      modifies this
      ensures Tally(actions, stats, achievements, feedback)
        == CompleteRun(old(actions), id, Tally([], old(stats), old(achievements), old(feedback)))
    {
      var s := actions;
      ghost var start := Tally([], stats, achievements, feedback);
      var done: seq<DailyAction> := [];
      var i := 0;
      while i < |s|
        invariant 0 <= i <= |s|
        invariant Tally(done, stats, achievements, feedback) == CompleteRun(s[..i], id, start)
      {
        var a := s[i];
        assert s[..i + 1][..i] == s[..i];
        if a.id == id && !a.completed {
          var updated := a.(completed := true, streak := a.streak + 1);
          stats := AddImpact(stats, a.impact);
          feedback := Saved(a.impact.co2Saved, a.impact.moneySaved);
          if updated.streak == StreakGoal {
            achievements := achievements + [StreakAchievement(a.title)];
          }
          done := done + [updated];
        } else {
          done := done + [a];
        }
        i := i + 1;
      }
      assert s[..|s|] == s;
      actions := done;
    }

    /** `resetDailyActions`: clears every completion flag, run by the periodic reset timer. */
    method ResetDailyActions()
      modifies this
      ensures actions == ClearCompleted(old(actions))
      ensures stats == old(stats) && achievements == old(achievements) && feedback == old(feedback)
    {
      actions := ClearCompleted(actions);
    }
  }
}
