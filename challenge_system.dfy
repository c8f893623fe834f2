/**
 * The challenge engine: a list of challenges with progress and target, the
 * user's points and badges.  Setting a challenge's progress completes it, once,
 * when the progress reaches the target, and completing it pays its reward.  A
 * simulated tick advances a randomly chosen open challenge.  The remaining time
 * to a challenge's deadline is broken down into days and hours or hours and
 * minutes.
 */
module Challenges {
  import opened Wrappers
  import Seqs

  datatype ChallengeType = Daily | Weekly | AchievementKind

  datatype Difficulty = Easy | Medium | Hard

  /** The `{type, value}` reward record as a sum type. */
  datatype Reward = BadgeReward(badge: string) | PointsReward(points: int) | UnlockReward(unlocked: string)

  datatype Challenge = Challenge(
    id: string,
    title: string,
    description: string,
    kind: ChallengeType,
    progress: int,
    target: int,
    reward: Reward,
    difficulty: Difficulty,
    deadline: Option<int>,  // milliseconds since the epoch
    completed: bool
  )

  /** The component state that a progress update writes. */
  datatype Board = Board(challenges: seq<Challenge>, points: int, badges: seq<string>)

  /** `handleChallengeCompletion`: points are added, a badge is appended (no deduplication), an unlock changes nothing. */
  function ApplyReward(b: Board, reward: Reward): (r: Board)
    ensures r.challenges == b.challenges
    ensures reward.PointsReward? ==> r.points == b.points + reward.points && r.badges == b.badges
    ensures reward.BadgeReward? ==> r.points == b.points && r.badges == b.badges + [reward.badge]
    ensures reward.UnlockReward? ==> r == b
  {
    match reward
    case PointsReward(n) => b.(points := b.points + n)
    case BadgeReward(name) => b.(badges := b.badges + [name])
    case UnlockReward(_) => b
  }

  /** The update completes this challenge (and pays its reward): the id matches, it was open and the progress reaches the target. */
  predicate Completes(c: Challenge, id: string, progress: int) {
    c.id == id && progress >= c.target && !c.completed
  }

  /** The `map` callback on one challenge: the matching one takes the new progress and completes at the target. */
  function Progressed(c: Challenge, id: string, progress: int): (r: Challenge)
    ensures c.id != id ==> r == c
    ensures c.id == id ==> r == c.(progress := progress, completed := r.completed)
    ensures r.completed <==> c.completed || Completes(c, id, progress)
    ensures !Completes(r, id, progress)
  {
    if c.id == id then
      c.(progress := progress, completed := c.completed || progress >= c.target)
    else c
  }

  /** The challenge list after the `map`. */
  function ProgressAll(s: seq<Challenge>, id: string, progress: int): (r: seq<Challenge>)
    ensures |r| == |s|
    ensures forall j :: 0 <= j < |s| ==> r[j] == Progressed(s[j], id, progress)
  {
    seq(|s|, j requires 0 <= j < |s| => Progressed(s[j], id, progress))
  }

  /** One step of the `map`: the callback on `c`, and the reward it pays. */
  function ProgressStep(b: Board, c: Challenge, id: string, progress: int): Board {
    var b' := b.(challenges := b.challenges + [Progressed(c, id, progress)]);
    if Completes(c, id, progress) then ApplyReward(b', c.reward) else b'
  }

  /** `updateChallengeProgress(id, progress)` run over the prefix `s` of the list, starting from `b`. */
  function ProgressRun(s: seq<Challenge>, id: string, progress: int, b: Board): Board {
    if s == [] then b else ProgressStep(ProgressRun(s[..|s| - 1], id, progress, b), s[|s| - 1], id, progress)
  }

  /** The list produced by the pass is the `map` of the callback over the old list. */
  lemma {:induction false} ProgressRunChallenges(s: seq<Challenge>, id: string, progress: int, b: Board)
    requires b.challenges == []
    ensures ProgressRun(s, id, progress, b).challenges == ProgressAll(s, id, progress)
  {
    if s != [] {
      ProgressRunChallenges(s[..|s| - 1], id, progress, b);
    }
  }

  /** When the update completes nothing, points and badges are unchanged. */
  lemma {:induction false} ProgressRunNoReward(s: seq<Challenge>, id: string, progress: int, b: Board)
    requires forall j :: 0 <= j < |s| ==> !Completes(s[j], id, progress)
    ensures ProgressRun(s, id, progress, b).points == b.points
    ensures ProgressRun(s, id, progress, b).badges == b.badges
  {
    if s != [] {
      ProgressRunNoReward(s[..|s| - 1], id, progress, b);
    }
  }

  /** When the update completes exactly the challenge at `k`, its reward is paid once. */
  lemma {:induction false} ProgressRunOneReward(s: seq<Challenge>, id: string, progress: int, b: Board, k: nat)
    requires k < |s| && Completes(s[k], id, progress)
    requires forall j :: 0 <= j < |s| && j != k ==> !Completes(s[j], id, progress)
    ensures var r := ProgressRun(s, id, progress, b);
      var paid := ApplyReward(b, s[k].reward);
      r.points == paid.points && r.badges == paid.badges
  {
    var n := |s| - 1;
    if k == n {
      ProgressRunNoReward(s[..n], id, progress, b);
    } else {
      ProgressRunOneReward(s[..n], id, progress, b, k);
    }
  }

  /**
   * Updating the challenge at `k`: it takes the new progress (even when already
   * completed), it is completed afterwards iff it was or the progress reaches its
   * target, the others are unchanged, and the reward is paid iff this update
   * completed it.
   */
  lemma UpdateProgressEffect(s: seq<Challenge>, id: string, progress: int, b: Board, k: nat)
    requires Seqs.UniqueKeys(s, (c: Challenge) => c.id) && b.challenges == []
    requires k < |s| && s[k].id == id
    ensures var r := ProgressRun(s, id, progress, b);
      && |r.challenges| == |s|
      && r.challenges[k].progress == progress
      && (r.challenges[k].completed <==> s[k].completed || progress >= s[k].target)
      && (forall j :: 0 <= j < |s| && j != k ==> r.challenges[j] == s[j])
      && (Completes(s[k], id, progress) ==>
            r.points == ApplyReward(b, s[k].reward).points && r.badges == ApplyReward(b, s[k].reward).badges)
      && (!Completes(s[k], id, progress) ==> r.points == b.points && r.badges == b.badges)
  {
    ProgressRunChallenges(s, id, progress, b);
    if Completes(s[k], id, progress) {
      ProgressRunOneReward(s, id, progress, b, k);
    } else {
      ProgressRunNoReward(s, id, progress, b);
    }
  }

  /** A completed challenge stays completed whatever progress is set afterwards. */
  lemma CompletionIsMonotone(s: seq<Challenge>, id: string, progress: int, b: Board, j: nat)
    requires b.challenges == [] && j < |s| && s[j].completed
    ensures var r := ProgressRun(s, id, progress, b);
      |r.challenges| == |s| && r.challenges[j].completed
  {
    ProgressRunChallenges(s, id, progress, b);
  }

  /** Once an update has reached the target, no later update pays a reward again. */
  lemma RewardAtMostOnce(s: seq<Challenge>, id: string, progress: int, later: int, b: Board)
    requires b.challenges == []
    requires forall j :: 0 <= j < |s| && s[j].id == id ==> progress >= s[j].target
    ensures var r := ProgressRun(s, id, progress, b);
      var r2 := ProgressRun(r.challenges, id, later, r.(challenges := []));
      r2.points == r.points && r2.badges == r.badges
  {
    var r := ProgressRun(s, id, progress, b);
    ProgressRunChallenges(s, id, progress, b);
    ProgressRunNoReward(r.challenges, id, later, r.(challenges := []));
  }

  /** The progress a simulated tick sets: the old progress plus the increment, capped at the target. */
  function TickProgress(progress: int, target: int, increment: int): (r: int)
    requires 1 <= increment <= 5
    ensures r <= target
    ensures progress <= target ==> progress < r || r == target
    ensures r == target || r == progress + increment
    ensures progress + increment <= target ==> r == progress + increment
  {
    if progress + increment < target then progress + increment else target
  }

  /** The open challenges (`!completed`). */
  function ActiveChallenges(s: seq<Challenge>): (r: seq<Challenge>)
    ensures forall c :: c in r <==> c in s && !c.completed
  {
    Seqs.Filter(s, (c: Challenge) => !c.completed)
  }

  /** The completed challenges. */
  function CompletedChallenges(s: seq<Challenge>): (r: seq<Challenge>)
    ensures forall c :: c in r <==> c in s && c.completed
  {
    Seqs.Filter(s, (c: Challenge) => c.completed)
  }

  /** Each view of a list made of two parts lists the first part's challenges first, keeping the list's order. */
  lemma ChallengeViewsAppend(a: seq<Challenge>, b: seq<Challenge>)
    ensures ActiveChallenges(a + b) == ActiveChallenges(a) + ActiveChallenges(b)
    ensures CompletedChallenges(a + b) == CompletedChallenges(a) + CompletedChallenges(b)
  {
    Seqs.FilterAppend(a, b, (c: Challenge) => !c.completed);
    Seqs.FilterAppend(a, b, (c: Challenge) => c.completed);
  }

  /** The two views split the challenge list: every challenge appears in exactly one of them. */
  lemma ActiveAndCompletedPartition(s: seq<Challenge>)
    ensures |ActiveChallenges(s)| + |CompletedChallenges(s)| == |s|
    ensures multiset(ActiveChallenges(s)) + multiset(CompletedChallenges(s)) == multiset(s)
  {
    Seqs.FilterPartition(s, (c: Challenge) => !c.completed, (c: Challenge) => c.completed);
  }

  const MsPerMinute := 60 * 1000
  const MsPerHour := 60 * 60 * 1000

  /** JavaScript's `%`: the remainder takes the sign of the dividend. */
  function JsRemainder(a: int, d: int): (r: int)
    requires d > 0
    ensures a >= 0 ==> 0 <= r < d
    ensures a < 0 ==> -d < r <= 0
  {
    if a >= 0 then a % d else -((-a) % d)
  }

  /** The text `formatTimeRemaining` builds, by its numbers. */
  datatype TimeLeft = NoDeadline | DaysHours(days: int, hours: int) | HoursMinutes(hours: int, minutes: int)

  /**
   * `formatTimeRemaining(deadline)` at the instant `now`: nothing without a
   * deadline; days and hours when more than 24 whole hours remain, hours and
   * minutes otherwise.  `Math.floor` of a quotient by a positive divisor is
   * Dafny's `/`.
   */
  function FormatTimeRemaining(deadline: Option<int>, now: int): (r: TimeLeft)
    ensures deadline.None? <==> r.NoDeadline?
    ensures r.DaysHours? ==>
      var hours := (deadline.value - now) / MsPerHour;
      hours > 24 && r.days >= 1 && 0 <= r.hours < 24 && r.days * 24 + r.hours == hours
    ensures r.HoursMinutes? ==>
      var diff := deadline.value - now;
      r.hours <= 24 && r.hours == diff / MsPerHour &&
      (diff >= 0 ==> 0 <= r.minutes < 60 && r.hours * 60 + r.minutes == diff / MsPerMinute) &&
      (diff < 0 ==> -60 <= r.minutes <= 0)
  {
    if deadline.None? then NoDeadline
    else
      var diff := deadline.value - now;
      var hours := diff / MsPerHour;
      var minutes := JsRemainder(diff, MsPerHour) / MsPerMinute;
      if hours > 24 then DaysHours(hours / 24, JsRemainder(hours, 24))
      else HoursMinutes(hours, minutes)
  }

  /** The four seeded challenges, their deadlines taken relative to the mount time `now`. */
  function InitialChallenges(now: int): seq<Challenge> {
    [ Challenge("1", "Réducteur de Plastique", "Réduisez l'usage de plastique de votre ville de 15%",
        Daily, 8, 15, BadgeReward("Gardien des Océans"), Medium, Some(now + 24 * MsPerHour), false),
      Challenge("2", "Maître du Recyclage", "Atteignez 80% d'efficacité dans la gestion des déchets",
        Weekly, 65, 80, PointsReward(500), Hard, Some(now + 7 * 24 * MsPerHour), false),
      Challenge("3", "Ville Verte", "Maintenez un score écologique supérieur à 70",
        AchievementKind, 45, 70, UnlockReward("Nouveaux bâtiments écologiques"), Hard, None, false),
      Challenge("4", "Transport Propre", "Implémentez 3 solutions de transport écologique",
        Daily, 1, 3, BadgeReward("Mobilité Verte"), Easy, Some(now + 24 * MsPerHour), false) ]
  }

  /** The challenge component's state. */
  class ChallengeBoard {
    var challenges: seq<Challenge>
    var userPoints: int
    var userBadges: seq<string>

    constructor (now: int)
      ensures challenges == InitialChallenges(now) && userPoints == 750
      ensures userBadges == ["Débutant Écologique", "Premier Pas"]
    {
      challenges := InitialChallenges(now);
      userPoints := 750;
      userBadges := ["Débutant Écologique", "Premier Pas"];
    }

    /** `updateChallengeProgress(id, progress)`: the `map`, completing and rewarding as it goes. */
    method UpdateChallengeProgress(id: string, progress: int)
      modifies this
      ensures Board(challenges, userPoints, userBadges)
        == ProgressRun(old(challenges), id, progress, Board([], old(userPoints), old(userBadges)))
    {
      var s := challenges;
      ghost var start := Board([], userPoints, userBadges);
      var done: seq<Challenge> := [];
      var i := 0;
      while i < |s|
        invariant 0 <= i <= |s|
        invariant Board(done, userPoints, userBadges) == ProgressRun(s[..i], id, progress, start)
      {
        var c := s[i];
        assert s[..i + 1][..i] == s[..i];
        if c.id == id {
          var updated := c.(progress := progress);
          if progress >= c.target && !c.completed {
            updated := updated.(completed := true);
            HandleChallengeCompletion(c);
          }
          done := done + [updated];
        } else {
          done := done + [c];
        }
        i := i + 1;
      }
      assert s[..|s|] == s;
      challenges := done;
    }

    /** `handleChallengeCompletion(challenge)`: pays the reward into points or badges. */
    method HandleChallengeCompletion(c: Challenge)
      modifies this
      ensures Board(challenges, userPoints, userBadges)
        == ApplyReward(Board(old(challenges), old(userPoints), old(userBadges)), c.reward)
    {
      match c.reward
      case PointsReward(n) => userPoints := userPoints + n;
      case BadgeReward(name) => userBadges := userBadges + [name];
      case UnlockReward(_) =>
    }

    /**
     * One simulated tick: the challenge at `pick` (drawn uniformly), when open and
     * when the tick fires (a 30% draw), advances by `increment` (drawn from 1 to 5),
     * capped at its target.
     */
    method SimulateTick(pick: nat, fire: bool, increment: int)
      requires pick < |challenges| && 1 <= increment <= 5
      modifies this
      ensures var c := old(challenges)[pick];
        if !c.completed && fire then
          Board(challenges, userPoints, userBadges)
            == ProgressRun(old(challenges), c.id, TickProgress(c.progress, c.target, increment),
                           Board([], old(userPoints), old(userBadges)))
        else
          challenges == old(challenges) && userPoints == old(userPoints) && userBadges == old(userBadges)
    {
      var c := challenges[pick];
      if !c.completed && fire {
        UpdateChallengeProgress(c.id, TickProgress(c.progress, c.target, increment));
      }
    }
  }

  /** A tick on an open challenge with a unique id leaves its progress at or below its target and never lowers it. */
  lemma TickEffect(s: seq<Challenge>, pick: nat, increment: int, b: Board)
    requires Seqs.UniqueKeys(s, (c: Challenge) => c.id) && b.challenges == [] && pick < |s| && !s[pick].completed
    requires 1 <= increment <= 5
    ensures var c := s[pick];
      var r := ProgressRun(s, c.id, TickProgress(c.progress, c.target, increment), b);
      |r.challenges| == |s| && r.challenges[pick].progress <= c.target
      && (c.progress <= c.target ==> r.challenges[pick].progress > c.progress || r.challenges[pick].completed)
  {
    var c := s[pick];
    UpdateProgressEffect(s, c.id, TickProgress(c.progress, c.target, increment), b, pick);
  }

  /** Reaching 80 on the seeded recycling challenge pays its 500 points once: 750 becomes 1250, badges unchanged. */
  lemma RecyclingRewardScenario(now: int)
    ensures var r := ProgressRun(InitialChallenges(now), "2", 80, Board([], 750, ["Débutant Écologique", "Premier Pas"]));
      r.points == 1250 && r.badges == ["Débutant Écologique", "Premier Pas"]
      && |r.challenges| == 4 && r.challenges[1].completed
  {
    var s := InitialChallenges(now);
    assert Seqs.UniqueKeys(s, (c: Challenge) => c.id);
    UpdateProgressEffect(s, "2", 80, Board([], 750, ["Débutant Écologique", "Premier Pas"]), 1);
  }
}
