/**
 * The city decision engine: a city's statistics, a budget, the decision on
 * offer and the unlocked achievements.  Choosing an option of the current
 * decision is refused when the budget is short; otherwise its cost is paid,
 * each statistic it names moves by its delta clamped to [0, 100], a canned
 * feedback text is shown and three threshold achievements are checked.  The
 * budget grows by 50 on every accrual tick.
 */
module City {
  import opened Wrappers
  import Seqs

  datatype Stat = Pollution | Biodiversity | WasteManagement | PlasticUsage | EcoScore | Population | Happiness

  datatype CityStats = CityStats(
    pollution: int,
    biodiversity: int,
    wasteManagement: int,
    plasticUsage: int,
    ecoScore: int,
    population: int,
    happiness: int
  ) {
    /** `stats[key]`. */
    function Get(s: Stat): int {
      match s
      case Pollution => pollution
      case Biodiversity => biodiversity
      case WasteManagement => wasteManagement
      case PlasticUsage => plasticUsage
      case EcoScore => ecoScore
      case Population => population
      case Happiness => happiness
    }

    /** `stats[key] = v`: that statistic takes the value, every other keeps its own. */
    function Set(s: Stat, v: int): (r: CityStats)
      ensures r.Get(s) == v
      ensures forall t :: t != s ==> r.Get(t) == Get(t)
    {
      match s
      case Pollution => this.(pollution := v)
      case Biodiversity => this.(biodiversity := v)
      case WasteManagement => this.(wasteManagement := v)
      case PlasticUsage => this.(plasticUsage := v)
      case EcoScore => this.(ecoScore := v)
      case Population => this.(population := v)
      case Happiness => this.(happiness := v)
    }
  }

  datatype Category = PlasticCategory | TransportCategory | WasteCategory | EnergyCategory

  /** One `[key, value]` entry of an option's partial-statistics impact. */
  datatype ImpactEntry = ImpactEntry(stat: Stat, delta: int)

  datatype DecisionOption = DecisionOption(text: string, impact: seq<ImpactEntry>, cost: int)

  datatype Decision = Decision(
    id: string,
    title: string,
    description: string,
    options: seq<DecisionOption>,
    category: Category
  )

  /** `Math.max(0, Math.min(100, v))`. */
  function Clamp(v: int): (r: int)
    ensures 0 <= r <= 100
    ensures 0 <= v <= 100 ==> r == v
    ensures v < 0 ==> r == 0
    ensures v > 100 ==> r == 100
  {
    if v < 0 then 0 else if v > 100 then 100 else v
  }

  /** The statistics after one impact entry: the named statistic moves by the delta, clamped. */
  function ApplyEntry(st: CityStats, e: ImpactEntry): CityStats {
    st.Set(e.stat, Clamp(st.Get(e.stat) + e.delta))
  }

  /** The `forEach` over the impact entries, as a function of the prefix `es`. */
  function ApplyImpact(st: CityStats, es: seq<ImpactEntry>): CityStats {
    if es == [] then st else ApplyEntry(ApplyImpact(st, es[..|es| - 1]), es[|es| - 1])
  }

  /** An object has no key twice: no statistic is named by two entries. */
  predicate DistinctStats(es: seq<ImpactEntry>) {
    forall i, j :: 0 <= i < j < |es| ==> es[i].stat != es[j].stat
  }

  /** The delta the impact gives for statistic `s`, if it names it. */
  function DeltaFor(es: seq<ImpactEntry>, s: Stat): Option<int> {
    if es == [] then None
    else if es[|es| - 1].stat == s then Some(es[|es| - 1].delta)
    else DeltaFor(es[..|es| - 1], s)
  }

  /** A statistic no entry names has no delta. */
  lemma {:induction false} DeltaForAbsent(es: seq<ImpactEntry>, s: Stat)
    requires forall j :: 0 <= j < |es| ==> es[j].stat != s
    ensures DeltaFor(es, s) == None
  {
    if es != [] {
      DeltaForAbsent(es[..|es| - 1], s);
    }
  }

  /**
   * Applying an impact: each statistic it names becomes the clamp of its old value
   * plus the delta, every statistic it does not name (population included) keeps
   * its value.
   */
  lemma {:induction false} ApplyImpactEffect(st: CityStats, es: seq<ImpactEntry>, s: Stat)
    requires DistinctStats(es)
    ensures ApplyImpact(st, es).Get(s) ==
      match DeltaFor(es, s)
      case None => st.Get(s)
      case Some(d) => Clamp(st.Get(s) + d)
  {
    if es != [] {
      var init := es[..|es| - 1];
      if es[|es| - 1].stat == s {
        DeltaForAbsent(init, s);
      }
      ApplyImpactEffect(st, init, s);
    }
  }

  /** Every statistic but the population is a percentage in [0, 100]. */
  predicate PercentagesInRange(st: CityStats) {
    forall s :: s != Population ==> 0 <= st.Get(s) <= 100
  }

  /** Applying any impact keeps the percentages in [0, 100]; only a named statistic can move, and into range. */
  lemma {:induction false} ApplyImpactKeepsRange(st: CityStats, es: seq<ImpactEntry>)
    requires PercentagesInRange(st)
    ensures PercentagesInRange(ApplyImpact(st, es))
  {
    if es != [] {
      ApplyImpactKeepsRange(st, es[..|es| - 1]);
    }
  }

  const InsufficientBudget := "Budget insuffisant pour cette action !"
  const DecisionTaken := "Décision prise !"

  const PlasticFeedback: seq<string> := [
    "Excellente décision ! Réduire le plastique protège nos océans et notre faune.",
    "Un bon compromis qui sensibilise sans être trop contraignant.",
    "Cette décision pourrait avoir des conséquences négatives sur l'environnement à long terme."]
  const TransportFeedback: seq<string> := [
    "Formidable ! Les transports électriques réduisent drastiquement les émissions.",
    "Les pistes cyclables encouragent un mode de vie sain et écologique.",
    "Manquer cette opportunité d'améliorer la qualité de l'air est regrettable."]
  const WasteFeedback: seq<string> := [
    "Investir dans le recyclage moderne est crucial pour l'économie circulaire.",
    "Le compostage communautaire renforce les liens sociaux et réduit les déchets.",
    "Sans amélioration de la gestion des déchets, la situation va se dégrader."]

  /** The canned feedback texts, per category; the source's table has no entry for energy. */
  function CannedFeedback(c: Category): Option<seq<string>> {
    match c
    case PlasticCategory => Some(PlasticFeedback)
    case TransportCategory => Some(TransportFeedback)
    case WasteCategory => Some(WasteFeedback)
    case EnergyCategory => None
  }

  /**
   * `generateFeedback` as written: `feedbacks[category][optionIndex] || fallback`.
   * For a category missing from the table the first lookup is `undefined` and
   * indexing it throws, which is `None` here.
   */
  function GenerateFeedbackAsWritten(c: Category, optionIndex: nat): (r: Option<string>)
    ensures r.None? <==> CannedFeedback(c).None?
  {
    match CannedFeedback(c)
    case None => None
    case Some(texts) => Some(if optionIndex < |texts| then texts[optionIndex] else DecisionTaken)
  }

  /** An energy decision makes the lookup as written throw rather than fall back. */
  lemma EnergyFeedbackThrows(optionIndex: nat)
    ensures GenerateFeedbackAsWritten(EnergyCategory, optionIndex) == None
  {
  }

  /**
   * `generateFeedback` with the fallback the `||` intends: the canned text for the
   * category and option when there is one, "Décision prise !" otherwise.
   */
  function GenerateFeedback(c: Category, optionIndex: nat): (r: string)
    ensures c == EnergyCategory || optionIndex >= 3 ==> r == DecisionTaken
    ensures c != EnergyCategory && optionIndex < 3 ==> r == CannedFeedback(c).value[optionIndex]
    ensures GenerateFeedbackAsWritten(c, optionIndex).Some? ==> r == GenerateFeedbackAsWritten(c, optionIndex).value
  {
    match CannedFeedback(c)
    case None => DecisionTaken
    case Some(texts) => if optionIndex < |texts| then texts[optionIndex] else DecisionTaken
  }

  const GreenCity := "Ville Verte"
  const ZeroPlastic := "Zéro Plastique"
  const CleanAir := "Air Pur"

  /** `checkAchievements` against the statistics `st`: each newly earned achievement is appended once. */
  function CheckAchievements(st: CityStats, achievements: seq<string>): (r: seq<string>)
    ensures |r| >= |achievements| && r[..|achievements|] == achievements
    ensures GreenCity in r <==> GreenCity in achievements || st.ecoScore >= 70
    ensures ZeroPlastic in r <==> ZeroPlastic in achievements || st.plasticUsage <= 30
    ensures CleanAir in r <==> CleanAir in achievements || st.pollution <= 20
    ensures forall a :: a in r[|achievements|..] ==> a in [GreenCity, ZeroPlastic, CleanAir] && a !in achievements
    ensures r[|achievements|..] == Seqs.Filter([GreenCity, ZeroPlastic, CleanAir], (a: string) => a in r && a !in achievements)
  {
    var green := if st.ecoScore >= 70 && GreenCity !in achievements then [GreenCity] else [];
    var plastic := if st.plasticUsage <= 30 && ZeroPlastic !in achievements then [ZeroPlastic] else [];
    var air := if st.pollution <= 20 && CleanAir !in achievements then [CleanAir] else [];
    var r := achievements + green + plastic + air;
    assert r == achievements + (green + plastic + air);
    Seqs.FilterThree(GreenCity, ZeroPlastic, CleanAir, (a: string) => a in r && a !in achievements);
    r
  }

  /** Checking achievements never creates a duplicate entry. */
  lemma CheckAchievementsNoDuplicates(st: CityStats, achievements: seq<string>)
    requires forall i, j :: 0 <= i < j < |achievements| ==> achievements[i] != achievements[j]
    ensures var r := CheckAchievements(st, achievements);
      forall i, j :: 0 <= i < j < |r| ==> r[i] != r[j]
  {
  }

  datatype StatColor = Green | Earth | Red

  /** `getStatColor(value, reversed)`: the band of the value, or of 100 − value when reversed. */
  function GetStatColor(value: int, reversed: bool): (c: StatColor)
    ensures var v := if reversed then 100 - value else value;
      && (c == Green <==> v >= 70)
      && (c == Earth <==> 40 <= v < 70)
      && (c == Red <==> v < 40)
  {
    var v := if reversed then 100 - value else value;
    if v >= 70 then Green else if v >= 40 then Earth else Red
  }

  /** The colours from worst to best. */
  function Rank(c: StatColor): nat {
    match c
    case Red => 0
    case Earth => 1
    case Green => 2
  }

  /** Colour order: a larger value never gets a worse colour, and reversal turns the order around. */
  lemma StatColorMonotone(v: int, w: int)
    requires v <= w
    ensures Rank(GetStatColor(v, false)) <= Rank(GetStatColor(w, false))
    ensures Rank(GetStatColor(w, true)) <= Rank(GetStatColor(v, true))
  {
  }

  function InitialStats(): CityStats {
    CityStats(60, 40, 50, 70, 35, 10000, 60)
  }

  /** The three seeded decisions. */
  function Decisions(): seq<Decision> {
    [ Decision("1", "Politique des Sacs Plastiques",
        "Comment gérer l'utilisation des sacs plastiques dans votre ville ?",
        [ DecisionOption("Interdire tous les sacs plastiques",
            [ImpactEntry(PlasticUsage, -20), ImpactEntry(Pollution, -15), ImpactEntry(EcoScore, 15), ImpactEntry(Happiness, -5)], 200),
          DecisionOption("Taxer les sacs plastiques",
            [ImpactEntry(PlasticUsage, -10), ImpactEntry(Pollution, -8), ImpactEntry(EcoScore, 8)], 50),
          DecisionOption("Ne rien changer",
            [ImpactEntry(PlasticUsage, 5), ImpactEntry(Pollution, 3), ImpactEntry(Happiness, 5)], 0) ],
        PlasticCategory),
      Decision("2", "Transport Public Écologique",
        "Comment améliorer les transports dans votre ville ?",
        [ DecisionOption("Bus électriques pour toute la ville",
            [ImpactEntry(Pollution, -25), ImpactEntry(EcoScore, 20), ImpactEntry(Happiness, 10)], 500),
          DecisionOption("Pistes cyclables étendues",
            [ImpactEntry(Pollution, -15), ImpactEntry(EcoScore, 12), ImpactEntry(Happiness, 8)], 300),
          DecisionOption("Maintenir le système actuel",
            [ImpactEntry(Pollution, 2), ImpactEntry(Happiness, -3)], 0) ],
        TransportCategory),
      Decision("3", "Centre de Recyclage",
        "Que faire pour améliorer la gestion des déchets ?",
        [ DecisionOption("Construire un centre de tri moderne",
            [ImpactEntry(WasteManagement, 30), ImpactEntry(EcoScore, 15), ImpactEntry(Pollution, -10)], 400),
          DecisionOption("Programme de compostage communautaire",
            [ImpactEntry(WasteManagement, 15), ImpactEntry(Biodiversity, 10), ImpactEntry(EcoScore, 12)], 150),
          DecisionOption("Continuer avec le système actuel",
            [ImpactEntry(Pollution, 3), ImpactEntry(WasteManagement, -5)], 0) ],
        WasteCategory) ]
  }

  /** The city component's state, after mounting has put the first decision on offer. */
  class CityGame {
    var stats: CityStats
    var budget: int
    var currentDecision: Option<Decision>
    var feedback: string
    var achievements: seq<string>

    constructor ()
      ensures stats == InitialStats() && budget == 1000
      ensures currentDecision == Some(Decisions()[0]) && feedback == "" && achievements == []
    {
      stats := InitialStats();
      budget := 1000;
      currentDecision := Some(Decisions()[0]);
      feedback := "";
      achievements := [];
    }

    /**
     * `handleDecision(optionIndex)`.  Achievements are checked against the
     * statistics as they were before the decision, as the source's closure does.
     */
    method HandleDecision(optionIndex: nat)
      requires currentDecision.Some? ==> optionIndex < |currentDecision.value.options|
      modifies this
      ensures currentDecision == old(currentDecision)
      ensures old(currentDecision).None? ==>
        stats == old(stats) && budget == old(budget) && feedback == old(feedback) && achievements == old(achievements)
      ensures old(currentDecision).Some? ==>
        var d := old(currentDecision).value;
        var option := d.options[optionIndex];
        if old(budget) < option.cost then
          stats == old(stats) && budget == old(budget) && achievements == old(achievements)
          && feedback == InsufficientBudget
        else
          budget == old(budget) - option.cost
          && stats == ApplyImpact(old(stats), option.impact)
          && feedback == GenerateFeedback(d.category, optionIndex)
          && achievements == CheckAchievements(old(stats), old(achievements))
      ensures old(budget) >= 0 ==> budget >= 0
    {
      if currentDecision.None? {
        return;
      }
      var d := currentDecision.value;
      var option := d.options[optionIndex];
      if budget < option.cost {
        feedback := InsufficientBudget;
        return;
      }
      budget := budget - option.cost;
      var before := stats;
      var newStats := stats;
      var i := 0;
      while i < |option.impact|
        invariant 0 <= i <= |option.impact|
        invariant newStats == ApplyImpact(before, option.impact[..i])
      {
        var e := option.impact[i];
        assert option.impact[..i + 1][..i] == option.impact[..i];
        newStats := newStats.Set(e.stat, Clamp(newStats.Get(e.stat) + e.delta));
        i := i + 1;
      }
      assert option.impact[..|option.impact|] == option.impact;
      stats := newStats;
      feedback := GenerateFeedback(d.category, optionIndex);
      achievements := CheckAchievements(before, achievements);
    }

    /** The delayed follow-up of a decision: the decision drawn at `pick` goes on offer and the feedback clears. */
    method NextDecision(pick: nat)
      requires pick < |Decisions()|
      modifies this
      ensures currentDecision == Some(Decisions()[pick]) && feedback == ""
      ensures stats == old(stats) && budget == old(budget) && achievements == old(achievements)
    {
      currentDecision := Some(Decisions()[pick]);
      feedback := "";
    }

    /** The budget accrual tick. */
    method AccrueBudget()
      modifies this
      ensures budget == old(budget) + 50
      ensures stats == old(stats) && currentDecision == old(currentDecision)
      ensures feedback == old(feedback) && achievements == old(achievements)
    {
      budget := budget + 50;
    }
  }

  /** Every seeded option names each statistic at most once and costs nothing negative. */
  lemma SeededOptionsWellFormed()
    ensures forall d :: d in Decisions() ==>
      forall o :: o in d.options ==> DistinctStats(o.impact) && o.cost >= 0
  {
  }
}
