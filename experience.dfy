/** The experience bar (`systems/experience.py`): points are banked into `current_exp`
    and `total_exp`; crossing the threshold levels up once, carrying the surplus over and
    scaling the next threshold by the configured multiplier. */
module Experience {
  import opened Numbers

  /** The four fields of an `ExperienceSystem`. */
  datatype ExpState = ExpState(level: int, currentExp: real, expToNextLevel: int, totalExp: real)

  /** The threshold in force at a given level, starting from `first` at level 1. */
  function ThresholdAt(first: int, growth: real, level: nat): int
    decreases level
  {
    if level <= 1 then first else Scaled(ThresholdAt(first, growth, level - 1), growth)
  }

  /** The points consumed by the level-ups that led from level 1 to `level`. */
  function Spent(first: int, growth: real, level: nat): real
    decreases level
  {
    if level <= 1 then 0.0 else Spent(first, growth, level - 1) + ThresholdAt(first, growth, level - 1) as real
  }

  /** The bookkeeping every reachable state satisfies: the threshold is the one its level
      calls for, and everything earned is either still in the bar or was spent on a level. */
  predicate Ledger(s: ExpState, first: int, growth: real) {
    && s.level >= 1
    && s.expToNextLevel == ThresholdAt(first, growth, s.level)
    && s.totalExp - s.currentExp == Spent(first, growth, s.level)
  }

  /** With a first threshold of at least 1 and a multiplier of at least 1, thresholds
      never shrink from one level to the next. */
  lemma {:induction false} ThresholdGrows(first: int, growth: real, level: nat)
    requires first >= 1 && growth >= 1.0
    ensures ThresholdAt(first, growth, level) >= first
    ensures ThresholdAt(first, growth, level + 1) >= ThresholdAt(first, growth, level)
  {
    if level > 1 {
      ThresholdGrows(first, growth, level - 1);
    }
    TruncGrows(ThresholdAt(first, growth, level), growth);
  }

  /** `level_up`. */
  function AfterLevelUp(s: ExpState, growth: real): (r: ExpState)
    ensures r.level == s.level + 1
    ensures r.currentExp + s.expToNextLevel as real == s.currentExp
    ensures r.totalExp == s.totalExp
  {
    ExpState(s.level + 1, s.currentExp - s.expToNextLevel as real,
             Scaled(s.expToNextLevel, growth), s.totalExp)
  }

  /** `add_exp(amount)`: the new state and whether the player levelled up. */
  function AfterAddExp(s: ExpState, amount: real, growth: real): (r: (ExpState, bool))
    ensures r.0.totalExp == s.totalExp + amount
    ensures r.1 <==> s.currentExp + amount >= s.expToNextLevel as real
    ensures !r.1 ==> r.0 == s.(currentExp := s.currentExp + amount, totalExp := s.totalExp + amount)
    ensures r.1 ==> r.0.level == s.level + 1
    ensures r.1 ==> r.0.currentExp == s.currentExp + amount - s.expToNextLevel as real
  {
    var banked := s.(currentExp := s.currentExp + amount, totalExp := s.totalExp + amount);
    if banked.currentExp >= banked.expToNextLevel as real then (AfterLevelUp(banked, growth), true)
    else (banked, false)
  }

  /** A level-up keeps the ledger and the next threshold is the next level's. */
  lemma LevelUpKeepsLedger(s: ExpState, first: int, growth: real)
    requires Ledger(s, first, growth)
    ensures Ledger(AfterLevelUp(s, growth), first, growth)
    ensures AfterLevelUp(s, growth).expToNextLevel == ThresholdAt(first, growth, s.level + 1)
  {}

  /** Adding experience keeps the ledger. */
  lemma AddExpKeepsLedger(s: ExpState, amount: real, first: int, growth: real)
    requires Ledger(s, first, growth)
    ensures Ledger(AfterAddExp(s, amount, growth).0, first, growth)
  {
    var banked := s.(currentExp := s.currentExp + amount, totalExp := s.totalExp + amount);
    assert Ledger(banked, first, growth);
    if banked.currentExp >= banked.expToNextLevel as real {
      LevelUpKeepsLedger(banked, first, growth);
    }
  }

  /** The state after the calls `add_exp(a)` for each a in `amounts`, in order, and the
      number of them that reported a level-up. */
  function AfterAll(s: ExpState, amounts: seq<real>, growth: real): (ExpState, nat) {
    if |amounts| == 0 then (s, 0)
    else
      var (mid, ups) := AfterAll(s, amounts[..|amounts| - 1], growth);
      var (last, up) := AfterAddExp(mid, amounts[|amounts| - 1], growth);
      (last, ups + if up then 1 else 0)
  }

  /** One more call of `add_exp` after a run. */
  lemma AfterAllStep(s: ExpState, amounts: seq<real>, amount: real, growth: real)
    ensures var (mid, ups) := AfterAll(s, amounts, growth);
            var (last, up) := AfterAddExp(mid, amount, growth);
            AfterAll(s, amounts + [amount], growth) == (last, ups + if up then 1 else 0)
  {
    assert (amounts + [amount])[..|amounts|] == amounts;
  }

  /** Over any run of `add_exp` calls the total grows by exactly what was added, and the
      level rises by the number of reported level-ups, at most one per call. */
  lemma {:induction false} AfterAllAccounts(s: ExpState, amounts: seq<real>, growth: real)
    ensures AfterAll(s, amounts, growth).0.totalExp == s.totalExp + Sum(amounts)
    ensures AfterAll(s, amounts, growth).0.level == s.level + AfterAll(s, amounts, growth).1
    ensures AfterAll(s, amounts, growth).1 <= |amounts|
  {
    if |amounts| > 0 {
      AfterAllAccounts(s, amounts[..|amounts| - 1], growth);
    }
  }

  /** For non-negative gains the total never decreases along a run. */
  lemma {:induction false} TotalNeverDecreases(s: ExpState, amounts: seq<real>, growth: real)
    requires forall i :: 0 <= i < |amounts| ==> amounts[i] >= 0.0
    ensures AfterAll(s, amounts, growth).0.totalExp >= s.totalExp
  {
    AfterAllAccounts(s, amounts, growth);
    SumNonNegative(amounts);
  }

  /** Gaining nothing changes nothing while the bar is below the threshold. */
  lemma SettledZeroGain(s: ExpState, growth: real)
    requires s.currentExp < s.expToNextLevel as real
    ensures AfterAddExp(s, 0.0, growth) == (s, false)
  {}

  /** Because only one level-up is checked per call, a surplus can outlast it: with a first
      threshold of 100 and multiplier 1.5, a gain of 300 leaves 200 points against a
      threshold of 150, and a later gain of 0 levels up again. */
  lemma ZeroGainCanLevelUp()
    ensures var s := AfterAddExp(ExpState(1, 0.0, 100, 0.0), 300.0, 1.5).0;
            && Ledger(s, 100, 1.5)
            && s.currentExp >= s.expToNextLevel as real
            && AfterAddExp(s, 0.0, 1.5).1
            && AfterAddExp(s, 0.0, 1.5).0.level == s.level + 1
  {
    var s := AfterAddExp(ExpState(1, 0.0, 100, 0.0), 300.0, 1.5).0;
    assert s == ExpState(2, 200.0, 150, 300.0);
    assert ThresholdAt(100, 1.5, 2) == 150;
  }

  class ExperienceSystem {
    /** EXP_TO_LEVEL and EXP_LEVEL_MULTIPLIER. */
    const expToLevel: int
    const growth: real

    var level: int
    var currentExp: real
    var expToNextLevel: int
    var totalExp: real

    function State(): ExpState
      reads this
    {
      ExpState(level, currentExp, expToNextLevel, totalExp)
    }

    ghost predicate Valid()
      reads this
    {
      && expToLevel >= 1 && growth >= 1.0
      && expToNextLevel >= 1
      && Ledger(State(), expToLevel, growth)
    }

    constructor(expToLevel: int, growth: real)
      requires expToLevel >= 1 && growth >= 1.0
      ensures Valid()
      ensures this.expToLevel == expToLevel && this.growth == growth
      ensures State() == ExpState(1, 0.0, expToLevel, 0.0)
    {
      this.expToLevel := expToLevel;
      this.growth := growth;
      level := 1;
      currentExp := 0.0;
      expToNextLevel := expToLevel;
      totalExp := 0.0;
    }

    method AddExp(amount: real) returns (leveled: bool)
      requires Valid()
      modifies this`level, this`currentExp, this`expToNextLevel, this`totalExp
      ensures Valid()
      ensures (State(), leveled) == AfterAddExp(old(State()), amount, growth)
    {
      currentExp := currentExp + amount;
      totalExp := totalExp + amount;
      if currentExp >= expToNextLevel as real {
        leveled := LevelUp();
      } else {
        leveled := false;
      }
    }

    method LevelUp() returns (leveled: bool)
      requires expToLevel >= 1 && growth >= 1.0 && expToNextLevel >= 1
      requires Ledger(State(), expToLevel, growth)
      modifies this`level, this`currentExp, this`expToNextLevel
      ensures Valid()
      ensures State() == AfterLevelUp(old(State()), growth) && leveled
    {
      var next := AfterLevelUp(State(), growth);
      LevelUpKeepsLedger(State(), expToLevel, growth);
      ThresholdGrows(expToLevel, growth, level);
      level, currentExp, expToNextLevel := next.level, next.currentExp, next.expToNextLevel;
      leveled := true;
    }

    /** `get_progress`: the fraction of the bar filled, at least 0 and below 1 exactly
        while the bar holds fewer points than the threshold. */
    function Progress(): (p: real)
      requires Valid()
      reads this
      ensures p * expToNextLevel as real == currentExp
      ensures currentExp >= 0.0 ==> (p < 1.0 <==> currentExp < expToNextLevel as real)
      ensures currentExp >= 0.0 ==> p >= 0.0
    {
      FractionBounds(currentExp, expToNextLevel as real);
      currentExp / expToNextLevel as real
    }
  }
}
