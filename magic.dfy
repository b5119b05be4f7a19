/** A spell definition with its per-spell proficiency state machine and the
    derived damage and MP cost. */
module Magics {
  import opened Numeric
  import opened Equipments

  /** Damage bonus per unit of log(proficiency level + 1). */
  const DamageModifier: real := 0.05
  /** MP cost reduction per unit of log(proficiency level + 1). */
  const MpCostModifier: real := 0.03
  /** Factor by which the proficiency threshold grows at each level-up. */
  const NextExpScaler: real := 1.2
  /** Proficiency threshold of a spell that was never used. */
  const InitialNextProficiencyExp: int := 100

  /** What is required of the logarithm the game uses, on the arguments it is
      given (a proficiency level plus one): zero at 1 and non-decreasing. */
  ghost predicate IsLogCurve(log: int -> real) {
    && log(1) == 0.0
    && forall m, n :: 1 <= m <= n ==> log(m) <= log(n)
  }

  // ---------------------------------------------------------------------------
  // Derived values

  /** `FinalDamage`: base damage scaled by 1 + 0.05 ln(level + 1). */
  function FinalDamageAt(baseDamage: real, proficiencyLevel: int, log: int -> real): (d: real)
    ensures IsLogCurve(log) && proficiencyLevel == 0 ==> d == baseDamage
    ensures IsLogCurve(log) && 0.0 <= baseDamage && 0 <= proficiencyLevel ==> d >= baseDamage
  {
    var scale := 1.0 + DamageModifier * log(proficiencyLevel + 1);
    assert IsLogCurve(log) && 0.0 <= baseDamage && 0 <= proficiencyLevel ==> baseDamage * 1.0 <= baseDamage * scale by {
      if IsLogCurve(log) && 0.0 <= baseDamage && 0 <= proficiencyLevel {
        assert log(1) <= log(proficiencyLevel + 1);
        MultiplyMonotone(baseDamage, 1.0, scale);
      }
    }
    baseDamage * scale
  }

  /** An unpractised spell deals exactly its base damage. */
  lemma FinalDamageAtLevelZero(baseDamage: real, log: int -> real)
    requires IsLogCurve(log)
    ensures FinalDamageAt(baseDamage, 0, log) == baseDamage
  {
  }

  /** Damage never falls as proficiency rises (for a non-negative base). */
  lemma FinalDamageMonotone(baseDamage: real, lo: int, hi: int, log: int -> real)
    requires IsLogCurve(log)
    requires 0.0 <= baseDamage && 0 <= lo <= hi
    ensures FinalDamageAt(baseDamage, lo, log) <= FinalDamageAt(baseDamage, hi, log)
  {
    assert log(lo + 1) <= log(hi + 1);
    MultiplyMonotone(baseDamage, 1.0 + DamageModifier * log(lo + 1), 1.0 + DamageModifier * log(hi + 1));
  }

  lemma MultiplyMonotone(k: real, x: real, y: real)
    requires 0.0 <= k && x <= y
    ensures k * x <= k * y
  {
  }

  /** The factor 1 - 0.03 ln(level + 1) applied to the base MP cost; it is not
      clamped and may go negative at very high levels. */
  function MpCostFactor(proficiencyLevel: int, log: int -> real): real {
    1.0 - MpCostModifier * log(proficiencyLevel + 1)
  }

  /** `FinalMpCost`: the least integer that is at least 1 and at least the
      scaled base cost. */
  function FinalMpCostAt(baseMpCost: int, proficiencyLevel: int, log: int -> real): (c: int)
    ensures c >= 1
    ensures c as real >= baseMpCost as real * MpCostFactor(proficiencyLevel, log)
    ensures c == 1 || (c - 1) as real < baseMpCost as real * MpCostFactor(proficiencyLevel, log)
  {
    Max(1, Ceil(baseMpCost as real * MpCostFactor(proficiencyLevel, log)))
  }

  /** An unpractised spell costs its base cost, but never less than 1. */
  lemma FinalMpCostAtLevelZero(baseMpCost: int, log: int -> real)
    requires IsLogCurve(log)
    ensures FinalMpCostAt(baseMpCost, 0, log) == Max(1, baseMpCost)
  {
    assert MpCostFactor(0, log) == 1.0;
  }

  /** The MP cost never rises as proficiency rises (for a non-negative base). */
  lemma FinalMpCostMonotone(baseMpCost: int, lo: int, hi: int, log: int -> real)
    requires IsLogCurve(log)
    requires 0 <= baseMpCost && 0 <= lo <= hi
    ensures FinalMpCostAt(baseMpCost, hi, log) <= FinalMpCostAt(baseMpCost, lo, log)
  {
    assert log(lo + 1) <= log(hi + 1);
    assert MpCostFactor(hi, log) <= MpCostFactor(lo, log);
    MultiplyMonotone(baseMpCost as real, MpCostFactor(hi, log), MpCostFactor(lo, log));
    CeilMonotone(baseMpCost as real * MpCostFactor(hi, log), baseMpCost as real * MpCostFactor(lo, log));
  }

  // ---------------------------------------------------------------------------
  // Proficiency growth

  /** The proficiency triple: level, experience toward the next level, and the
      experience that next level needs. */
  datatype Proficiency = Proficiency(level: int, exp: int, next: int)

  /** Experience one cast earns, `(int)(10 * (1 + playerLevel * 0.1))`; in
      exact arithmetic it is 10 plus the player's level. */
  function Gain(playerLevel: int): (g: int)
    ensures g == 10 + playerLevel
  {
    var x := 10.0 * (1.0 + playerLevel as real * 0.1);
    assert x == (10 + playerLevel) as real;
    Trunc(x)
  }

  /** The next threshold, `(int)(n * 1.2)`: six fifths of `n`, rounded down,
      so a positive threshold stays positive and never shrinks. */
  function Grow(n: int): (m: int)
    ensures n >= 0 ==> m == n * 6 / 5
    ensures n > 0 ==> m >= n
  {
    var x := n as real * NextExpScaler;
    if n >= 0 then
      var q := n * 6 / 5;
      assert q * 5 <= n * 6 < q * 5 + 5;
      assert q as real <= x < q as real + 1.0;
      Trunc(x)
    else
      Trunc(x)
  }

  /** The level-up loop: while the experience reaches the threshold in effect,
      gain a level, pay that threshold, and grow it. */
  function Settle(p: Proficiency): (r: Proficiency)
    requires p.next > 0
    ensures 0 < r.next && r.exp < r.next
    ensures r.level >= p.level && r.next >= p.next && r.exp <= p.exp
    ensures p.exp >= 0 ==> r.exp >= 0
    decreases p.exp
  {
    if p.exp >= p.next then Settle(Proficiency(p.level + 1, p.exp - p.next, Grow(p.next))) else p
  }

  /** One turn of the level-up loop leaves the settled result unchanged. */
  lemma SettleStep(p: Proficiency)
    requires 0 < p.next <= p.exp
    ensures Settle(p) == Settle(Proficiency(p.level + 1, p.exp - p.next, Grow(p.next)))
  {
  }

  /** The threshold in effect after `k` level-ups starting from `next`. */
  function ThresholdAfter(next: int, k: nat): int
    decreases k
  {
    if k == 0 then next else ThresholdAfter(Grow(next), k - 1)
  }

  /** The experience paid by `k` level-ups starting from threshold `next`:
      each pays the threshold in effect at that moment. */
  function Consumed(next: int, k: nat): int
    decreases k
  {
    if k == 0 then 0 else next + Consumed(Grow(next), k - 1)
  }

  /** After settling, with k the number of level-ups, the threshold has grown
      k times and the experience has paid exactly the k thresholds met. */
  lemma {:induction false} SettleClosedForm(p: Proficiency)
    requires p.next > 0
    ensures Settle(p).next == ThresholdAfter(p.next, Settle(p).level - p.level)
    ensures Settle(p).exp == p.exp - Consumed(p.next, Settle(p).level - p.level)
    decreases p.exp
  {
    if p.exp >= p.next {
      var q := Proficiency(p.level + 1, p.exp - p.next, Grow(p.next));
      SettleClosedForm(q);
      assert Settle(p) == Settle(q);
    }
  }

  /** Every level-up the loop performed was paid for: before the j-th one the
      remaining experience reached the threshold then in effect. */
  lemma {:induction false} SettleLevelUpsAffordable(p: Proficiency, j: nat)
    requires p.next > 0
    requires j < Settle(p).level - p.level
    ensures p.exp - Consumed(p.next, j) >= ThresholdAfter(p.next, j)
    decreases j
  {
    if p.exp >= p.next {
      var q := Proficiency(p.level + 1, p.exp - p.next, Grow(p.next));
      assert Settle(p) == Settle(q);
      if j > 0 {
        SettleLevelUpsAffordable(q, j - 1);
      }
    }
  }

  /** From level 0, 0 experience and threshold 100, a gain of 100 gives one
      level-up and a threshold of 120. */
  lemma SettleExactThreshold()
    ensures Settle(Proficiency(0, 100, 100)) == Proficiency(1, 0, 120)
  {
    assert Grow(100) == 120;
    assert Settle(Proficiency(1, 0, 120)) == Proficiency(1, 0, 120);
  }

  /** From the same start a gain of 250 gives two level-ups, paying 100 then 120. */
  lemma SettleTwoLevelUps()
    ensures Settle(Proficiency(0, 250, 100)) == Proficiency(2, 30, 144)
  {
    assert Grow(100) == 120 && Grow(120) == 144;
    assert Settle(Proficiency(2, 30, 144)) == Proficiency(2, 30, 144);
    assert Settle(Proficiency(1, 150, 120)) == Proficiency(2, 30, 144);
  }

  // ---------------------------------------------------------------------------
  // The spell object

  class Magic {
    var magicID: string
    var magicName: string
    var principles: seq<PrincipleType>
    var baseDamage: real
    var baseMpCost: int
    var baseRange: real
    var proficiencyLevel: int
    var proficiencyExp: int
    var nextProficiencyExp: int

    /** The proficiency invariant the level-up loop keeps. */
    ghost predicate Valid()
      reads this
    {
      0 <= proficiencyLevel && 0 < nextProficiencyExp && proficiencyExp < nextProficiencyExp
    }

    function State(): Proficiency
      reads this`proficiencyLevel, this`proficiencyExp, this`nextProficiencyExp
    {
      Proficiency(proficiencyLevel, proficiencyExp, nextProficiencyExp)
    }

    /** A spell as content defines it, never yet used. */
    constructor (magicID: string, magicName: string, principles: seq<PrincipleType>,
                 baseDamage: real, baseMpCost: int, baseRange: real)
      ensures Valid() && State() == Proficiency(0, 0, InitialNextProficiencyExp)
      ensures this.magicID == magicID && this.magicName == magicName
      ensures this.principles == principles && this.baseDamage == baseDamage
      ensures this.baseMpCost == baseMpCost && this.baseRange == baseRange
    {
      this.magicID := magicID;
      this.magicName := magicName;
      this.principles := principles;
      this.baseDamage := baseDamage;
      this.baseMpCost := baseMpCost;
      this.baseRange := baseRange;
      proficiencyLevel := 0;
      proficiencyExp := 0;
      nextProficiencyExp := InitialNextProficiencyExp;
    }

    /** Practice never makes a spell weaker than its base damage. */
    function FinalDamage(log: int -> real): (d: real)
      reads this`baseDamage, this`proficiencyLevel
      ensures IsLogCurve(log) && 0.0 <= baseDamage && 0 <= proficiencyLevel ==> d >= baseDamage
    {
      FinalDamageAt(baseDamage, proficiencyLevel, log)
    }

    /** A cast always costs at least 1 MP, and practice never makes a spell
        dearer than its unpractised cost. */
    function FinalMpCost(log: int -> real): (c: int)
      reads this`baseMpCost, this`proficiencyLevel
      ensures c >= 1
      ensures IsLogCurve(log) && 0 <= baseMpCost && 0 <= proficiencyLevel ==> c <= Max(1, baseMpCost)
    {
      var c := FinalMpCostAt(baseMpCost, proficiencyLevel, log);
      assert IsLogCurve(log) && 0 <= baseMpCost && 0 <= proficiencyLevel ==> c <= Max(1, baseMpCost) by {
        if IsLogCurve(log) && 0 <= baseMpCost && 0 <= proficiencyLevel {
          FinalMpCostAtLevelZero(baseMpCost, log);
          FinalMpCostMonotone(baseMpCost, 0, proficiencyLevel, log);
        }
      }
      c
    }

    /** Add the experience of one cast by a player of `playerLevel`, then
        level up as many times as the experience pays for. */
    method AddProficiencyExp(playerLevel: int)
      requires 0 < nextProficiencyExp
      modifies this`proficiencyLevel, this`proficiencyExp, this`nextProficiencyExp
      ensures State() == Settle(Proficiency(old(proficiencyLevel), old(proficiencyExp) + Gain(playerLevel), old(nextProficiencyExp)))
      ensures proficiencyExp < nextProficiencyExp
      ensures proficiencyLevel >= old(proficiencyLevel)
      ensures old(Valid()) ==> Valid()
    {
      var gainExp := Gain(playerLevel);
      proficiencyExp := proficiencyExp + gainExp;
      ghost var start := State();
      while proficiencyExp >= nextProficiencyExp
        invariant 0 < nextProficiencyExp
        invariant Settle(State()) == Settle(start)
        decreases proficiencyExp
      {
        ghost var before := State();
        SettleStep(before);
        proficiencyLevel := proficiencyLevel + 1;
        proficiencyExp := proficiencyExp - nextProficiencyExp;
        nextProficiencyExp := Grow(nextProficiencyExp);
        assert State() == Proficiency(before.level + 1, before.exp - before.next, Grow(before.next));
      }
    }
  }
}
