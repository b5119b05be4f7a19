/** The player character: vitals, economy, the four equipment slots and the
    queries that fold equipment into combat values. */
module Characters {
  import opened Numeric
  import opened Equipments
  import opened Magics

  /** Maximum HP gained per level-up. */
  const HpGrowth: int := 10
  /** Maximum MP gained per level-up. */
  const MpGrowth: int := 5

  // ---------------------------------------------------------------------------
  // Specifications of the vitals updates

  /** Damage that gets through mitigation: `damage * (1 - reduction)`, raised
      to 0 when negative, then truncated to an integer. */
  function EffectiveDamage(damage: int, reduction: real): (n: int)
    ensures n >= 0
    ensures damage as real * (1.0 - reduction) <= 0.0 ==> n == 0
    ensures damage as real * (1.0 - reduction) > 0.0 ==>
              n as real <= damage as real * (1.0 - reduction) < n as real + 1.0
  {
    var finalDamage := damage as real * (1.0 - reduction);
    Trunc(if finalDamage < 0.0 then 0.0 else finalDamage)
  }

  /** HP after a hit: the effective damage is subtracted and the result is
      raised to 0. */
  function HpAfterDamage(hp: int, damage: int, reduction: real): (r: int)
    ensures r >= 0
    ensures hp >= 0 ==> r <= hp
    ensures hp >= EffectiveDamage(damage, reduction) ==> r == hp - EffectiveDamage(damage, reduction)
    ensures hp < EffectiveDamage(damage, reduction) ==> r == 0
  {
    var left := hp - EffectiveDamage(damage, reduction);
    if left < 0 then 0 else left
  }

  /** Without equipment mitigation a non-negative hit takes exactly its amount,
      stopping at 0. */
  lemma UnmitigatedDamage(hp: int, damage: int)
    requires damage >= 0
    ensures HpAfterDamage(hp, damage, 0.0) == Max(0, hp - damage)
  {
    assert EffectiveDamage(damage, 0.0) == damage;
  }

  /** A hit of 100 through 30% mitigation costs exactly 70 HP, stopping at 0. */
  lemma ThirtyPercentMitigation(hp: int)
    ensures HpAfterDamage(hp, 100, 0.3) == Max(0, hp - 70)
  {
    assert EffectiveDamage(100, 0.3) == 70;
  }

  /** Mitigation at or above 100% absorbs a non-negative hit entirely: the
      summed reduction is not clamped, and the negative product is raised to 0
      rather than healing. */
  lemma FullMitigation(hp: int, damage: int, reduction: real)
    requires damage >= 0 && reduction >= 1.0
    ensures HpAfterDamage(hp, damage, reduction) == Max(0, hp)
  {
    assert damage as real * (1.0 - reduction) <= 0.0 by {
      MultiplyMonotone(damage as real, 1.0 - reduction, 0.0);
    }
  }

  /** An additive recovery that stops at the cap: the full amount when it
      fits, the cap otherwise. */
  function Capped(current: int, amount: int, cap: int): (r: int)
    ensures r <= cap && r <= current + amount
    ensures current + amount <= cap ==> r == current + amount
    ensures current + amount > cap ==> r == cap
  {
    var raised := current + amount;
    if raised > cap then cap else raised
  }

  /** A non-negative recovery keeps a value that was within [0, cap] there,
      and never lowers it. */
  lemma CappedKeepsRange(current: int, amount: int, cap: int)
    requires 0 <= current <= cap && amount >= 0
    ensures current <= Capped(current, amount, cap) <= cap
  {
  }

  /** MP regained over `deltaTime` seconds: one per second plus the equipment
      bonus, truncated to an integer. */
  function RegenAmount(regenBonus: real, deltaTime: real): (n: int)
    ensures regenBonus >= -1.0 && deltaTime >= 0.0 ==> n >= 0
    ensures regenBonus >= -1.0 && deltaTime >= 0.0 ==>
              n as real <= (1.0 + regenBonus) * deltaTime < n as real + 1.0
  {
    var x := (1.0 + regenBonus) * deltaTime;
    assert regenBonus >= -1.0 && deltaTime >= 0.0 ==> x >= 0.0 by {
      if regenBonus >= -1.0 && deltaTime >= 0.0 {
        MultiplyMonotone(deltaTime, 0.0, 1.0 + regenBonus);
      }
    }
    Trunc(x)
  }

  /** The admission gate of every spend (MP for a cast, gold for a purchase). */
  datatype Payment = Paid(remaining: int) | Refused

  /** Pay `amount` out of `balance`: accepted exactly when the balance covers
      it, leaving the difference, which is then never negative. */
  function Pay(balance: int, amount: int): (r: Payment)
    ensures r.Paid? <==> balance >= amount
    ensures r.Paid? ==> r.remaining == balance - amount && r.remaining >= 0
  {
    if balance >= amount then Paid(balance - amount) else Refused
  }

  /** A balance of 10 admits every spend from 0 to 10 and refuses 11. */
  lemma PayAtTen()
    ensures forall x :: 0 <= x <= 10 ==> Pay(10, x) == Paid(10 - x)
    ensures Pay(10, 11) == Refused
  {
  }

  // ---------------------------------------------------------------------------
  // The character object

  /** The damage multiplier loop of `GetFinalMagicDamage`: start at 1 and
      add the principle bonus of each item whose target principle is listed. */
  method PrincipleMultiplier(equipments: seq<Equipment>, principles: seq<PrincipleType>) returns (m: real)
    ensures m == 1.0 + Sum(equipments, GatedBonus(principles))
  {
    m := 1.0;
    for i := 0 to |equipments|
      invariant m == 1.0 + Sum(equipments[..i], GatedBonus(principles))
    {
      var e := equipments[i];
      assert equipments[..i + 1] == equipments[..i] + [e];
      GatedSnoc(equipments[..i], e, principles);
      if e.targetPrinciple in principles {
        m := m + e.principleDamageBonus;
      }
    }
    assert equipments[..|equipments|] == equipments;
  }

  class Character {
    var characterID: string
    var characterName: string
    var level: int
    var currentHP: int
    var maxHP: int
    var currentMP: int
    var maxMP: int
    var currentExp: int
    var gold: int
    var staff: Slot
    var robe: Slot
    var ring: Slot
    var brooch: Slot
    /** Spells the character has equipped; shared with the spell book, and
        not used by any formula here. */
    var equippedMagics: seq<Magic>

    /** The HP and MP bounds the game expects (not enforced by every
        operation: a negative heal, recovery or regeneration can break them). */
    ghost predicate VitalsInRange()
      reads this
    {
      0 <= currentHP <= maxHP && 0 <= currentMP <= maxMP
    }

    /** A character with the field initialisers' values: level 1, 100/100 HP,
        100/100 MP, no experience, no gold, nothing equipped. */
    constructor ()
      ensures level == 1 && currentHP == 100 && maxHP == 100 && currentMP == 100 && maxMP == 100
      ensures currentExp == 0 && gold == 0
      ensures staff == Empty && robe == Empty && ring == Empty && brooch == Empty
      ensures equippedMagics == [] && characterID == "" && characterName == ""
      ensures VitalsInRange()
    {
      characterID := "";
      characterName := "";
      level := 1;
      currentHP := 100;
      maxHP := 100;
      currentMP := 100;
      maxMP := 100;
      currentExp := 0;
      gold := 0;
      staff := Empty;
      robe := Empty;
      ring := Empty;
      brooch := Empty;
      equippedMagics := [];
    }

    // --- Equipment queries ---------------------------------------------------

    /** The equipped items: exactly the filled slots, in the order staff,
        robe, ring, brooch. */
    function GetAllEquipments(): (r: seq<Equipment>)
      reads this`staff, this`robe, this`ring, this`brooch
      ensures r == Present([staff, robe, ring, brooch])
    {
      PresentOfFour(staff, robe, ring, brooch);
      Keep(staff) + Keep(robe) + Keep(ring) + Keep(brooch)
    }

    /** Summed damage reduction of the equipped items (unclamped). */
    function GetTotalDamageReduction(): (r: real)
      reads this`staff, this`robe, this`ring, this`brooch
      ensures r == FourSlotSum(staff, robe, ring, brooch, DamageReductionOf)
    {
      FourSlotTotal(staff, robe, ring, brooch, DamageReductionOf);
      Sum(GetAllEquipments(), DamageReductionOf)
    }

    /** Summed MP regeneration bonus of the equipped items. */
    function GetTotalMpRegenBonus(): (r: real)
      reads this`staff, this`robe, this`ring, this`brooch
      ensures r == FourSlotSum(staff, robe, ring, brooch, MpRegenBonusOf)
    {
      FourSlotTotal(staff, robe, ring, brooch, MpRegenBonusOf);
      Sum(GetAllEquipments(), MpRegenBonusOf)
    }

    /** The spell's base range scaled by one plus every equipped item's range
        bonus, whatever the spell's principles. */
    function GetFinalMagicRange(magic: Magic): (r: real)
      reads this`staff, this`robe, this`ring, this`brooch, magic`baseRange
      ensures r == magic.baseRange * SlotMultiplier(staff, robe, ring, brooch, RangeBonusOf)
    {
      var rangeMultiplier := 1.0 + Sum(GetAllEquipments(), RangeBonusOf);
      FourSlotTotal(staff, robe, ring, brooch, RangeBonusOf);
      assert rangeMultiplier == SlotMultiplier(staff, robe, ring, brooch, RangeBonusOf);
      magic.baseRange * rangeMultiplier
    }

    /** The spell's final damage scaled by a multiplier that starts at 1 and
        gains, additively, the principle bonus of each equipped item whose
        target principle the spell lists. */
    method GetFinalMagicDamage(magic: Magic, log: int -> real) returns (d: real)
      ensures d == magic.FinalDamage(log) * (1.0 + Sum(GetAllEquipments(), GatedBonus(magic.principles)))
    {
      var damageMultiplier := PrincipleMultiplier(GetAllEquipments(), magic.principles);
      d := magic.FinalDamage(log) * damageMultiplier;
    }

    // --- Vitals --------------------------------------------------------------

    /** Raise the level by one and the two caps by their fixed growth; the
        current HP and MP, experience and gold are left alone. */
    method LevelUp()
      modifies this`level, this`maxHP, this`maxMP
      ensures level == old(level) + 1
      ensures maxHP == old(maxHP) + HpGrowth && maxMP == old(maxMP) + MpGrowth
      ensures old(VitalsInRange()) ==> VitalsInRange()
    {
      level := level + 1;
      maxHP := maxHP + HpGrowth;
      maxMP := maxMP + MpGrowth;
    }

    /** Take a hit mitigated by the equipment's total damage reduction. */
    method TakeDamage(damage: int)
      modifies this`currentHP
      ensures currentHP == HpAfterDamage(old(currentHP), damage, GetTotalDamageReduction())
      ensures old(VitalsInRange()) ==> VitalsInRange()
    {
      var reduction := GetTotalDamageReduction();
      currentHP := currentHP - EffectiveDamage(damage, reduction);
      if currentHP < 0 {
        currentHP := 0;
      }
    }

    /** Regenerate MP for `deltaTime` seconds, stopping at the maximum. */
    method RegenerateMpOverTime(deltaTime: real)
      modifies this`currentMP
      ensures currentMP == Capped(old(currentMP), RegenAmount(GetTotalMpRegenBonus(), deltaTime), maxMP)
      ensures old(VitalsInRange()) && GetTotalMpRegenBonus() >= -1.0 && deltaTime >= 0.0 ==> VitalsInRange()
    {
      var regenBonus := GetTotalMpRegenBonus();
      currentMP := currentMP + RegenAmount(regenBonus, deltaTime);
      if currentMP > maxMP {
        currentMP := maxMP;
      }
    }

    /** Restore `amount` HP, stopping at the maximum. */
    method Heal(amount: int)
      modifies this`currentHP
      ensures currentHP == Capped(old(currentHP), amount, maxHP)
      ensures old(VitalsInRange()) && amount >= 0 ==> VitalsInRange()
    {
      currentHP := currentHP + amount;
      if currentHP > maxHP {
        currentHP := maxHP;
      }
    }

    /** Spend `amount` MP if there is enough; otherwise change nothing. */
    method UseMp(amount: int) returns (ok: bool)
      modifies this`currentMP
      ensures ok <==> Pay(old(currentMP), amount).Paid?
      ensures ok ==> currentMP == Pay(old(currentMP), amount).remaining
      ensures !ok ==> currentMP == old(currentMP)
      ensures old(VitalsInRange()) && amount >= 0 ==> VitalsInRange()
    {
      if currentMP >= amount {
        currentMP := currentMP - amount;
        return true;
      }
      return false;
    }

    /** Restore `amount` MP, stopping at the maximum. */
    method RecoverMp(amount: int)
      modifies this`currentMP
      ensures currentMP == Capped(old(currentMP), amount, maxMP)
      ensures old(VitalsInRange()) && amount >= 0 ==> VitalsInRange()
    {
      currentMP := currentMP + amount;
      if currentMP > maxMP {
        currentMP := maxMP;
      }
    }
  }
}
