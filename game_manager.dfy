/** The game manager: new-game defaults, the experience-to-level loop, gold,
    the cast transaction, the pause flag and the per-frame MP regeneration. */
module GameManagement {
  import opened Numeric
  import opened Magics
  import opened Characters

  /** Gold a new player starts with. */
  const StartingGold: int := 100
  const NewPlayerID: string := "player_001"
  const NewPlayerName: string := "プレイヤー"

  // ---------------------------------------------------------------------------
  // Experience and levels

  /** The experience each level requires. `Character.GetRequiredExp` is not
      part of this model: any curve with positive requirements is accepted. */
  ghost predicate PositiveCurve(required: int -> int) {
    forall l :: required(l) > 0
  }

  /** A character's level and experience toward the next level. */
  datatype Progress = Progress(level: int, exp: int)

  /** The level-up loop: while the experience reaches what the current level
      requires, pay that requirement and gain a level. */
  function Advance(p: Progress, required: int -> int): (r: Progress)
    requires PositiveCurve(required)
    ensures r.exp < required(r.level)
    ensures r.level >= p.level && r.exp <= p.exp
    ensures p.exp >= 0 ==> r.exp >= 0
    decreases p.exp
  {
    if p.exp >= required(p.level) then
      Advance(Progress(p.level + 1, p.exp - required(p.level)), required)
    else
      p
  }

  /** The experience needed to go from level `lo` to level `hi`. */
  function RequiredBetween(lo: int, hi: int, required: int -> int): int
    decreases hi - lo
  {
    if lo >= hi then 0 else required(lo) + RequiredBetween(lo + 1, hi, required)
  }

  /** The loop pays exactly the requirements of the levels it leaves: each
      iteration pays what the level before the increment requires. */
  lemma {:induction false} AdvanceClosedForm(p: Progress, required: int -> int)
    requires PositiveCurve(required)
    ensures Advance(p, required).exp == p.exp - RequiredBetween(p.level, Advance(p, required).level, required)
    decreases p.exp
  {
    if p.exp >= required(p.level) {
      var q := Progress(p.level + 1, p.exp - required(p.level));
      AdvanceClosedForm(q, required);
      assert Advance(p, required) == Advance(q, required);
    }
  }

  /** Every level the loop left was paid for: on reaching level `l` the
      remaining experience covered what `l` requires. */
  lemma {:induction false} AdvanceLevelUpsAffordable(p: Progress, required: int -> int, l: int)
    requires PositiveCurve(required)
    requires p.level <= l < Advance(p, required).level
    ensures p.exp - RequiredBetween(p.level, l, required) >= required(l)
    decreases l - p.level
  {
    if p.exp >= required(p.level) {
      var q := Progress(p.level + 1, p.exp - required(p.level));
      assert Advance(p, required) == Advance(q, required);
      if l > p.level {
        AdvanceLevelUpsAffordable(q, required, l);
      }
    }
  }

  function FlatCurve(level: int): int { 100 }

  /** With a flat requirement of 100, a level-1 character with no experience
      that gains 250 ends at level 3 with 50 experience left. */
  lemma AdvanceOnFlatCurve()
    ensures PositiveCurve(FlatCurve)
    ensures Advance(Progress(1, 250), FlatCurve) == Progress(3, 50)
  {
    assert Advance(Progress(3, 50), FlatCurve) == Progress(3, 50);
    assert Advance(Progress(2, 150), FlatCurve) == Progress(3, 50);
  }

  // ---------------------------------------------------------------------------
  // The manager object

  /** The values `InitializeGame` gives a new player character. */
  ghost predicate IsNewPlayer(c: Character)
    reads c
  {
    && c.characterID == NewPlayerID && c.characterName == NewPlayerName
    && c.level == 1 && c.currentExp == 0
    && c.currentHP == 100 && c.maxHP == 100
    && c.currentMP == 100 && c.maxMP == 100
    && c.gold == StartingGold
    && c.staff.Empty? && c.robe.Empty? && c.ring.Empty? && c.brooch.Empty?
    && c.equippedMagics == []
  }

  class GameManager {
    var playerCharacter: Character?
    var isGamePaused: bool

    /** A manager before `InitializeGame`: no player, not paused. */
    constructor ()
      ensures playerCharacter == null && !isGamePaused
    {
      playerCharacter := null;
      isGamePaused := false;
    }

    /** Create the default player character, unless one is already set. */
    method InitializeGame()
      modifies this`playerCharacter
      ensures old(playerCharacter) != null ==> playerCharacter == old(playerCharacter)
      ensures old(playerCharacter) == null ==>
                playerCharacter != null && fresh(playerCharacter) && IsNewPlayer(playerCharacter)
    {
      if playerCharacter == null {
        var c := new Character();
        c.characterID := NewPlayerID;
        c.characterName := NewPlayerName;
        c.level := 1;
        c.currentHP := 100;
        c.maxHP := 100;
        c.currentMP := 100;
        c.maxMP := 100;
        c.gold := StartingGold;
        playerCharacter := c;
      }
    }

    /** Drop the current player and start over with a default one. */
    method ResetGame()
      modifies this`playerCharacter
      ensures playerCharacter != null && fresh(playerCharacter) && IsNewPlayer(playerCharacter)
    {
      playerCharacter := null;
      InitializeGame();
    }

    /** Add experience, then level up as many times as it pays for. */
    method AddExperience(exp: int, required: int -> int)
      requires playerCharacter != null && PositiveCurve(required)
      modifies playerCharacter`currentExp, playerCharacter`level, playerCharacter`maxHP, playerCharacter`maxMP
      ensures Progress(playerCharacter.level, playerCharacter.currentExp)
           == Advance(Progress(old(playerCharacter.level), old(playerCharacter.currentExp) + exp), required)
      ensures playerCharacter.maxHP == old(playerCharacter.maxHP) + HpGrowth * (playerCharacter.level - old(playerCharacter.level))
      ensures playerCharacter.maxMP == old(playerCharacter.maxMP) + MpGrowth * (playerCharacter.level - old(playerCharacter.level))
    {
      playerCharacter.currentExp := playerCharacter.currentExp + exp;
      CheckLevelUp(required);
    }

    /** While the experience reaches what the current level requires, pay it
        and level up once; k level-ups raise the level by k and the caps by
        10k and 5k. */
    method CheckLevelUp(required: int -> int)
      requires playerCharacter != null && PositiveCurve(required)
      modifies playerCharacter`currentExp, playerCharacter`level, playerCharacter`maxHP, playerCharacter`maxMP
      ensures Progress(playerCharacter.level, playerCharacter.currentExp)
           == Advance(Progress(old(playerCharacter.level), old(playerCharacter.currentExp)), required)
      ensures playerCharacter.maxHP == old(playerCharacter.maxHP) + HpGrowth * (playerCharacter.level - old(playerCharacter.level))
      ensures playerCharacter.maxMP == old(playerCharacter.maxMP) + MpGrowth * (playerCharacter.level - old(playerCharacter.level))
    {
      var player := playerCharacter;
      ghost var start := Progress(player.level, player.currentExp);
      var requiredExp := required(player.level);
      while player.currentExp >= requiredExp
        invariant requiredExp == required(player.level)
        invariant Advance(Progress(player.level, player.currentExp), required) == Advance(start, required)
        invariant player.maxHP == old(player.maxHP) + HpGrowth * (player.level - old(player.level))
        invariant player.maxMP == old(player.maxMP) + MpGrowth * (player.level - old(player.level))
        decreases player.currentExp
      {
        player.currentExp := player.currentExp - requiredExp;
        player.LevelUp();
        requiredExp := required(player.level);
      }
    }

    method AddGold(amount: int)
      requires playerCharacter != null
      modifies playerCharacter`gold
      ensures playerCharacter.gold == old(playerCharacter.gold) + amount
    {
      playerCharacter.gold := playerCharacter.gold + amount;
    }

    /** Spend gold if there is enough; otherwise change nothing. */
    method SpendGold(amount: int) returns (ok: bool)
      requires playerCharacter != null
      modifies playerCharacter`gold
      ensures ok <==> Pay(old(playerCharacter.gold), amount).Paid?
      ensures ok ==> playerCharacter.gold == Pay(old(playerCharacter.gold), amount).remaining
      ensures !ok ==> playerCharacter.gold == old(playerCharacter.gold)
    {
      if playerCharacter.gold >= amount {
        playerCharacter.gold := playerCharacter.gold - amount;
        return true;
      }
      return false;
    }

    /** Cast a spell: pay its current MP cost, and only if that succeeds let
        the spell gain proficiency from the player's level. A missing spell or
        a refused payment changes nothing. */
    method UseMagic(magic: Magic?, log: int -> real) returns (ok: bool)
      requires playerCharacter != null
      requires magic != null ==> 0 < magic.nextProficiencyExp
      modifies playerCharacter`currentMP
      modifies (if magic == null then {} else {magic})`proficiencyLevel
      modifies (if magic == null then {} else {magic})`proficiencyExp
      modifies (if magic == null then {} else {magic})`nextProficiencyExp
      ensures magic == null ==> !ok && playerCharacter.currentMP == old(playerCharacter.currentMP)
      ensures magic != null ==> (ok <==> Pay(old(playerCharacter.currentMP), old(magic.FinalMpCost(log))).Paid?)
      ensures ok ==>
                && magic != null
                && playerCharacter.currentMP == old(playerCharacter.currentMP) - old(magic.FinalMpCost(log))
                && magic.State() == Settle(Proficiency(old(magic.proficiencyLevel),
                                                       old(magic.proficiencyExp) + Gain(playerCharacter.level),
                                                       old(magic.nextProficiencyExp)))
      ensures !ok ==>
                && playerCharacter.currentMP == old(playerCharacter.currentMP)
                && (magic != null ==> magic.State() == old(magic.State()))
      ensures (ok && IsLogCurve(log) && magic.baseMpCost >= 0 && old(magic.proficiencyLevel) >= 0)
                ==> magic.FinalMpCost(log) <= old(magic.FinalMpCost(log))
      ensures (ok && IsLogCurve(log) && magic.baseDamage >= 0.0 && old(magic.proficiencyLevel) >= 0)
                ==> magic.FinalDamage(log) >= old(magic.FinalDamage(log))
    {
      if magic == null {
        return false;
      }
      ghost var levelBefore := magic.proficiencyLevel;
      ok := playerCharacter.UseMp(magic.FinalMpCost(log));
      if ok {
        magic.AddProficiencyExp(playerCharacter.level);
        assert IsLogCurve(log) && magic.baseMpCost >= 0 && levelBefore >= 0
               ==> magic.FinalMpCost(log) <= FinalMpCostAt(magic.baseMpCost, levelBefore, log) by {
          if IsLogCurve(log) && magic.baseMpCost >= 0 && levelBefore >= 0 {
            FinalMpCostMonotone(magic.baseMpCost, levelBefore, magic.proficiencyLevel, log);
          }
        }
        assert IsLogCurve(log) && magic.baseDamage >= 0.0 && levelBefore >= 0
               ==> magic.FinalDamage(log) >= FinalDamageAt(magic.baseDamage, levelBefore, log) by {
          if IsLogCurve(log) && magic.baseDamage >= 0.0 && levelBefore >= 0 {
            FinalDamageMonotone(magic.baseDamage, levelBefore, magic.proficiencyLevel, log);
          }
        }
      }
    }

    method TogglePause()
      modifies this`isGamePaused
      ensures isGamePaused == !old(isGamePaused)
    {
      isGamePaused := !isGamePaused;
    }

    /** One frame of `deltaTime` seconds: MP regenerates only when the game
        is not paused and a player exists. */
    method Update(deltaTime: real)
      modifies (if playerCharacter == null then {} else {playerCharacter})`currentMP
      ensures (playerCharacter != null && (isGamePaused || old(playerCharacter.currentMP) >= playerCharacter.maxMP))
                ==> playerCharacter.currentMP == old(playerCharacter.currentMP)
      ensures (playerCharacter != null && !isGamePaused && old(playerCharacter.currentMP) < playerCharacter.maxMP)
                ==> playerCharacter.currentMP == Capped(old(playerCharacter.currentMP),
                                                        RegenAmount(playerCharacter.GetTotalMpRegenBonus(), deltaTime),
                                                        playerCharacter.maxMP)
    {
      if !isGamePaused && playerCharacter != null {
        RegenerateMp(deltaTime);
      }
    }

    /** Regenerate MP only while it is below the maximum. */
    method RegenerateMp(deltaTime: real)
      requires playerCharacter != null
      modifies playerCharacter`currentMP
      ensures old(playerCharacter.currentMP) >= playerCharacter.maxMP ==> playerCharacter.currentMP == old(playerCharacter.currentMP)
      ensures (old(playerCharacter.currentMP) < playerCharacter.maxMP)
                ==> playerCharacter.currentMP == Capped(old(playerCharacter.currentMP),
                                                        RegenAmount(playerCharacter.GetTotalMpRegenBonus(), deltaTime),
                                                        playerCharacter.maxMP)
    {
      if playerCharacter.currentMP < playerCharacter.maxMP {
        playerCharacter.RegenerateMpOverTime(deltaTime);
      }
    }
  }
}
