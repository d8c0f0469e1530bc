/**
 * The deterministic rules engine: proficiency tiers, attacks, skill checks,
 * saving throws, death saves, damage, healing and experience. Every die comes
 * from the entropy stream of the dice module; every call returns the cursor
 * after its draws.
 */
module GameEngine {
  import opened Wrappers
  import opened Text
  import opened Dice
  import opened Characters

  // ---------------------------------------------------------------- tables

  /** XP needed to reach each level (2024 rules). */
  const XpThresholds: map<int, int> := map[
    1 := 0, 2 := 300, 3 := 900, 4 := 2700, 5 := 6500,
    6 := 14000, 7 := 23000, 8 := 34000, 9 := 48000, 10 := 64000,
    11 := 85000, 12 := 100000, 13 := 120000, 14 := 140000, 15 := 165000,
    16 := 195000, 17 := 225000, 18 := 265000, 19 := 305000, 20 := 355000
  ]

  /** The hit die of each class. */
  const HitDie: map<string, string> := map[
    "Barbarian" := "d12",
    "Fighter" := "d10", "Paladin" := "d10", "Ranger" := "d10",
    "Bard" := "d8", "Cleric" := "d8", "Druid" := "d8", "Monk" := "d8", "Rogue" := "d8", "Warlock" := "d8",
    "Sorcerer" := "d6", "Wizard" := "d6"
  ]

  /** The ability each skill is rolled with. */
  const SkillAbility: map<string, string> := map[
    "Acrobatics" := "dexterity", "Animal Handling" := "wisdom", "Arcana" := "intelligence",
    "Athletics" := "strength", "Deception" := "charisma", "History" := "intelligence",
    "Insight" := "wisdom", "Intimidation" := "charisma", "Investigation" := "intelligence",
    "Medicine" := "wisdom", "Nature" := "intelligence", "Perception" := "wisdom",
    "Performance" := "charisma", "Persuasion" := "charisma", "Religion" := "intelligence",
    "Sleight of Hand" := "dexterity", "Stealth" := "dexterity", "Survival" := "wisdom"
  ]

  const AbilityNames: set<string> :=
    {"strength", "dexterity", "constitution", "intelligence", "wisdom", "charisma"}

  /** `XP_THRESHOLDS.get(level)`. */
  function ThresholdFor(level: int): (t: Option<int>)
    ensures t.Some? <==> 1 <= level <= 20
    ensures t.Some? ==> (t.value == 0 <==> level == 1)
  {
    if level in XpThresholds then Some(XpThresholds[level]) else None
  }

  /** Each level needs strictly more XP than the one before it. */
  lemma ThresholdsIncrease(a: int, b: int)
    requires 1 <= a < b <= 20
    ensures XpThresholds[a] < XpThresholds[b]
  {
  }

  /** `HIT_DIE.get(char_class, "d8")`: a `d` followed by the number of sides, 6, 8, 10 or 12. */
  function HitDieOf(charClass: string): (die: string)
    ensures |die| >= 2 && die[0] == 'd' && AllDigits(die[1..])
    ensures DigitsValue(die[1..]) in {6, 8, 10, 12}
  {
    var die := if charClass in HitDie then HitDie[charClass] else "d8";
    assert DigitsValue("12") == 12 by { assert "12"[..1] == "1"; }
    assert DigitsValue("10") == 10 by { assert "10"[..1] == "1"; }
    die
  }

  /** A class missing from the table rolls a d8. */
  lemma HitDieDefault(charClass: string)
    requires charClass !in HitDie
    ensures HitDieOf(charClass) == "d8"
  {
  }

  /** The number of sides of a class's hit die. */
  function HitDieSides(charClass: string): nat {
    DigitsValue(HitDieOf(charClass)[1..])
  }

  /** `roll` reads a hit die as one die of its sides, and `int(hit_die[1:])` reads the same sides. */
  lemma HitDieParsed(charClass: string)
    ensures ParsedDice(HitDieOf(charClass)) == (1, HitDieSides(charClass))
    ensures HitDieSides(charClass) in {6, 8, 10, 12}
    ensures PyInt(SliceFrom(HitDieOf(charClass), 1)) == Some(HitDieSides(charClass) as int)
  {
    var die := HitDieOf(charClass);
    var digits := die[1..];
    assert die == "d" + digits;
    ParsedBareDie(digits);
    assert SliceFrom(die, 1) == digits;
    PyIntOfDigits(digits);
  }

  /** The level-up HP roll: one hit die plus the modifier. */
  function RollHitDie(charClass: string, modifier: int, rng: Entropy, at: nat): (r: Rolled)
    ensures modifier + 1 <= r.result.total <= modifier + HitDieSides(charClass)
    ensures r.next == at + 1
  {
    var r := RollEach("1" + HitDieOf(charClass), 1, HitDieSides(charClass), modifier, "level up HP", rng, at);
    var rolls := r.result.rolls;
    assert Sum(rolls) == rolls[0] by { assert rolls[1..] == []; }
    r
  }

  /** `RollHitDie` is what `roll` does with the class's hit die text; it cannot fail. */
  lemma RollHitDieIsRoll(charClass: string, modifier: int, rng: Entropy, at: nat)
    ensures Roll(HitDieOf(charClass), modifier, false, false, "level up HP", rng, at)
            == Ok(RollHitDie(charClass, modifier, rng, at))
  {
    var die := HitDieOf(charClass);
    var digits := die[1..];
    assert die == "d" + digits;
    assert "1d" + digits == "1" + die;
    RollBareDie(digits, modifier, "level up HP", rng, at);
  }

  /** `SKILL_ABILITY_MAP.get(skill_name, "wisdom")`. */
  function AbilityForSkill(skill: string): (ability: string)
    ensures ability in AbilityNames
    ensures skill !in SkillAbility ==> ability == "wisdom"
  {
    if skill in SkillAbility then SkillAbility[skill] else "wisdom"
  }

  /** The score `getattr` reads for one of the six ability names. */
  function AbilityScore(d: CharacterData, ability: string): int
    requires ability in AbilityNames
  {
    GetAttr(d, ability).value
  }

  // ---------------------------------------------------------------- proficiency

  /** `proficiency_bonus(level)`: +2 up to level 4, then one more every four levels, +6 from 17. */
  function ProficiencyBonus(level: int): (b: int)
    ensures 2 <= b <= 6
    ensures level < 5 ==> b == 2
    ensures level >= 17 ==> b == 6
  {
    if level < 5 then 2
    else if level < 9 then 3
    else if level < 13 then 4
    else if level < 17 then 5
    else 6
  }

  /** Over levels 1 to 20 the tiers are the closed form `2 + (level - 1) / 4`. */
  lemma ProficiencyClosedForm(level: int)
    requires 1 <= level <= 20
    ensures ProficiencyBonus(level) == 2 + (level - 1) / 4
  {
  }

  /** The bonus never falls as the level rises. */
  lemma ProficiencyMonotone(a: int, b: int)
    requires a <= b
    ensures ProficiencyBonus(a) <= ProficiencyBonus(b)
  {
  }

  // ---------------------------------------------------------------- results

  datatype AttackResult = AttackResult(
    attackRoll: RollResult, hit: bool, damageRoll: Option<RollResult>, critical: bool)

  datatype SkillCheckResult = SkillCheckResult(
    rollResult: RollResult, dc: int, success: bool, skillName: string)

  datatype SavingThrowResult = SavingThrowResult(
    rollResult: RollResult, dc: int, success: bool, ability: string)

  datatype DeathSaveResult = DeathSaveResult(
    rollResult: RollResult, success: bool, stabilized: bool, dead: bool)

  /** The exceptions the engine's functions can raise. */
  datatype EngineError =
    | AttributeMissing(name: string)       // AttributeError from getattr
    | AttributeNotNumber(name: string)     // TypeError from (score - 10) // 2
    | DamageCountNotInteger(dice: string)  // ValueError from int(parts[0])
    | DamageSidesMissing(dice: string)     // IndexError from parts[1]
    | DiceFailed(error: DiceError)         // ValueError from randbelow(0)

  /** The d20 success rule shared by checks and saves. */
  predicate D20Success(r: RollResult, dc: int) {
    r.natural20 || (!r.natural1 && r.total >= dc)
  }

  /** On a d20 a natural 20 always succeeds and a natural 1 always fails, whatever the DC. */
  lemma D20Automatic(modifier: int, advantage: bool, disadvantage: bool, reason: string,
                     rng: Entropy, at: nat, dc: int)
    ensures var r := RollD20(modifier, advantage, disadvantage, reason, rng, at).result;
      && (r.total - modifier == 20 ==> D20Success(r, dc))
      && (r.total - modifier == 1 ==> !D20Success(r, dc))
      && (1 < r.total - modifier < 20 ==> (D20Success(r, dc) <==> r.total >= dc))
  {
  }

  // ---------------------------------------------------------------- attacks

  /** The damage text of a critical hit: `f"{int(parts[0]) * 2}d{parts[1]}"`. */
  function CriticalDice(damageDice: string): Result<string, EngineError> {
    var parts := Split(damageDice, 'd');
    match PyInt(parts[0])
    case None => Err(DamageCountNotInteger(damageDice))
    case Some(count) =>
      if |parts| < 2 then Err(DamageSidesMissing(damageDice))
      else Ok(IntToString(count * 2) + "d" + parts[1])
  }

  /**
   * A critical reads the count as `int()` does, underscores between digits
   * included (`1_0d6` becomes `20d6`), and keeps the text after the `d`.
   */
  lemma CriticalReadsNumeralCount(s: string, count: string, sides: string)
    requires IsNumeral(count) && 'd' !in sides && s == count + "d" + sides
    ensures CriticalDice(s) == Ok(IntToString(2 * DigitsValue(DropUnderscores(count))) + "d" + sides)
  {
    assert forall i :: 0 <= i < |count| ==> count[i] != 'd';
    assert IndexOf(s, 'd') == |count| by {
      assert s[|count|] == 'd';
      forall i | 0 <= i < |count| ensures s[i] != 'd' { assert s[i] == count[i]; }
    }
    assert s[..|count|] == count && s[|count| + 1..] == sides;
    SplitOnce(s, 'd');
    var parts := Split(s, 'd');
    assert parts == [count, sides];
    PyIntOfNumeral(count);
    var n: nat := DigitsValue(DropUnderscores(count));
    assert PyInt(parts[0]) == Some(n as int);
  }

  /** On canonical `NdM` a critical rolls `2N` dice of `M` sides. */
  lemma CriticalDoublesCount(count: string, sides: string)
    requires |count| > 0 && |sides| > 0 && AllDigits(count) && AllDigits(sides)
    ensures var crit := CriticalDice(count + "d" + sides);
      && crit == Ok(NatToDigits(2 * DigitsValue(count)) + "d" + sides)
      && ParsedDice(crit.value) == (2 * DigitsValue(count), DigitsValue(sides))
  {
    CriticalDiceCanonical(count, sides);
    var doubled := NatToDigits(2 * DigitsValue(count));
    ParsedOfCanonical(doubled, sides);
    DigitsRoundTrip(2 * DigitsValue(count));
  }

  /** The text half of `CriticalDoublesCount`: split on `d`, double the count, rejoin. */
  lemma CriticalDiceCanonical(count: string, sides: string)
    requires |count| > 0 && |sides| > 0 && AllDigits(count) && AllDigits(sides)
    ensures CriticalDice(count + "d" + sides) == Ok(NatToDigits(2 * DigitsValue(count)) + "d" + sides)
  {
    var s := count + "d" + sides;
    CanonicalOf(count, sides);
    SplitCanonical(s);
    var parts := Split(s, 'd');
    assert parts == [count, sides];
    PyIntOfDigits(count);
    var n: nat := DigitsValue(count);
    assert PyInt(parts[0]) == Some(n as int);
    assert IntToString(n * 2) == NatToDigits(2 * n);
  }

  /** A critical with a count-less die such as `"d8"` raises on `int("")`. */
  lemma CriticalOnCountlessDie(sides: string)
    ensures CriticalDice("d" + sides) == Err(DamageCountNotInteger("d" + sides))
  {
    var s := "d" + sides;
    assert IndexOf(s, 'd') == 0;
    assert Split(s, 'd')[0] == "";
  }

  /** `make_attack`. */
  function MakeAttack(d: CharacterData, targetAc: int, damageDice: string, ability: string,
                      proficient: bool, advantage: bool, disadvantage: bool,
                      rng: Entropy, at: nat): (r: Result<(AttackResult, nat), EngineError>)
    ensures GetAttr(d, ability).NoAttr? ==> r == Err(AttributeMissing(ability))
    ensures GetAttr(d, ability).OtherAttr? ==> r == Err(AttributeNotNumber(ability))
    ensures r.Ok? ==>
      var a := r.value.0;
      var abilityMod := AbilityModifier(GetAttr(d, ability).value);
      && a.attackRoll.modifier == abilityMod + (if proficient then d.proficiencyBonus else 0)
      && a.critical == a.attackRoll.natural20
      && a.hit == (a.critical || a.attackRoll.total >= targetAc)
      && (a.damageRoll.Some? <==> a.hit)
      && (a.damageRoll.Some? ==> a.damageRoll.value.modifier == abilityMod)
      && (a.hit && !a.critical ==> a.damageRoll.value.dice == Sanitize(damageDice))
  {
    match GetAttr(d, ability)
    case NoAttr => Err(AttributeMissing(ability))
    case OtherAttr => Err(AttributeNotNumber(ability))
    case IntAttr(score) =>
      var abilityMod := AbilityModifier(score);
      var atkMod := abilityMod + (if proficient then d.proficiencyBonus else 0);
      var atk := RollD20(atkMod, advantage, disadvantage, "attack", rng, at);
      var critical := atk.result.natural20;
      var hit := critical || atk.result.total >= targetAc;
      if !hit then Ok((AttackResult(atk.result, false, None, false), atk.next))
      else
        match HitDamage(damageDice, critical, abilityMod, rng, atk.next)
        case Err(e) => Err(e)
        case Ok(dmg) => Ok((AttackResult(atk.result, true, Some(dmg.result), critical), dmg.next))
  }

  /** The damage roll of a hit, its dice doubled on a critical. */
  function HitDamage(damageDice: string, critical: bool, abilityMod: int, rng: Entropy, at: nat)
    : (r: Result<Rolled, EngineError>)
    ensures r.Ok? ==> r.value.result.modifier == abilityMod && r.value.result.reason == "damage"
    ensures !critical ==> (r.Ok? <==> !(ParsedDice(damageDice).0 > 0 && ParsedDice(damageDice).1 == 0))
    ensures r.Ok? && !critical ==> r.value.result.dice == Sanitize(damageDice)
  {
    match (if critical then CriticalDice(damageDice) else Ok(damageDice))
    case Err(e) => Err(e)
    case Ok(diceToRoll) =>
      match Roll(diceToRoll, abilityMod, false, false, "damage", rng, at)
      case Err(e) => Err(DiceFailed(e))
      case Ok(dmg) => Ok(dmg)
  }

  /** A miss never fails: it rolls no damage and raises nothing. */
  lemma MissNeverFails(d: CharacterData, targetAc: int, damageDice: string, ability: string,
                       proficient: bool, advantage: bool, disadvantage: bool, rng: Entropy, at: nat)
    requires GetAttr(d, ability).IntAttr?
    requires var atkMod := AbilityModifier(GetAttr(d, ability).value) + (if proficient then d.proficiencyBonus else 0);
      var atk := RollD20(atkMod, advantage, disadvantage, "attack", rng, at).result;
      !atk.natural20 && atk.total < targetAc
    ensures var r := MakeAttack(d, targetAc, damageDice, ability, proficient, advantage, disadvantage, rng, at);
      r.Ok? && !r.value.0.hit && r.value.0.damageRoll.None?
  {
  }

  /**
   * A critical hit with canonical damage `NdM` rolls `2N` dice of `M` sides,
   * with the ability modifier and without proficiency.
   */
  lemma CriticalRollsDoubleDice(d: CharacterData, targetAc: int, count: string, sides: string,
                                ability: string, proficient: bool, advantage: bool, disadvantage: bool,
                                rng: Entropy, at: nat)
    requires |count| > 0 && |sides| > 0 && AllDigits(count) && AllDigits(sides) && DigitsValue(sides) > 0
    requires GetAttr(d, ability).IntAttr?
    requires var atkMod := AbilityModifier(GetAttr(d, ability).value) + (if proficient then d.proficiencyBonus else 0);
      RollD20(atkMod, advantage, disadvantage, "attack", rng, at).result.natural20
    ensures var r := MakeAttack(d, targetAc, count + "d" + sides, ability, proficient, advantage, disadvantage, rng, at);
      && r.Ok? && r.value.0.critical && r.value.0.damageRoll.Some?
      && |r.value.0.damageRoll.value.rolls| == 2 * DigitsValue(count)
  {
    var score := GetAttr(d, ability).value;
    assert GetAttr(d, ability) == IntAttr(score);
    var abilityMod := AbilityModifier(score);
    var atkMod := abilityMod + (if proficient then d.proficiencyBonus else 0);
    var atk := RollD20(atkMod, advantage, disadvantage, "attack", rng, at);
    assert atk.result.natural20;
    CriticalDoublesCount(count, sides);
    var crit := NatToDigits(2 * DigitsValue(count)) + "d" + sides;
    assert !AdvantageApplies(2 * DigitsValue(count), DigitsValue(sides), false, false);
    var dmg := Roll(crit, abilityMod, false, false, "damage", rng, atk.next);
    assert dmg.Ok? && |dmg.value.result.rolls| == 2 * DigitsValue(count);
    assert HitDamage(count + "d" + sides, true, abilityMod, rng, atk.next) == Ok(dmg.value);
    var r := MakeAttack(d, targetAc, count + "d" + sides, ability, proficient, advantage, disadvantage, rng, at);
    assert r.Ok?;
    assert r.value.0.critical;
    assert r.value.0.damageRoll == Some(dmg.value.result);
  }

  // ---------------------------------------------------------------- checks and saves

  /** `skill_check`. */
  function SkillCheck(d: CharacterData, skill: string, dc: int, advantage: bool, disadvantage: bool,
                      rng: Entropy, at: nat): (r: (SkillCheckResult, nat))
    ensures var res := r.0;
      && res.rollResult.modifier
           == AbilityModifier(AbilityScore(d, AbilityForSkill(skill)))
              + (if skill in d.proficientSkills then d.proficiencyBonus else 0)
      && (skill !in SkillAbility ==> res.rollResult.modifier - AbilityModifier(d.wisdom)
                                      == (if skill in d.proficientSkills then d.proficiencyBonus else 0))
      && res.rollResult.reason == skill && res.skillName == skill && res.dc == dc
      && (res.rollResult.natural20 ==> res.success)
      && (res.rollResult.natural1 ==> !res.success)
      && (!res.rollResult.natural20 && !res.rollResult.natural1 ==> (res.success <==> res.rollResult.total >= dc))
  {
    GetAbilityScores(d);
    var score := AbilityScore(d, AbilityForSkill(skill));
    var mod := AbilityModifier(score) + (if skill in d.proficientSkills then d.proficiencyBonus else 0);
    var rolled := RollD20(mod, advantage, disadvantage, skill, rng, at);
    (SkillCheckResult(rolled.result, dc, D20Success(rolled.result, dc), skill), rolled.next)
  }

  /** `saving_throw`: an unknown ability name scores 10; a non-number attribute raises. */
  function SavingThrow(d: CharacterData, ability: string, dc: int, advantage: bool, disadvantage: bool,
                       rng: Entropy, at: nat): (r: Result<(SavingThrowResult, nat), EngineError>)
    ensures r.Err? <==> GetAttr(d, ability).OtherAttr?
    ensures r.Ok? ==>
      var res := r.value.0;
      var score := if GetAttr(d, ability).IntAttr? then GetAttr(d, ability).value else 10;
      && res.rollResult.modifier
           == AbilityModifier(score) + (if ability in d.savingThrowProficiencies then d.proficiencyBonus else 0)
      && res.rollResult.reason == ability + " save" && res.ability == ability && res.dc == dc
      && (res.rollResult.natural20 ==> res.success)
      && (res.rollResult.natural1 ==> !res.success)
      && (!res.rollResult.natural20 && !res.rollResult.natural1 ==> (res.success <==> res.rollResult.total >= dc))
  {
    var attr := GetAttr(d, ability);
    if attr.OtherAttr? then Err(AttributeNotNumber(ability))
    else
      var score := if attr.IntAttr? then attr.value else 10;
      var mod := AbilityModifier(score) + (if ability in d.savingThrowProficiencies then d.proficiencyBonus else 0);
      var rolled := RollD20(mod, advantage, disadvantage, ability + " save", rng, at);
      Ok((SavingThrowResult(rolled.result, dc, D20Success(rolled.result, dc), ability), rolled.next))
  }

  // ---------------------------------------------------------------- death saves

  /** The effect of one death-save roll on the character, as `death_saving_throw` applies it. */
  function DeathSaveStep(d: CharacterData, roll: RollResult): (out: (DeathSaveResult, CharacterData))
    ensures out.0.rollResult == roll
    ensures out.1 == d.(currentHp := out.1.currentHp,
                        deathSaveSuccesses := out.1.deathSaveSuccesses,
                        deathSaveFailures := out.1.deathSaveFailures)
    ensures roll.natural20 ==> out.0.success && out.0.stabilized && !out.0.dead && out.1.currentHp == 1
    ensures !roll.natural20 ==> out.1.currentHp == d.currentHp && (out.0.success <==> roll.total >= 10)
    ensures !roll.natural20 ==>
      && (out.0.stabilized <==> d.deathSaveSuccesses + (if out.0.success then 1 else 0) >= 3)
      && (out.0.dead <==> d.deathSaveFailures + (if out.0.success then 0 else if roll.natural1 then 2 else 1) >= 3)
    ensures out.0.stabilized || out.0.dead || roll.natural20
            ==> out.1.deathSaveSuccesses == 0 && out.1.deathSaveFailures == 0
    ensures !roll.natural20 && !out.0.stabilized && !out.0.dead ==>
      && out.1.deathSaveSuccesses == d.deathSaveSuccesses + (if out.0.success then 1 else 0)
      && out.1.deathSaveFailures
           == d.deathSaveFailures + (if out.0.success then 0 else if roll.natural1 then 2 else 1)
  {
    if roll.natural20 then
      (DeathSaveResult(roll, true, true, false),
       d.(currentHp := 1, deathSaveSuccesses := 0, deathSaveFailures := 0))
    else
      var success := roll.total >= 10;
      var successes := if success then d.deathSaveSuccesses + 1 else d.deathSaveSuccesses;
      var failures :=
        if success then d.deathSaveFailures
        else d.deathSaveFailures + (if roll.natural1 then 2 else 1);
      var stabilized := successes >= 3;
      var dead := failures >= 3;
      var reset := stabilized || dead;
      (DeathSaveResult(roll, success, stabilized, dead),
       d.(deathSaveSuccesses := if reset then 0 else successes,
          deathSaveFailures := if reset then 0 else failures))
  }

  /** Counters that start in `[0, 2]` stay there, and no save both stabilises and kills. */
  lemma DeathSaveCountersBounded(d: CharacterData, roll: RollResult)
    requires 0 <= d.deathSaveSuccesses <= 2 && 0 <= d.deathSaveFailures <= 2
    ensures var (res, after) := DeathSaveStep(d, roll);
      && 0 <= after.deathSaveSuccesses <= 2 && 0 <= after.deathSaveFailures <= 2
      && !(res.stabilized && res.dead)
  {
  }

  /** A failing death save: no natural 20 and a total below 10. */
  predicate Fails(roll: RollResult) {
    !roll.natural20 && roll.total < 10
  }

  /** Three failing saves in a row, from counters in range, end in death at one of them. */
  lemma DeadWithinThreeFailures(d: CharacterData, r1: RollResult, r2: RollResult, r3: RollResult)
    requires 0 <= d.deathSaveSuccesses <= 2 && 0 <= d.deathSaveFailures <= 2
    requires Fails(r1) && Fails(r2) && Fails(r3)
    ensures var (o1, d1) := DeathSaveStep(d, r1);
      var (o2, d2) := DeathSaveStep(d1, r2);
      var (o3, d3) := DeathSaveStep(d2, r3);
      (o1.dead || o2.dead || o3.dead) && !o1.stabilized && !o2.stabilized && !o3.stabilized
  {
  }

  /** Three saves of at least 10 in a row, from counters in range, stabilise at one of them. */
  lemma StableWithinThreeSuccesses(d: CharacterData, r1: RollResult, r2: RollResult, r3: RollResult)
    requires 0 <= d.deathSaveSuccesses <= 2 && 0 <= d.deathSaveFailures <= 2
    requires r1.total >= 10 && r2.total >= 10 && r3.total >= 10
    ensures var (o1, d1) := DeathSaveStep(d, r1);
      var (o2, d2) := DeathSaveStep(d1, r2);
      var (o3, d3) := DeathSaveStep(d2, r3);
      (o1.stabilized || o2.stabilized || o3.stabilized) && !o1.dead && !o2.dead && !o3.dead
  {
  }

  /** `death_saving_throw`: rolls a plain d20 and updates HP and the two counters in place. */
  method DeathSavingThrow(c: Character, rng: Entropy, at: nat) returns (r: DeathSaveResult, next: nat)
    modifies c
    ensures var rolled := RollD20(0, false, false, "death save", rng, at);
      (r, c.Data()) == DeathSaveStep(old(c.Data()), rolled.result) && next == rolled.next
  {
    var rolled := RollD20(0, false, false, "death save", rng, at);
    var result := rolled.result;
    next := rolled.next;
    if result.natural20 {
      c.currentHp := 1;
      c.deathSaveSuccesses := 0;
      c.deathSaveFailures := 0;
      return DeathSaveResult(result, true, true, false), next;
    }
    var success := result.total >= 10;
    if success {
      c.deathSaveSuccesses := c.deathSaveSuccesses + 1;
    } else {
      c.deathSaveFailures := c.deathSaveFailures + 1;
      if result.natural1 {
        c.deathSaveFailures := c.deathSaveFailures + 1;
      }
    }
    var stabilized := c.deathSaveSuccesses >= 3;
    var dead := c.deathSaveFailures >= 3;
    if stabilized {
      c.deathSaveSuccesses := 0;
      c.deathSaveFailures := 0;
    }
    if dead {
      c.deathSaveSuccesses := 0;
      c.deathSaveFailures := 0;
    }
    r := DeathSaveResult(result, success, stabilized, dead);
  }

  // ---------------------------------------------------------------- damage and healing

  /** `apply_damage` on a snapshot: HP floored at 0 (never capped at the maximum), and the status. */
  function DamageStep(d: CharacterData, damage: int): (out: (string, CharacterData))
    ensures out.1 == d.(currentHp := out.1.currentHp)
    ensures out.1.currentHp >= 0
    ensures damage <= d.currentHp ==> out.1.currentHp == d.currentHp - damage
    ensures damage >= d.currentHp ==> out.1.currentHp == 0
    ensures out.0 == (if out.1.currentHp == 0 then "unconscious" else "alive")
  {
    var hp := Max(0, d.currentHp - damage);
    (if hp == 0 then "unconscious" else "alive", d.(currentHp := hp))
  }

  /** `apply_healing` on a snapshot: HP capped at the maximum; any positive HP clears both counters. */
  function HealStep(d: CharacterData, healing: int): (after: CharacterData)
    ensures after == d.(currentHp := after.currentHp,
                        deathSaveSuccesses := after.deathSaveSuccesses,
                        deathSaveFailures := after.deathSaveFailures)
    ensures after.currentHp <= d.maxHp
    ensures d.currentHp + healing <= d.maxHp ==> after.currentHp == d.currentHp + healing
    ensures d.currentHp + healing >= d.maxHp ==> after.currentHp == d.maxHp
    ensures after.currentHp > 0 ==> after.deathSaveSuccesses == 0 && after.deathSaveFailures == 0
    ensures after.currentHp <= 0 ==>
      after.deathSaveSuccesses == d.deathSaveSuccesses && after.deathSaveFailures == d.deathSaveFailures
  {
    var hp := Min(d.maxHp, d.currentHp + healing);
    if hp > 0 then d.(currentHp := hp, deathSaveSuccesses := 0, deathSaveFailures := 0)
    else d.(currentHp := hp)
  }

  /** Damage that does not exceed current HP, healed by the same amount, restores HP (at most the maximum). */
  lemma DamageThenHealRestores(d: CharacterData, amount: int)
    requires 0 <= amount <= d.currentHp <= d.maxHp
    ensures HealStep(DamageStep(d, amount).1, amount).currentHp == d.currentHp
  {
  }

  /** Damage cannot lift HP above its old value when non-negative, and healing never lowers it when HP was within the maximum. */
  lemma DamageAndHealingDirections(d: CharacterData, amount: int)
    requires amount >= 0 && d.currentHp <= d.maxHp
    ensures d.currentHp >= 0 ==> DamageStep(d, amount).1.currentHp <= d.currentHp
    ensures HealStep(d, amount).currentHp >= d.currentHp
  {
  }

  /** `apply_damage`. */
  method ApplyDamage(c: Character, damage: int) returns (status: string)
    modifies c
    ensures (status, c.Data()) == DamageStep(old(c.Data()), damage)
  {
    c.currentHp := Max(0, c.currentHp - damage);
    if c.currentHp == 0 {
      return "unconscious";
    }
    return "alive";
  }

  /** `apply_healing`. */
  method ApplyHealing(c: Character, healing: int)
    modifies c
    ensures c.Data() == HealStep(old(c.Data()), healing)
  {
    c.currentHp := Min(c.maxHp, c.currentHp + healing);
    if c.currentHp > 0 {
      c.deathSaveSuccesses := 0;
      c.deathSaveFailures := 0;
    }
  }

  // ---------------------------------------------------------------- experience

  /** `_level_up_hp` on a snapshot: both HP values rise by `max(1, hit die + CON modifier)`. */
  function LevelUpHpStep(d: CharacterData, rng: Entropy, at: nat): (out: (CharacterData, nat))
    ensures var gained := out.0.maxHp - d.maxHp;
      && out.0 == d.(maxHp := d.maxHp + gained, currentHp := d.currentHp + gained)
      && Max(1, 1 + AbilityModifier(d.constitution)) <= gained
      && gained <= Max(1, HitDieSides(d.charClass) + AbilityModifier(d.constitution))
      && out.1 == at + 1
  {
    var rolled := RollHitDie(d.charClass, AbilityModifier(d.constitution), rng, at);
    var gained := Max(1, rolled.result.total);
    (d.(maxHp := d.maxHp + gained, currentHp := d.currentHp + gained), rolled.next)
  }

  /** `threshold and char.xp >= threshold and char.level < 20`, with the XP already added. */
  predicate LevelsUp(d: CharacterData, xp: int) {
    var threshold := ThresholdFor(d.level + 1);
    threshold.Some? && threshold.value != 0 && d.xp + xp >= threshold.value && d.level < 20
  }

  /** `grant_xp` on a snapshot. */
  function GrantXpStep(d: CharacterData, xp: int, rng: Entropy, at: nat): (out: (bool, CharacterData, nat))
    ensures out.1 == d.(xp := out.1.xp, level := out.1.level, proficiencyBonus := out.1.proficiencyBonus,
                        maxHp := out.1.maxHp, currentHp := out.1.currentHp)
    ensures out.1.xp == d.xp + xp
    ensures out.0 <==> out.1.level == d.level + 1
    ensures out.1.level == d.level || out.1.level == d.level + 1
    ensures !out.0 ==> out.1 == d.(xp := d.xp + xp) && out.2 == at
    ensures out.0 ==>
      && out.1.proficiencyBonus == ProficiencyBonus(out.1.level)
      && 1 <= out.1.maxHp - d.maxHp == out.1.currentHp - d.currentHp
  {
    if LevelsUp(d, xp) then
      var raised := d.(xp := d.xp + xp, level := d.level + 1, proficiencyBonus := ProficiencyBonus(d.level + 1));
      var (after, next) := LevelUpHpStep(raised, rng, at);
      (true, after, next)
    else
      (false, d.(xp := d.xp + xp), at)
  }

  /**
   * Between levels 1 and 19 a grant levels up exactly when the new XP total
   * reaches the next threshold; level 20 never advances.
   */
  lemma LevelUpWhenThresholdReached(d: CharacterData, xp: int, rng: Entropy, at: nat)
    requires 1 <= d.level <= 20
    ensures var (leveled, after, _) := GrantXpStep(d, xp, rng, at);
      && (d.level < 20 ==> (leveled <==> d.xp + xp >= XpThresholds[d.level + 1]))
      && (d.level == 20 ==> !leveled)
      && after.level <= 20
  {
  }

  /** A level-0 row never advances: the threshold for level 1 is 0, which counts as false. */
  lemma LevelZeroNeverAdvances(d: CharacterData, xp: int, rng: Entropy, at: nat)
    requires d.level == 0
    ensures !GrantXpStep(d, xp, rng, at).0
  {
  }

  /** `_level_up_hp`. */
  method LevelUpHp(c: Character, rng: Entropy, at: nat) returns (next: nat)
    modifies c
    ensures (c.Data(), next) == LevelUpHpStep(old(c.Data()), rng, at)
  {
    var hpRoll := RollHitDie(c.charClass, c.ConMod(), rng, at);
    var gained := Max(1, hpRoll.result.total);
    c.maxHp := c.maxHp + gained;
    c.currentHp := c.currentHp + gained;
    next := hpRoll.next;
  }

  /** `grant_xp`: returns whether the character levelled up. */
  method GrantXp(c: Character, xp: int, rng: Entropy, at: nat) returns (leveled: bool, next: nat)
    modifies c
    ensures (leveled, c.Data(), next) == GrantXpStep(old(c.Data()), xp, rng, at)
  {
    ghost var d := c.Data();
    c.xp := c.xp + xp;
    var nextLevel := c.level + 1;
    var threshold := ThresholdFor(nextLevel);
    if threshold.Some? && threshold.value != 0 && c.xp >= threshold.value && c.level < 20 {
      assert LevelsUp(d, xp);
      c.level := nextLevel;
      c.proficiencyBonus := ProficiencyBonus(nextLevel);
      assert c.Data() == d.(xp := d.xp + xp, level := d.level + 1, proficiencyBonus := ProficiencyBonus(d.level + 1));
      next := LevelUpHp(c, rng, at);
      return true, next;
    }
    assert !LevelsUp(d, xp);
    return false, at;
  }

  /** `calculate_starting_hp`: the largest face of the class's hit die plus the CON modifier. */
  function CalculateStartingHp(charClass: string, conModifier: int): (hp: int)
    ensures hp == HitDieSides(charClass) + conModifier
    ensures hp - conModifier in {6, 8, 10, 12}
  {
    HitDieParsed(charClass);
    PyInt(SliceFrom(HitDieOf(charClass), 1)).value + conModifier
  }

  /** A level-up never gains more HP than a new character of that class starts with (or 1). */
  lemma LevelUpGainAtMostStartingHp(d: CharacterData, rng: Entropy, at: nat)
    ensures LevelUpHpStep(d, rng, at).0.maxHp - d.maxHp
            <= Max(1, CalculateStartingHp(d.charClass, AbilityModifier(d.constitution)))
  {
  }

  // ---------------------------------------------------------------- displays

  const DiceEmoji := "\U{1F3B2} "
  const SuccessTag := "\U{2705} Success!"
  const FailureTag := "\U{274C} Failure!"

  /** The lines `AttackResult.display` joins with newlines. */
  function AttackLines(a: AttackResult): (lines: seq<string>)
    ensures |lines| == (if a.damageRoll.Some? then 3 else 2)
    ensures lines[0] == DiceEmoji + Display(a.attackRoll)
  {
    var verdict :=
      if a.critical then "\U{1F4A5} CRITICAL HIT!"
      else if a.hit then "\U{2705} Hit!"
      else "\U{274C} Miss!";
    [DiceEmoji + Display(a.attackRoll), verdict]
    + (if a.damageRoll.Some? then ["\U{2694}\U{FE0F} Damage: " + Display(a.damageRoll.value)] else [])
  }

  function AttackDisplay(a: AttackResult): string {
    Join("\n", AttackLines(a))
  }

  /** `SkillCheckResult.display`: ends with the success or failure tag on its own line. */
  function SkillCheckDisplay(r: SkillCheckResult): (s: string)
    ensures EndsWith(s, "\n" + (if r.success then SuccessTag else FailureTag))
  {
    var head := DiceEmoji + r.skillName + " check (DC " + IntToString(r.dc) + "): " + Display(r.rollResult);
    var tail := "\n" + (if r.success then SuccessTag else FailureTag);
    ConcatEnds(head, tail);
    head + tail
  }

  /** `SavingThrowResult.display`: ends with the success or failure tag on its own line. */
  function SavingThrowDisplay(r: SavingThrowResult): (s: string)
    ensures EndsWith(s, "\n" + (if r.success then SuccessTag else FailureTag))
  {
    var head := DiceEmoji + r.ability + " save (DC " + IntToString(r.dc) + "): " + Display(r.rollResult);
    var tail := "\n" + (if r.success then SuccessTag else FailureTag);
    ConcatEnds(head, tail);
    head + tail
  }

  /** `DeathSaveResult.display`: stabilised wins over dead, and either replaces the tick or cross. */
  function DeathSaveDisplay(r: DeathSaveResult): (s: string)
    ensures StartsWith(s, DiceEmoji + "Death save: " + Display(r.rollResult))
    ensures r.stabilized ==> EndsWith(s, "\n\U{1F49A} Stabilized!")
    ensures !r.stabilized && r.dead ==> EndsWith(s, "\n\U{1F480} Dead...")
  {
    var head := DiceEmoji + "Death save: " + Display(r.rollResult);
    var tail :=
      if r.stabilized then "\n\U{1F49A} Stabilized!"
      else if r.dead then "\n\U{1F480} Dead..."
      else " " + (if r.success then "\U{2705}" else "\U{274C}");
    ConcatEnds(head, tail);
    head + tail
  }
}
