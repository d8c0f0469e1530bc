/**
 * The player character: one row of the `characters` table. The list-valued
 * columns are stored as JSON text in the database; here each is held as the
 * list it decodes to.
 */
module Characters {
  import opened Wrappers
  import opened Text
  import opened JsonValues

  /** A value snapshot of every column the rules read or write. */
  datatype CharacterData = CharacterData(
    id: int,
    userId: int,
    name: string,
    race: string,
    charClass: string,
    level: int,
    xp: int,
    strength: int,
    dexterity: int,
    constitution: int,
    intelligence: int,
    wisdom: int,
    charisma: int,
    maxHp: int,
    currentHp: int,
    armorClass: int,
    initiativeBonus: int,
    speed: int,
    proficiencyBonus: int,
    proficientSkills: seq<string>,
    savingThrowProficiencies: seq<string>,
    gold: int,
    inventory: seq<Json>,
    backstory: string,
    conditions: seq<string>,
    deathSaveSuccesses: int,
    deathSaveFailures: int,
    spellSlots: Json)

  /**
   * The column defaults of a freshly inserted character. The row id and the
   * owner's id have no default: the database and the caller supply them.
   */
  function DefaultData(id: int, userId: int): (d: CharacterData)
    ensures d.id == id && d.userId == userId
    ensures d.name == "Unnamed" && d.race == "Human" && d.charClass == "Fighter" && d.backstory == ""
    ensures d.level == 1 && d.xp == 0
    ensures d.strength == d.dexterity == d.constitution == 10
    ensures d.intelligence == d.wisdom == d.charisma == 10
    ensures d.maxHp == 10 && d.currentHp == 10 && d.armorClass == 10
    ensures d.proficiencyBonus == 2 && d.speed == 30 && d.gold == 0
    ensures d.deathSaveSuccesses == 0 && d.deathSaveFailures == 0
    ensures d.inventory == [] && d.conditions == [] && d.proficientSkills == []
    ensures d.savingThrowProficiencies == [] && d.spellSlots == JObj([]) && d.initiativeBonus == 0
  {
    CharacterData(id, userId, "Unnamed", "Human", "Fighter", 1, 0, 10, 10, 10, 10, 10, 10,
                  10, 10, 10, 0, 30, 2, [], [], 0, [], "", [], 0, 0, JObj([]))
  }

  /** `ability_modifier(score) == (score - 10) // 2`, Python's floor division. */
  function AbilityModifier(score: int): (m: int)
    ensures 2 * m <= score - 10 < 2 * m + 2
  {
    (score - 10) / 2
  }

  /** The modifier never falls when the score rises. */
  lemma AbilityModifierMonotone(a: int, b: int)
    requires a <= b
    ensures AbilityModifier(a) <= AbilityModifier(b)
  {
  }

  /** The values the source's tests pin down: 10 gives 0, 9 gives -1, 7 gives -2, 20 gives +5. */
  lemma AbilityModifierSamples()
    ensures AbilityModifier(10) == 0 && AbilityModifier(9) == -1
    ensures AbilityModifier(7) == -2 && AbilityModifier(20) == 5
  {
  }

  /** What `getattr(char, name)` yields, as far as the rules can use it. */
  datatype Attr =
    | IntAttr(value: int)   // an integer column or an integer property
    | OtherAttr             // an attribute that is not an integer (text, list, method)
    | NoAttr                // AttributeError

  /** The integer-valued attributes: the integer columns and the six `*_mod` properties. */
  function IntAttrs(d: CharacterData): map<string, int> {
    map[
      "id" := d.id, "user_id" := d.userId, "level" := d.level, "xp" := d.xp,
      "strength" := d.strength, "dexterity" := d.dexterity,
      "constitution" := d.constitution, "intelligence" := d.intelligence,
      "wisdom" := d.wisdom, "charisma" := d.charisma,
      "max_hp" := d.maxHp, "current_hp" := d.currentHp,
      "armor_class" := d.armorClass, "initiative_bonus" := d.initiativeBonus,
      "speed" := d.speed, "proficiency_bonus" := d.proficiencyBonus, "gold" := d.gold,
      "death_save_successes" := d.deathSaveSuccesses,
      "death_save_failures" := d.deathSaveFailures,
      "str_mod" := AbilityModifier(d.strength), "dex_mod" := AbilityModifier(d.dexterity),
      "con_mod" := AbilityModifier(d.constitution), "int_mod" := AbilityModifier(d.intelligence),
      "wis_mod" := AbilityModifier(d.wisdom), "cha_mod" := AbilityModifier(d.charisma)
    ]
  }

  /**
   * The other attributes of a character that the class and its mapped base
   * declare: text and list columns (the JSON-text ones under their private
   * names too), properties, methods and the table mapping.
   */
  const OtherAttrNames: set<string> := {
    "name", "race", "char_class", "backstory", "inventory", "proficient_skills",
    "saving_throw_proficiencies", "conditions", "spell_slots", "spell_slots_json",
    "created_at", "user", "ability_modifier", "to_sheet_dict",
    "_inventory", "_proficient_skills", "_saving_throw_proficiencies", "_conditions",
    "__tablename__", "__table__", "__mapper__", "metadata", "registry"
  }

  /**
   * `getattr(char, name)`. The two name tables are disjoint, so checking the
   * non-integer names first changes nothing.
   */
  function GetAttr(d: CharacterData, name: string): (a: Attr)
    ensures name in {"id", "user_id", "strength", "dexterity", "constitution", "intelligence", "wisdom", "charisma"}
            ==> a.IntAttr?
    ensures a.OtherAttr? <==> name in OtherAttrNames
    ensures a.IntAttr? <==> name in IntAttrs(d) && name !in OtherAttrNames
    ensures a.IntAttr? ==> a.value == IntAttrs(d)[name]
    ensures a.NoAttr? <==> name !in IntAttrs(d) && name !in OtherAttrNames
  {
    if name in OtherAttrNames then OtherAttr
    else if name in IntAttrs(d) then IntAttr(IntAttrs(d)[name])
    else NoAttr
  }

  /** Reading an ability by its column name gives that ability's score. */
  lemma GetAbilityScores(d: CharacterData)
    ensures GetAttr(d, "strength") == IntAttr(d.strength)
    ensures GetAttr(d, "dexterity") == IntAttr(d.dexterity)
    ensures GetAttr(d, "constitution") == IntAttr(d.constitution)
    ensures GetAttr(d, "intelligence") == IntAttr(d.intelligence)
    ensures GetAttr(d, "wisdom") == IntAttr(d.wisdom)
    ensures GetAttr(d, "charisma") == IntAttr(d.charisma)
  {
  }

  /** The row and owner ids read as numbers; a private JSON-text column reads as text, not as missing. */
  lemma GetAttrIdsAndPrivateColumns(d: CharacterData)
    ensures GetAttr(d, "id") == IntAttr(d.id) && GetAttr(d, "user_id") == IntAttr(d.userId)
    ensures GetAttr(d, "_inventory") == OtherAttr && GetAttr(d, "__tablename__") == OtherAttr
  {
  }

  /** `f"{score} ({mod:+d})"`, one line of the stats block. */
  function StatText(score: int): (s: string)
    ensures StartsWith(s, IntToString(score) + " (")
    ensures EndsWith(s, SignedString(AbilityModifier(score)) + ")")
  {
    var head := IntToString(score) + " (";
    var tail := SignedString(AbilityModifier(score)) + ")";
    ConcatEnds(head, tail);
    head + tail
  }

  /** A stats line shows the score, then its signed modifier in parentheses. */
  predicate StatShows(line: string, score: int) {
    && StartsWith(line, IntToString(score) + " (")
    && EndsWith(line, SignedString(AbilityModifier(score)) + ")")
  }

  /** `f"{current}/{max}"`. */
  function HpText(current: int, max: int): string {
    IntToString(current) + "/" + IntToString(max)
  }

  /** The HP text splits on `/` back into the two numbers it was written from. */
  lemma HpTextRoundTrip(current: int, max: int)
    ensures var parts := Split(HpText(current, max), '/');
      |parts| == 2 && PyInt(parts[0]) == Some(current) && PyInt(parts[1]) == Some(max)
  {
    var a, b := IntToString(current), IntToString(max);
    var s := HpText(current, max);
    NoSlashInNumber(current);
    NoSlashInNumber(max);
    assert IndexOf(s, '/') == |a| by {
      assert s[|a|] == '/';
      forall k | 0 <= k < |a| ensures s[k] != '/' { assert s[k] == a[k]; }
    }
    assert s[..|a|] == a && s[|a| + 1..] == b;
    SplitOnce(s, '/');
    assert Split(s, '/') == [a, b];
    PyIntRoundTrip(current);
    PyIntRoundTrip(max);
  }

  lemma NoSlashInNumber(i: int)
    ensures IndexOf(IntToString(i), '/') == |IntToString(i)|
  {
    var s := IntToString(i);
    var digits := NatToDigits(if i < 0 then -i else i);
    forall k | 0 <= k < |s| ensures s[k] != '/' {
      if i < 0 && k > 0 { assert s[k] == digits[k - 1]; }
      else if i >= 0 { assert IsDigit(digits[k]); }
    }
  }

  /** The six lines of the stats block of the sheet. */
  datatype Stats = Stats(str: string, dex: string, con: string, intl: string, wis: string, cha: string)

  /** The dict `to_sheet_dict` returns, one field per key in the same order. */
  datatype Sheet = Sheet(
    name: string,
    race: string,
    charClass: string,
    level: int,
    xp: int,
    hp: string,
    ac: int,
    initiative: int,
    speed: int,
    proficiencyBonus: int,
    stats: Stats,
    proficientSkills: seq<string>,
    savingThrows: seq<string>,
    gold: int,
    inventory: seq<Json>,
    conditions: seq<string>,
    backstory: string)

  /** `to_sheet_dict`: the character sheet shown to the player and the language model. */
  function ToSheetDict(d: CharacterData): (sheet: Sheet)
    ensures var parts := Split(sheet.hp, '/');
      |parts| == 2 && PyInt(parts[0]) == Some(d.currentHp) && PyInt(parts[1]) == Some(d.maxHp)
    ensures StatShows(sheet.stats.str, d.strength) && StatShows(sheet.stats.dex, d.dexterity)
    ensures StatShows(sheet.stats.con, d.constitution) && StatShows(sheet.stats.intl, d.intelligence)
    ensures StatShows(sheet.stats.wis, d.wisdom) && StatShows(sheet.stats.cha, d.charisma)
    ensures sheet.name == d.name && sheet.race == d.race && sheet.charClass == d.charClass
    ensures sheet.level == d.level && sheet.xp == d.xp && sheet.ac == d.armorClass
    ensures sheet.initiative == d.initiativeBonus && sheet.speed == d.speed
    ensures sheet.proficiencyBonus == d.proficiencyBonus && sheet.gold == d.gold
    ensures sheet.proficientSkills == d.proficientSkills && sheet.savingThrows == d.savingThrowProficiencies
    ensures sheet.inventory == d.inventory && sheet.conditions == d.conditions && sheet.backstory == d.backstory
  {
    HpTextRoundTrip(d.currentHp, d.maxHp);
    var stats := Stats(StatText(d.strength), StatText(d.dexterity), StatText(d.constitution),
                       StatText(d.intelligence), StatText(d.wisdom), StatText(d.charisma));
    Sheet(d.name, d.race, d.charClass, d.level, d.xp, HpText(d.currentHp, d.maxHp),
          d.armorClass, d.initiativeBonus, d.speed, d.proficiencyBonus, stats,
          d.proficientSkills, d.savingThrowProficiencies, d.gold, d.inventory,
          d.conditions, d.backstory)
  }

  /** A character row, updated in place by the rules engine and the turn handler. */
  class Character {
    var id: int
    var userId: int
    var name: string
    var race: string
    var charClass: string
    var level: int
    var xp: int
    var strength: int
    var dexterity: int
    var constitution: int
    var intelligence: int
    var wisdom: int
    var charisma: int
    var maxHp: int
    var currentHp: int
    var armorClass: int
    var initiativeBonus: int
    var speed: int
    var proficiencyBonus: int
    var proficientSkills: seq<string>
    var savingThrowProficiencies: seq<string>
    var gold: int
    var inventory: seq<Json>
    var backstory: string
    var conditions: seq<string>
    var deathSaveSuccesses: int
    var deathSaveFailures: int
    var spellSlots: Json

    /** The current column values. */
    function Data(): CharacterData
      reads this
    {
      CharacterData(id, userId, name, race, charClass, level, xp,
                    strength, dexterity, constitution, intelligence, wisdom, charisma,
                    maxHp, currentHp, armorClass, initiativeBonus, speed, proficiencyBonus,
                    proficientSkills, savingThrowProficiencies, gold, inventory, backstory,
                    conditions, deathSaveSuccesses, deathSaveFailures, spellSlots)
    }

    /** A new row for the given row id and owner: every other column at its default. */
    constructor (id: int, userId: int)
      ensures Data() == DefaultData(id, userId)
    {
      this.id, this.userId := id, userId;
      name, race, charClass := "Unnamed", "Human", "Fighter";
      level, xp := 1, 0;
      strength, dexterity, constitution := 10, 10, 10;
      intelligence, wisdom, charisma := 10, 10, 10;
      maxHp, currentHp, armorClass := 10, 10, 10;
      initiativeBonus, speed, proficiencyBonus := 0, 30, 2;
      proficientSkills, savingThrowProficiencies := [], [];
      gold, inventory, backstory, conditions := 0, [], "", [];
      deathSaveSuccesses, deathSaveFailures := 0, 0;
      spellSlots := JObj([]);
    }

    function StrMod(): (m: int)
      reads this
      ensures 2 * m <= strength - 10 < 2 * m + 2
    {
      AbilityModifier(strength)
    }

    function DexMod(): (m: int)
      reads this
      ensures 2 * m <= dexterity - 10 < 2 * m + 2
    {
      AbilityModifier(dexterity)
    }

    function ConMod(): (m: int)
      reads this
      ensures 2 * m <= constitution - 10 < 2 * m + 2
    {
      AbilityModifier(constitution)
    }

    function IntMod(): (m: int)
      reads this
      ensures 2 * m <= intelligence - 10 < 2 * m + 2
    {
      AbilityModifier(intelligence)
    }

    function WisMod(): (m: int)
      reads this
      ensures 2 * m <= wisdom - 10 < 2 * m + 2
    {
      AbilityModifier(wisdom)
    }

    function ChaMod(): (m: int)
      reads this
      ensures 2 * m <= charisma - 10 < 2 * m + 2
    {
      AbilityModifier(charisma)
    }

    /** The `inventory` setter: the getter returns exactly the list stored. */
    method SetInventory(items: seq<Json>)
      modifies this
      ensures Data() == old(Data()).(inventory := items)
    {
      inventory := items;
    }

    method SetProficientSkills(skills: seq<string>)
      modifies this
      ensures Data() == old(Data()).(proficientSkills := skills)
    {
      proficientSkills := skills;
    }

    method SetSavingThrowProficiencies(abilities: seq<string>)
      modifies this
      ensures Data() == old(Data()).(savingThrowProficiencies := abilities)
    {
      savingThrowProficiencies := abilities;
    }

    method SetConditions(items: seq<string>)
      modifies this
      ensures Data() == old(Data()).(conditions := items)
    {
      conditions := items;
    }

    method SetSpellSlots(slots: Json)
      modifies this
      ensures Data() == old(Data()).(spellSlots := slots)
    {
      spellSlots := slots;
    }
  }
}
