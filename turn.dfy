/**
 * The mechanics block of a player turn: one `MechanicsDecision` applied to
 * the character and the session in a fixed order. Skill checks come first,
 * then saving throws, the player's attack, NPC damage, HP stat changes,
 * inventory changes, gold and XP, and finally location, quest and combat
 * flags. Every step appends its lines to the mechanics text.
 *
 * The block has no exception handling, so an exception in any step ends
 * the turn. Here that is an `Err`. The inventory merge and the ammunition
 * top-up are engine functions whose code is not part of this model, so
 * they are passed in.
 */
module TurnMechanics {
  import opened Wrappers
  import opened Text
  import opened JsonValues
  import opened Dice
  import opened Characters
  import opened GameEngine
  import opened GeminiService
  import opened Sessions

  type MergeInventory = (seq<Json>, seq<Json>) -> seq<Json>
  type EnsureAmmo = seq<Json> -> seq<Json>

  // The three line markers below are spelled as the handler's source file
  // spells them. That file stores an arrow, a backpack and sparkles
  // mis-decoded, as the characters below.
  const NpcArrow := " \U{201A}\U{00DC}\U{00ED} "
  const BackpackMark := "\U{F8FF}\U{00FC}\U{00E9}\U{00ED} "
  const SparklesMark := "\U{201A}\U{00FA}\U{00AE} +"

  /** The line for an NPC's damage roll: who, the roll, and the status after the damage. */
  function NpcLine(name: string, dmg: RollResult, status: string): string {
    name + ": " + Display(dmg) + NpcArrow + status
  }

  /** The line for one inventory change: `-` for a removal, `+` for anything else. */
  function ItemLine(ic: ItemChange): (s: string)
    ensures StartsWith(s, BackpackMark + (if ic.action == "remove" then "-" else "+"))
    ensures EndsWith(s, ic.name)
  {
    ConcatEnds(BackpackMark + (if ic.action != "remove" then "+" else "-"), ic.name);
    BackpackMark + (if ic.action != "remove" then "+" else "-") + ic.name
  }

  function XpLine(xp: int): string {
    SparklesMark + IntToString(xp) + " XP"
  }

  /** The dict handed to the inventory merge for one change. */
  function ChangeRecord(ic: ItemChange): Json {
    JObj([("name", JStr(ic.name)), ("quantity", JInt(ic.quantity)),
          ("action", JStr(ic.action)), ("description", JStr(ic.description))])
  }

  // ---------------------------------------------------------------- the steps, on values

  /** Every skill check in order, one line each; the character is only read. */
  function CheckStage(d: CharacterData, checks: seq<SkillCheckRequest>, rng: Entropy, at: nat)
    : (r: (seq<string>, nat))
    ensures |r.0| == |checks|
    ensures forall k :: 0 <= k < |r.0| ==>
      EndsWith(r.0[k], "\n" + SuccessTag) || EndsWith(r.0[k], "\n" + FailureTag)
    decreases |checks|
  {
    if |checks| == 0 then ([], at)
    else
      var (lines, next) := CheckStage(d, checks[..|checks| - 1], rng, at);
      var sc := checks[|checks| - 1];
      var (res, after) := SkillCheck(d, sc.skill, sc.dc, sc.advantage, sc.disadvantage, rng, next);
      (lines + [SkillCheckDisplay(res)], after)
  }

  /** A name for which `getattr(char, name)` is a number or missing, never a text, list or method attribute. */
  predicate NumericAbility(ability: string) {
    ability !in OtherAttrNames
  }

  /** Every saving throw in order, one line each; a non-number ability attribute raises. */
  function SaveStage(d: CharacterData, saves: seq<SavingThrowRequest>, rng: Entropy, at: nat)
    : (r: Result<(seq<string>, nat), EngineError>)
    ensures r.Ok? ==> |r.value.0| == |saves|
    decreases |saves|
  {
    if |saves| == 0 then Ok(([], at))
    else
      var st := saves[|saves| - 1];
      match SaveStage(d, saves[..|saves| - 1], rng, at)
      case Err(e) => Err(e)
      case Ok((lines, next)) =>
        match SavingThrow(d, st.ability, st.dc, st.advantage, st.disadvantage, rng, next)
        case Err(e) => Err(e)
        case Ok((res, after)) => Ok((lines + [SavingThrowDisplay(res)], after))
  }

  /** The saving throws fail exactly when one of them names an ability whose attribute is not a number. */
  lemma {:induction false} SaveStageFails(d: CharacterData, saves: seq<SavingThrowRequest>, rng: Entropy, at: nat)
    ensures SaveStage(d, saves, rng, at).Ok? <==> AllNumeric(saves)
    decreases |saves|
  {
    if |saves| > 0 {
      var init := saves[..|saves| - 1];
      SaveStageFails(d, init, rng, at);
      SaveStageStep(d, saves, rng, at);
      AllNumericSplit(saves);
    }
  }

  /** Every saving throw in the list names an ability whose attribute is a number. */
  predicate AllNumeric(saves: seq<SavingThrowRequest>) {
    forall k :: 0 <= k < |saves| ==> NumericAbility(saves[k].ability)
  }

  /** Every ability in a list is numeric iff every one before the last is and the last is. */
  lemma AllNumericSplit(saves: seq<SavingThrowRequest>)
    requires |saves| > 0
    ensures AllNumeric(saves) <==> AllNumeric(saves[..|saves| - 1]) && NumericAbility(saves[|saves| - 1].ability)
  {
    var init := saves[..|saves| - 1];
    assert forall k :: 0 <= k < |init| ==> init[k] == saves[k];
  }

  /** One more saving throw succeeds exactly when the earlier ones did and its ability is numeric. */
  lemma SaveStageStep(d: CharacterData, saves: seq<SavingThrowRequest>, rng: Entropy, at: nat)
    requires |saves| > 0
    ensures SaveStage(d, saves, rng, at).Ok?
            <==> SaveStage(d, saves[..|saves| - 1], rng, at).Ok? && NumericAbility(saves[|saves| - 1].ability)
  {
    var st := saves[|saves| - 1];
    var prior := SaveStage(d, saves[..|saves| - 1], rng, at);
    if prior.Ok? {
      var thrown := SavingThrow(d, st.ability, st.dc, st.advantage, st.disadvantage, rng, prior.value.1);
      assert thrown.Ok? <==> NumericAbility(st.ability);
    }
  }

  /** The player's attack: only for a positive target AC, with `1d8` when no damage dice are given. */
  function AttackStage(d: CharacterData, m: MechanicsDecision, rng: Entropy, at: nat)
    : (r: Result<(seq<string>, nat), EngineError>)
    ensures m.attackTargetAc <= 0 ==> r == Ok(([], at))
    ensures m.attackTargetAc > 0 && r.Ok? ==> |r.value.0| == 1
    ensures m.attackTargetAc > 0 && GetAttr(d, m.attackAbility).NoAttr?
            ==> r == Err(AttributeMissing(m.attackAbility))
  {
    if m.attackTargetAc > 0 then
      var dice := if m.attackDamageDice != "" then m.attackDamageDice else "1d8";
      match MakeAttack(d, m.attackTargetAc, dice, m.attackAbility, true, false, false, rng, at)
      case Err(e) => Err(e)
      case Ok((a, next)) => Ok(([AttackDisplay(a)], next))
    else Ok(([], at))
  }

  /** An empty damage text in the decision means `1d8`. */
  lemma AttackDefaultsToD8(d: CharacterData, m: MechanicsDecision, rng: Entropy, at: nat)
    requires m.attackDamageDice == ""
    ensures AttackStage(d, m, rng, at) == AttackStage(d, m.(attackDamageDice := "1d8"), rng, at)
  {
  }

  /** How many NPC actions carry damage dice. */
  function Damaging(npcs: seq<NpcAction>): (n: nat)
    ensures n <= |npcs|
    decreases |npcs|
  {
    if |npcs| == 0 then 0
    else Damaging(npcs[..|npcs| - 1]) + (if npcs[|npcs| - 1].damageDice != "" then 1 else 0)
  }

  /**
   * NPC damage in order: an action without damage dice is skipped; the others
   * roll their dice and apply the total as damage. Only current HP changes.
   */
  function NpcStage(d: CharacterData, npcs: seq<NpcAction>, rng: Entropy, at: nat)
    : (r: Result<(CharacterData, seq<string>, nat), EngineError>)
    ensures r.Ok? ==> var (after, lines, _) := r.value;
      && after == d.(currentHp := after.currentHp)
      && |lines| == Damaging(npcs)
    ensures Damaging(npcs) == 0 ==> r == Ok((d, [], at))
    ensures r.Err? ==> r.error == DiceFailed(ZeroSidedDie)
    decreases |npcs|
  {
    if |npcs| == 0 then Ok((d, [], at))
    else
      var npc := npcs[|npcs| - 1];
      match NpcStage(d, npcs[..|npcs| - 1], rng, at)
      case Err(e) => Err(e)
      case Ok((mid, lines, next)) =>
        if npc.damageDice == "" then Ok((mid, lines, next))
        else
          match Roll(npc.damageDice, 0, false, false, npc.name, rng, next)
          case Err(e) => Err(DiceFailed(e))
          case Ok(dmg) =>
            var (status, after) := DamageStep(mid, dmg.result.total);
            Ok((after, lines + [NpcLine(npc.name, dmg.result, status)], dmg.next))
  }

  /**
   * One more NPC action with damage dice: its dice are rolled with no modifier
   * and its name as the reason, the total is applied as damage, and its line
   * names it, shows the roll and ends with the status `apply_damage` returned.
   */
  lemma NpcStageStep(d: CharacterData, npcs: seq<NpcAction>, rng: Entropy, at: nat)
    requires |npcs| > 0 && npcs[|npcs| - 1].damageDice != ""
    requires NpcStage(d, npcs[..|npcs| - 1], rng, at).Ok?
    ensures
      var (mid, lines, next) := NpcStage(d, npcs[..|npcs| - 1], rng, at).value;
      var npc := npcs[|npcs| - 1];
      var rolled := Roll(npc.damageDice, 0, false, false, npc.name, rng, next);
      && (rolled.Err? ==> NpcStage(d, npcs, rng, at) == Err(DiceFailed(rolled.error)))
      && (rolled.Ok? ==>
            var hit := DamageStep(mid, rolled.value.result.total);
            && rolled.value.result.total >= 0
            && NpcStage(d, npcs, rng, at)
               == Ok((hit.1, lines + [NpcLine(npc.name, rolled.value.result, hit.0)], rolled.value.next))
            && hit.1.currentHp == (if rolled.value.result.total < mid.currentHp
                                   then mid.currentHp - rolled.value.result.total else 0))
  {
    var (mid, lines, next) := NpcStage(d, npcs[..|npcs| - 1], rng, at).value;
    var npc := npcs[|npcs| - 1];
    var rolled := Roll(npc.damageDice, 0, false, false, npc.name, rng, next);
    if rolled.Ok? {
      PlainRollSumsFaces(npc.damageDice, 0, false, false, npc.name, rng, next);
    }
  }

  /** NPC actions never raise current HP: it ends at most at the old HP, or at 0 if that was lower. */
  lemma {:induction false} NpcDamageNeverHeals(d: CharacterData, npcs: seq<NpcAction>, rng: Entropy, at: nat)
    ensures NpcStage(d, npcs, rng, at).Ok? ==>
      NpcStage(d, npcs, rng, at).value.0.currentHp <= (if d.currentHp > 0 then d.currentHp else 0)
    decreases |npcs|
  {
    if |npcs| > 0 && NpcStage(d, npcs, rng, at).Ok? {
      var init := npcs[..|npcs| - 1];
      NpcDamageNeverHeals(d, init, rng, at);
      if npcs[|npcs| - 1].damageDice != "" {
        NpcStageStep(d, npcs, rng, at);
      }
    }
  }

  /** The effect of one stat change: only `current_hp` with a nonzero delta does anything. */
  function StatChangeStep(d: CharacterData, sc: StatChange): (after: CharacterData)
    ensures after == d.(currentHp := after.currentHp,
                        deathSaveSuccesses := after.deathSaveSuccesses,
                        deathSaveFailures := after.deathSaveFailures)
    ensures sc.stat != "current_hp" || sc.delta == 0 ==> after == d
    ensures sc.stat == "current_hp" && sc.delta < 0 ==> after == DamageStep(d, -sc.delta).1
    ensures sc.stat == "current_hp" && sc.delta > 0 ==> after == HealStep(d, sc.delta)
  {
    if sc.stat == "current_hp" && sc.delta < 0 then DamageStep(d, -sc.delta).1
    else if sc.stat == "current_hp" && sc.delta > 0 then HealStep(d, sc.delta)
    else d
  }

  /** Every stat change in order; they touch HP and, through healing, the death-save counters. */
  function StatStage(d: CharacterData, changes: seq<StatChange>): (after: CharacterData)
    ensures after == d.(currentHp := after.currentHp,
                        deathSaveSuccesses := after.deathSaveSuccesses,
                        deathSaveFailures := after.deathSaveFailures)
    ensures (forall k :: 0 <= k < |changes| ==> changes[k].stat != "current_hp" || changes[k].delta == 0)
            ==> after == d
    decreases |changes|
  {
    if |changes| == 0 then d
    else
      var init := changes[..|changes| - 1];
      assert forall k :: 0 <= k < |init| ==> init[k] == changes[k];
      StatChangeStep(StatStage(d, init), changes[|changes| - 1])
  }

  /** The inventory changes: one line each, then the merge and the ammunition top-up. */
  function InventoryStage(d: CharacterData, changes: seq<ItemChange>,
                          merge: MergeInventory, ensureAmmo: EnsureAmmo): (r: (CharacterData, seq<string>))
    ensures |changes| == 0 ==> r == (d, [])
    ensures |changes| > 0 ==> r.0 == d.(inventory := r.0.inventory)
    ensures |r.1| == |changes|
    ensures forall k :: 0 <= k < |changes| ==> r.1[k] == ItemLine(changes[k])
    ensures forall k :: 0 <= k < |changes| ==>
      StartsWith(r.1[k], BackpackMark + (if changes[k].action == "remove" then "-" else "+"))
  {
    if |changes| == 0 then (d, [])
    else
      var records := seq(|changes|, k requires 0 <= k < |changes| => ChangeRecord(changes[k]));
      (d.(inventory := ensureAmmo(merge(d.inventory, records))),
       seq(|changes|, k requires 0 <= k < |changes| => ItemLine(changes[k])))
  }

  /** A nonzero gold change floors the new amount at 0; a zero change leaves gold alone. */
  function GoldStage(d: CharacterData, change: int): (after: CharacterData)
    ensures after == d.(gold := after.gold)
    ensures change == 0 ==> after == d
    ensures change != 0 ==> after.gold >= 0 && (d.gold + change >= 0 ==> after.gold == d.gold + change)
    ensures change != 0 && d.gold + change < 0 ==> after.gold == 0
  {
    if change != 0 then d.(gold := Max(0, d.gold + change)) else d
  }

  /** XP is granted, and a line written, only for a positive amount. */
  function XpStage(d: CharacterData, xp: int, rng: Entropy, at: nat): (r: (bool, CharacterData, nat, seq<string>))
    ensures xp <= 0 ==> r == (false, d, at, [])
    ensures xp > 0 ==> r.1.xp == d.xp + xp && |r.3| == 1
    ensures r.1.gold == d.gold && r.1.inventory == d.inventory
  {
    if xp > 0 then
      var (leveled, after, next) := GrantXpStep(d, xp, rng, at);
      (leveled, after, next, [XpLine(xp)])
    else (false, d, at, [])
  }

  /** Location and quest take non-empty values; combat end is applied after combat start. */
  function SessionStage(s: SessionData, m: MechanicsDecision): (after: SessionData)
    ensures after == s.(currentLocation := after.currentLocation,
                        currentQuest := after.currentQuest,
                        inCombat := after.inCombat)
    ensures after.currentLocation == (if m.locationChange != "" then m.locationChange else s.currentLocation)
    ensures after.currentQuest == (if m.questUpdate != "" then m.questUpdate else s.currentQuest)
    ensures after.inCombat == (if m.isCombatEnd then false else if m.isCombatStart then true else s.inCombat)
  {
    var s1 := if m.locationChange != "" then s.(currentLocation := m.locationChange) else s;
    var s2 := if m.questUpdate != "" then s1.(currentQuest := m.questUpdate) else s1;
    var s3 := if m.isCombatStart then s2.(inCombat := true) else s2;
    if m.isCombatEnd then s3.(inCombat := false) else s3
  }

  /** The state after a turn's mechanics: character, session, lines, the level-up flag and the dice cursor. */
  datatype TurnState = TurnState(character: CharacterData, session: SessionData, lines: seq<string>,
                                 leveledUp: bool, next: nat)

  /** The rolls that only read the character: skill checks, saving throws and the attack. */
  function RollStage(d: CharacterData, m: MechanicsDecision, rng: Entropy, at: nat)
    : (r: Result<(seq<string>, nat), EngineError>)
    ensures r.Ok? ==> |r.value.0| == |m.skillChecks| + |m.savingThrows| + (if m.attackTargetAc > 0 then 1 else 0)
  {
    var (checkLines, at1) := CheckStage(d, m.skillChecks, rng, at);
    match SaveStage(d, m.savingThrows, rng, at1)
    case Err(e) => Err(e)
    case Ok((saveLines, at2)) =>
      match AttackStage(d, m, rng, at2)
      case Err(e) => Err(e)
      case Ok((attackLines, at3)) => Ok((checkLines + saveLines + attackLines, at3))
  }

  /**
   * The steps after the NPC damage, none of which can fail: stat changes,
   * inventory, gold, XP and the session fields. Only their own lines are returned.
   */
  function Settle(d: CharacterData, s: SessionData, m: MechanicsDecision,
                  merge: MergeInventory, ensureAmmo: EnsureAmmo, rng: Entropy, at: nat): (t: TurnState)
    ensures |t.lines| == |m.inventoryChanges| + (if m.xpGained > 0 then 1 else 0)
    ensures t.character.gold == (if m.goldChange != 0 then Max(0, d.gold + m.goldChange) else d.gold)
    ensures m.xpGained <= 0 ==> !t.leveledUp && t.character.xp == d.xp && t.character.level == d.level
    ensures t.session == SessionStage(s, m)
  {
    var d2 := StatStage(d, m.statChanges);
    var (d3, itemLines) := InventoryStage(d2, m.inventoryChanges, merge, ensureAmmo);
    var d4 := GoldStage(d3, m.goldChange);
    var (leveled, d5, at5, xpLines) := XpStage(d4, m.xpGained, rng, at);
    TurnState(d5, SessionStage(s, m), itemLines + xpLines, leveled, at5)
  }

  /** The whole mechanics block on values; the first failing step's error ends it. */
  function Turn(d: CharacterData, s: SessionData, m: MechanicsDecision,
                merge: MergeInventory, ensureAmmo: EnsureAmmo, rng: Entropy, at: nat)
    : Result<TurnState, EngineError>
  {
    match RollStage(d, m, rng, at)
    case Err(e) => Err(e)
    case Ok((rollLines, at3)) =>
      match NpcStage(d, m.npcActions, rng, at3)
      case Err(e) => Err(e)
      case Ok((d1, npcLines, at4)) =>
        var t := Settle(d1, s, m, merge, ensureAmmo, rng, at4);
        Ok(t.(lines := rollLines + npcLines + t.lines))
  }

  // ---------------------------------------------------------------- properties of a turn

  /** A decision left at its defaults does nothing: no lines, no change, no dice drawn. */
  lemma DefaultDecisionIsInert(d: CharacterData, s: SessionData, merge: MergeInventory, ensureAmmo: EnsureAmmo,
                               rng: Entropy, at: nat)
    ensures Turn(d, s, DefaultDecision(), merge, ensureAmmo, rng, at) == Ok(TurnState(d, s, [], false, at))
  {
    var m := DefaultDecision();
    assert CheckStage(d, m.skillChecks, rng, at) == ([], at);
    assert SaveStage(d, m.savingThrows, rng, at) == Ok(([], at));
    assert AttackStage(d, m, rng, at) == Ok(([], at));
    assert NpcStage(d, m.npcActions, rng, at) == Ok((d, [], at));
    assert StatStage(d, m.statChanges) == d;
    assert InventoryStage(d, m.inventoryChanges, merge, ensureAmmo) == (d, []);
    assert GoldStage(d, m.goldChange) == d;
    assert XpStage(d, m.xpGained, rng, at) == (false, d, at, []);
    assert SessionStage(s, m) == s;
    assert RollStage(d, m, rng, at) == Ok(([], at));
    assert Settle(d, s, m, merge, ensureAmmo, rng, at) == TurnState(d, s, [], false, at);
  }

  /**
   * One line per skill check, saving throw, damaging NPC action and inventory
   * change, one for an attack and one for an XP grant.
   */
  lemma TurnLineCount(d: CharacterData, s: SessionData, m: MechanicsDecision, merge: MergeInventory,
                      ensureAmmo: EnsureAmmo, rng: Entropy, at: nat)
    ensures var r := Turn(d, s, m, merge, ensureAmmo, rng, at);
      r.Ok? ==> |r.value.lines| == |m.skillChecks| + |m.savingThrows| + (if m.attackTargetAc > 0 then 1 else 0)
                                 + Damaging(m.npcActions) + |m.inventoryChanges| + (if m.xpGained > 0 then 1 else 0)
  {
  }

  /** Gold ends floored at 0 after a nonzero change and untouched by a zero one; no other step moves it. */
  lemma TurnGold(d: CharacterData, s: SessionData, m: MechanicsDecision, merge: MergeInventory,
                 ensureAmmo: EnsureAmmo, rng: Entropy, at: nat)
    ensures var r := Turn(d, s, m, merge, ensureAmmo, rng, at);
      r.Ok? ==> r.value.character.gold == (if m.goldChange != 0 then Max(0, d.gold + m.goldChange) else d.gold)
  {
  }

  /** Without positive XP in the decision the turn grants none and never levels up. */
  lemma TurnXpOnlyWhenPositive(d: CharacterData, s: SessionData, m: MechanicsDecision, merge: MergeInventory,
                               ensureAmmo: EnsureAmmo, rng: Entropy, at: nat)
    requires m.xpGained <= 0
    ensures var r := Turn(d, s, m, merge, ensureAmmo, rng, at);
      r.Ok? ==> !r.value.leveledUp && r.value.character.xp == d.xp && r.value.character.level == d.level
  {
  }

  /** A decision that both starts and ends combat leaves the player out of combat. */
  lemma TurnCombatEndWins(d: CharacterData, s: SessionData, m: MechanicsDecision, merge: MergeInventory,
                          ensureAmmo: EnsureAmmo, rng: Entropy, at: nat)
    requires m.isCombatStart && m.isCombatEnd
    ensures var r := Turn(d, s, m, merge, ensureAmmo, rng, at);
      r.Ok? ==> !r.value.session.inCombat
  {
  }

  /** Stat changes other than `current_hp`, and zero deltas, leave the character as it was. */
  lemma IgnoredStatChanges(d: CharacterData, changes: seq<StatChange>)
    requires forall k :: 0 <= k < |changes| ==> changes[k].stat != "current_hp" || changes[k].delta == 0
    ensures StatStage(d, changes) == d
  {
  }
  /** An error in a prefix of the NPC actions is an error of the whole list. */
  lemma {:induction false} NpcErrorPersists(d: CharacterData, npcs: seq<NpcAction>, j: nat, rng: Entropy, at: nat)
    requires j <= |npcs| && NpcStage(d, npcs[..j], rng, at).Err?
    ensures NpcStage(d, npcs, rng, at).Err?
    decreases |npcs|
  {
    if j == |npcs| {
      assert npcs[..j] == npcs;
    } else {
      var init := npcs[..|npcs| - 1];
      assert init[..j] == npcs[..j];
      NpcErrorPersists(d, init, j, rng, at);
    }
  }

  /** The text handed to the narrator: the lines joined by newlines, or a fixed note when there are none. */
  function MechanicsText(lines: seq<string>): (t: string)
    ensures lines == [] ==> t == "No mechanical effects."
    ensures lines != [] ==> StartsWith(t, lines[0]) && EndsWith(t, lines[|lines| - 1])
  {
    if lines == [] then "No mechanical effects."
    else JoinEnds("\n", lines); Join("\n", lines)
  }

  // ---------------------------------------------------------------- the block, in place

  /** The skill-check loop: rolls against the character, one display line per check. */
  method RunSkillChecks(c: Character, checks: seq<SkillCheckRequest>, rng: Entropy, at: nat)
    returns (lines: seq<string>, next: nat)
    ensures (lines, next) == CheckStage(c.Data(), checks, rng, at)
  {
    lines, next := [], at;
    for i := 0 to |checks|
      invariant (lines, next) == CheckStage(c.Data(), checks[..i], rng, at)
    {
      assert checks[..i + 1][..i] == checks[..i];
      var sc := checks[i];
      var (res, after) := SkillCheck(c.Data(), sc.skill, sc.dc, sc.advantage, sc.disadvantage, rng, next);
      lines := lines + [SkillCheckDisplay(res)];
      next := after;
    }
    assert checks[..|checks|] == checks;
  }

  /** An error in a prefix of the saving throws is an error of the whole list. */
  lemma SaveErrorPersists(d: CharacterData, saves: seq<SavingThrowRequest>, j: nat, rng: Entropy, at: nat)
    requires j <= |saves| && SaveStage(d, saves[..j], rng, at).Err?
    ensures SaveStage(d, saves, rng, at).Err?
  {
    SaveStageFails(d, saves[..j], rng, at);
    SaveStageFails(d, saves, rng, at);
    var k :| 0 <= k < j && !NumericAbility(saves[..j][k].ability);
    assert saves[..j][k] == saves[k];
  }

  /** The saving-throw loop; the first throw on a non-number ability ends it with the error. */
  method RunSavingThrows(c: Character, saves: seq<SavingThrowRequest>, rng: Entropy, at: nat)
    returns (r: Result<(seq<string>, nat), EngineError>)
    ensures r.Err? <==> SaveStage(c.Data(), saves, rng, at).Err?
    ensures r.Ok? ==> r == SaveStage(c.Data(), saves, rng, at)
  {
    var d := c.Data();
    var lines: seq<string> := [];
    var next := at;
    for i := 0 to |saves|
      invariant SaveStage(d, saves[..i], rng, at) == Ok((lines, next))
    {
      assert saves[..i + 1][..i] == saves[..i];
      var st := saves[i];
      var thrown := SavingThrow(d, st.ability, st.dc, st.advantage, st.disadvantage, rng, next);
      if thrown.Err? {
        SaveErrorPersists(d, saves, i + 1, rng, at);
        return Err(thrown.error);
      }
      lines := lines + [SavingThrowDisplay(thrown.value.0)];
      next := thrown.value.1;
    }
    assert saves[..|saves|] == saves;
    return Ok((lines, next));
  }

  /** The NPC loop: each action with damage dice rolls them and applies the total to the character. */
  method ApplyNpcActions(c: Character, npcs: seq<NpcAction>, rng: Entropy, at: nat)
    returns (r: Result<(seq<string>, nat), EngineError>)
    modifies c
    ensures var s := NpcStage(old(c.Data()), npcs, rng, at);
      && (r.Err? <==> s.Err?)
      && (s.Ok? ==> r == Ok((s.value.1, s.value.2)) && c.Data() == s.value.0)
  {
    ghost var d0 := c.Data();
    var lines: seq<string> := [];
    var next := at;
    for i := 0 to |npcs|
      invariant NpcStage(d0, npcs[..i], rng, at) == Ok((c.Data(), lines, next))
    {
      assert npcs[..i + 1][..i] == npcs[..i];
      var npc := npcs[i];
      if npc.damageDice != "" {
        var rolled := Roll(npc.damageDice, 0, false, false, npc.name, rng, next);
        if rolled.Err? {
          NpcErrorPersists(d0, npcs, i + 1, rng, at);
          return Err(DiceFailed(rolled.error));
        }
        var status := ApplyDamage(c, rolled.value.result.total);
        lines := lines + [NpcLine(npc.name, rolled.value.result, status)];
        next := rolled.value.next;
      }
    }
    assert npcs[..|npcs|] == npcs;
    return Ok((lines, next));
  }

  /** The stat-change loop: `current_hp` deltas become damage or healing, everything else is skipped. */
  method ApplyStatChanges(c: Character, changes: seq<StatChange>)
    modifies c
    ensures c.Data() == StatStage(old(c.Data()), changes)
  {
    ghost var d0 := c.Data();
    for i := 0 to |changes|
      invariant c.Data() == StatStage(d0, changes[..i])
    {
      assert changes[..i + 1][..i] == changes[..i];
      var sc := changes[i];
      if sc.stat == "current_hp" && sc.delta < 0 {
        var _ := ApplyDamage(c, -sc.delta);
      } else if sc.stat == "current_hp" && sc.delta > 0 {
        ApplyHealing(c, sc.delta);
      }
    }
    assert changes[..|changes|] == changes;
  }

  /** The inventory lines, one per change, in order. */
  method ListItemChanges(changes: seq<ItemChange>) returns (lines: seq<string>)
    ensures |lines| == |changes|
    ensures forall k :: 0 <= k < |changes| ==> lines[k] == ItemLine(changes[k])
  {
    lines := [];
    for i := 0 to |changes|
      invariant |lines| == i && forall k :: 0 <= k < i ==> lines[k] == ItemLine(changes[k])
    {
      lines := lines + [ItemLine(changes[i])];
    }
  }

  /** The player's attack, when the decision names a positive target AC. */
  method RunAttack(c: Character, m: MechanicsDecision, rng: Entropy, at: nat)
    returns (r: Result<(seq<string>, nat), EngineError>)
    ensures r == AttackStage(c.Data(), m, rng, at)
  {
    if m.attackTargetAc > 0 {
      var dice := if m.attackDamageDice != "" then m.attackDamageDice else "1d8";
      var atk := MakeAttack(c.Data(), m.attackTargetAc, dice, m.attackAbility, true, false, false, rng, at);
      if atk.Err? {
        return Err(atk.error);
      }
      return Ok(([AttackDisplay(atk.value.0)], atk.value.1));
    }
    return Ok(([], at));
  }

  /** The skill checks, saving throws and attack, which read the character and change nothing. */
  method RunRolls(c: Character, m: MechanicsDecision, rng: Entropy, at: nat)
    returns (r: Result<(seq<string>, nat), EngineError>)
    ensures r.Err? <==> RollStage(c.Data(), m, rng, at).Err?
    ensures r.Ok? ==> r == RollStage(c.Data(), m, rng, at)
  {
    var checkLines, at1 := RunSkillChecks(c, m.skillChecks, rng, at);
    var saves := RunSavingThrows(c, m.savingThrows, rng, at1);
    if saves.Err? {
      return Err(saves.error);
    }
    var (saveLines, at2) := saves.value;
    var attack := RunAttack(c, m, rng, at2);
    if attack.Err? {
      return Err(attack.error);
    }
    var (attackLines, at3) := attack.value;
    return Ok((checkLines + saveLines + attackLines, at3));
  }

  /** The inventory changes: lines first, then the merged and topped-up inventory is stored. */
  method ApplyInventoryChanges(c: Character, changes: seq<ItemChange>, merge: MergeInventory, ensureAmmo: EnsureAmmo)
    returns (lines: seq<string>)
    modifies c
    ensures (c.Data(), lines) == InventoryStage(old(c.Data()), changes, merge, ensureAmmo)
  {
    lines := [];
    if |changes| > 0 {
      var records := seq(|changes|, k requires 0 <= k < |changes| => ChangeRecord(changes[k]));
      lines := ListItemChanges(changes);
      assert lines == seq(|changes|, k requires 0 <= k < |changes| => ItemLine(changes[k]));
      c.SetInventory(merge(c.inventory, records));
      c.SetInventory(ensureAmmo(c.inventory));
    }
  }

  /** A nonzero gold change, floored at 0. */
  method ApplyGoldChange(c: Character, change: int)
    modifies c
    ensures c.Data() == GoldStage(old(c.Data()), change)
  {
    if change != 0 {
      c.gold := Max(0, c.gold + change);
    }
  }

  /** A positive XP amount is granted, with its line. */
  method AwardXp(c: Character, xp: int, rng: Entropy, at: nat) returns (leveled: bool, next: nat, lines: seq<string>)
    modifies c
    ensures (leveled, c.Data(), next, lines) == XpStage(old(c.Data()), xp, rng, at)
  {
    leveled, next, lines := false, at, [];
    if xp > 0 {
      leveled, next := GrantXp(c, xp, rng, at);
      lines := [XpLine(xp)];
    }
  }

  /** Location, quest and combat flags on the session row. */
  method UpdateSession(gs: GameSession, m: MechanicsDecision)
    modifies gs
    ensures gs.Data() == SessionStage(old(gs.Data()), m)
  {
    if m.locationChange != "" {
      gs.currentLocation := m.locationChange;
    }
    if m.questUpdate != "" {
      gs.currentQuest := m.questUpdate;
    }
    if m.isCombatStart {
      gs.inCombat := true;
    }
    if m.isCombatEnd {
      gs.inCombat := false;
    }
  }

  /** Stat changes, inventory, gold, XP and the session fields, applied in place. */
  method SettleInPlace(c: Character, gs: GameSession, m: MechanicsDecision,
                       merge: MergeInventory, ensureAmmo: EnsureAmmo, rng: Entropy, at: nat)
    returns (lines: seq<string>, leveled: bool, next: nat)
    modifies c, gs
    ensures TurnState(c.Data(), gs.Data(), lines, leveled, next)
            == Settle(old(c.Data()), old(gs.Data()), m, merge, ensureAmmo, rng, at)
  {
    ApplyStatChanges(c, m.statChanges);
    var itemLines := ApplyInventoryChanges(c, m.inventoryChanges, merge, ensureAmmo);
    ApplyGoldChange(c, m.goldChange);
    var xpLines;
    leveled, next, xpLines := AwardXp(c, m.xpGained, rng, at);
    UpdateSession(gs, m);
    lines := itemLines + xpLines;
  }

  /**
   * The whole block: the character and the session end in the state `Turn`
   * computes, and the lines, the level-up flag and the dice cursor are the
   * ones it computes, or both report a failure.
   */
  method ProcessMechanics(c: Character, gs: GameSession, m: MechanicsDecision,
                          merge: MergeInventory, ensureAmmo: EnsureAmmo, rng: Entropy, at: nat)
    returns (r: Result<(seq<string>, bool, nat), EngineError>)
    modifies c, gs
    ensures var t := Turn(old(c.Data()), old(gs.Data()), m, merge, ensureAmmo, rng, at);
      && (r.Err? <==> t.Err?)
      && (t.Ok? ==> && r.value == (t.value.lines, t.value.leveledUp, t.value.next)
                    && c.Data() == t.value.character
                    && gs.Data() == t.value.session)
  {
    var rolls := RunRolls(c, m, rng, at);
    if rolls.Err? {
      return Err(rolls.error);
    }
    var (rollLines, at3) := rolls.value;
    var npc := ApplyNpcActions(c, m.npcActions, rng, at3);
    if npc.Err? {
      return Err(npc.error);
    }
    var (npcLines, at4) := npc.value;
    var settled, leveled, next := SettleInPlace(c, gs, m, merge, ensureAmmo, rng, at4);
    return Ok((rollLines + npcLines + settled, leveled, next));
  }
}
