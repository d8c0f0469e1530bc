# DND_solo rules core in Dafny

This project models the deterministic rules layer of DND_solo, a solo tabletop-RPG Telegram bot. A language model proposes a structured "mechanics decision" for each player turn. The bot then resolves that decision with dice and fifth-edition-style rules and writes the outcome to the character and the game session. The model covers:

- **Dice** (`dice.dfy`):
  - dice-text sanitising into canonical `NdM`;
  - `roll`, including advantage and disadvantage on a d20;
  - the text display of a roll;
  - 4d6-drop-lowest ability scores.
- **Rules engine** (`engine.dfy`):
  - XP thresholds, hit dice and the skill-to-ability table;
  - proficiency tiers;
  - attacks with critical dice doubling;
  - skill checks and saving throws;
  - the death-save counter machine;
  - damage and healing;
  - XP and level-up.
- **Character row** (`character.dfy`): the character's columns and defaults, ability modifiers, the list-valued properties and the sheet dict. `Character` is a class whose fields the engine methods update in place.
- **Turn mechanics block** (`turn.dfy`): one decision applied to the character and the session in the handler's fixed order.
- **Decision schema, model choice, response-text extraction and error messages** (`gemini.dfy`).
- **Output helpers** (`formatters.dfy`): `format_dice_roll`, and `truncate_for_telegram` with its closing-tag repair.
- **Session row** (`session.dfy`): the column defaults and the append-only message log.

Supporting modules:

- `wrappers.dfy`: Option and Result.
- `text.dfy`: digits, strip, `int()`, `split`/`join`, `count` and Python slice bounds.
- `json.dfy`: JSON values and `json.dumps`.

**How the model is built:**

- **Randomness.** `secrets.randbelow(n)` is an entropy stream `rng: nat -> nat` read at a cursor. A draw is `rng(at) % n`, so every face value can occur. Each roll returns the cursor after its draws, and a turn passes the cursor from step to step.
- **Exceptions.** A Python exception becomes an `Err` value of a `Result`. Examples: `randbelow(0)` for a zero-sided die, `getattr` on a missing attribute, `int("")` for a critical on `"d8"`, arithmetic on a non-number attribute.
- **Functions and methods.** Operations that only read the character are functions over a `CharacterData` snapshot. Operations that change the character or the session are methods with `modifies` clauses. Their `ensures` tie the new state to a specification function of the old state.

The mechanics-line markers in `bot/handlers/game.py` (the arrow, the backpack and the sparkles) are stored in that file mis-decoded, as `‚Üí`, `üéí` and `‚ú®`. The model spells those lines exactly as the file does.

The model follows the code wherever the code and the project's description differ:

- The turn block has no per-step error isolation and no fallback XP amount.
- Structured generation does no JSON repair, no retry and no fallback model.

## Model

| member | source | states |
|---|---|---|
| Dice.RandBelow | bot/utils/dice.py:31-32 | a draw below `n` is in `[0, n)`, and every value below `n` can be drawn |
| Dice.RollDie | bot/utils/dice.py:31-32 | a face lies in `[1, sides]` |
| Dice.Sanitize | bot/utils/dice.py:35-49 | the result is always digits, `d`, digits; blank input gives `1d4` |
| Dice.FirstDiceWins | bot/utils/dice.py:39 | in text with no digit before it, `N`, optional whitespace, `d`, optional whitespace, `M` not followed by a digit is the first match, with groups `N` and `M` |
| Dice.SanitizeFindsFirstDice | bot/utils/dice.py:36-41 | if the stripped, lower-cased text is anything without digits, then `N d M` with whitespace around `d`, then anything not continuing `M`, the result is `NdM`: the text around it is dropped and a later `N d M` is ignored |
| Dice.SanitizeWithoutDigits | bot/utils/dice.py:36-49 | text without a digit falls back to `1d4` |
| Dice.FirstMatch | bot/utils/dice.py:41-43 | finds the first position where `N d M` matches, and nothing matches before it |
| Dice.SanitizeKeepsCanonical | bot/utils/dice.py:35-43 | canonical `NdM` passes through unchanged |
| Dice.SanitizeIdempotent | bot/utils/dice.py:35-49 | sanitising twice equals sanitising once |
| Dice.SanitizeBareDie | bot/utils/dice.py:44-45 | `dM` becomes `1dM` |
| Dice.SanitizeBareNumber | bot/utils/dice.py:46-48 | a bare number `M` becomes `1dM` |
| Dice.Roll | bot/utils/dice.py:52-96 | errors exactly for a zero-sided die with a positive count. Otherwise it gives the sanitised dice, the modifier and the reason; two faces under advantage on a single d20, else `count` faces; each face in `[1, sides]`; and the cursor advanced by the number of faces |
| Dice.RollTwoD20 | bot/utils/dice.py:66-84 | the advantage branch draws exactly two d20 faces |
| Dice.RollEach | bot/utils/dice.py:86-96 | the plain branch draws `count` faces of `[1, sides]` |
| Dice.AdvantageKeepsOneFace | bot/utils/dice.py:66-84 | the kept face is one of the two: the larger under advantage (which wins over disadvantage), else the smaller. The total is kept plus modifier, and the natural flags come from the kept face |
| Dice.PlainRollSumsFaces | bot/utils/dice.py:86-96 | total is sum of faces plus modifier, between `n + mod` and `n*m + mod`. The advantage flags stay false, and the natural flags need a single d20 |
| Dice.RollBareDie | bot/utils/dice.py:44-45 | rolling `dM` is rolling one `M`-sided die labelled `1dM` |
| Dice.RollD20 | bot/utils/dice.py:52-96 | a d20 roll keeps a face in `[1, 20]`; natural 20 and natural 1 are that face being 20 or 1 |
| Dice.RollD20IsRoll | bot/utils/dice.py:52-96 | `RollD20` is `roll("1d20", ...)` |
| Dice.ModifierText | bot/utils/dice.py:19-28 | the signed modifier is shown iff it is nonzero |
| Dice.Display | bot/utils/dice.py:19-28 | starts with dice, modifier and ` = [`; ends with the NAT 20 tag, else the NAT 1 tag, else ` = total` |
| Dice.SortInPlace | bot/utils/dice.py:104 | the array ends sorted and is a permutation of the original |
| Dice.SortedTailDropsLowest | bot/utils/dice.py:104-105 | the sum of the top three of a sorted copy is the sum without the lowest face |
| Dice.DropLowestRange | bot/utils/dice.py:103-105 | 4d6 drop lowest lies in `[3, 18]` |
| Dice.RollAbilityScores | bot/utils/dice.py:99-106 | six scores, each 4d6 drop lowest of its own four draws, each in `[3, 18]` |
| Dice.SumPermutation | bot/utils/dice.py:104-105 | sorting does not change a sum |
| Characters.DefaultData | bot/models/character.py:15-54 | the given row and owner ids; name `Unnamed`, race `Human`, class `Fighter`, empty backstory; level 1, xp 0, abilities 10, HP 10/10, AC 10, initiative 0, proficiency 2, speed 30, gold 0, death-save counters 0/0; empty skill, saving-throw, inventory and condition lists; empty spell-slot dict |
| Characters.AbilityModifier | bot/models/character.py:102-103 | the modifier is `floor((score - 10) / 2)` |
| Characters.AbilityModifierMonotone | bot/models/character.py:102-103 | the modifier never decreases as the score grows |
| Characters.AbilityModifierSamples | bot/models/character.py:102-103 | 10 gives 0, 9 gives -1, 7 gives -2, 20 gives +5 |
| Characters.GetAttr | bot/models/character.py:12-58 | `getattr` yields a number exactly for the integer columns (`id` and `user_id` included) and the six modifiers, something else exactly for the text, list and private columns, properties, methods and table mapping, and nothing for any other name |
| Characters.GetAttrIdsAndPrivateColumns | bot/models/character.py:13-16 | `id` and `user_id` read as the row and owner ids; `_inventory` and `__tablename__` read as non-numbers |
| Characters.GetAbilityScores | bot/models/character.py:24-29 | the six ability names read the six scores |
| Characters.StatText | bot/models/character.py:141-148 | a stat shows its score followed by its signed modifier in parentheses |
| Characters.HpTextRoundTrip | bot/models/character.py:136 | the `current/max` text splits back into the two numbers |
| Characters.ToSheetDict | bot/models/character.py:129-155 | the sheet's HP reads back as current and max; each of the six stats shows its score then its signed modifier in parentheses; every other key carries its column |
| Characters.Character.constructor | bot/models/character.py:18-54 | a new character holds the column defaults |
| Characters.Character.StrMod | bot/models/character.py:105-107 | the strength modifier is the floor of half of score minus 10 |
| Characters.Character.DexMod | bot/models/character.py:109-111 | the same for dexterity |
| Characters.Character.ConMod | bot/models/character.py:113-115 | the same for constitution |
| Characters.Character.IntMod | bot/models/character.py:117-119 | the same for intelligence |
| Characters.Character.WisMod | bot/models/character.py:121-123 | the same for wisdom |
| Characters.Character.ChaMod | bot/models/character.py:125-127 | the same for charisma |
| Characters.Character.SetInventory | bot/models/character.py:62-68 | the inventory reads back exactly what was stored; nothing else changes |
| Characters.Character.SetProficientSkills | bot/models/character.py:70-76 | the skills read back exactly what was stored; nothing else changes |
| Characters.Character.SetSavingThrowProficiencies | bot/models/character.py:78-84 | the saving-throw list reads back exactly what was stored; nothing else changes |
| Characters.Character.SetConditions | bot/models/character.py:86-92 | the conditions read back exactly what was stored; nothing else changes |
| Characters.Character.SetSpellSlots | bot/models/character.py:94-100 | the spell slots read back exactly what was stored; nothing else changes |
| GameEngine.ThresholdFor | bot/services/game_engine.py:12-18 | there is a threshold exactly for levels 1 to 20, and it is 0 only at level 1 |
| GameEngine.ThresholdsIncrease | bot/services/game_engine.py:12-18 | thresholds strictly increase with level |
| GameEngine.HitDieOf | bot/services/game_engine.py:20-33 | every class's hit die is `d6`, `d8`, `d10` or `d12` |
| GameEngine.HitDieDefault | bot/services/game_engine.py:271 | a class missing from the table uses `d8` |
| GameEngine.HitDieParsed | bot/services/game_engine.py:271-281 | `roll` and `int(hit_die[1:])` read the same number of sides |
| GameEngine.RollHitDie | bot/services/game_engine.py:270-274 | the hit-die roll lies in `[mod + 1, mod + sides]` and draws once |
| GameEngine.RollHitDieIsRoll | bot/services/game_engine.py:271-272 | the hit-die roll is `roll(hit_die, modifier=con_mod)` |
| GameEngine.AbilityForSkill | bot/services/game_engine.py:35-54 | a skill maps to an ability; an unknown skill uses wisdom |
| GameEngine.ProficiencyBonus | bot/services/game_engine.py:57-66 | the bonus is in `[2, 6]`: 2 below level 5, 6 from level 17 |
| GameEngine.ProficiencyClosedForm | bot/services/game_engine.py:57-66 | for levels 1 to 20 the bonus is `2 + (level - 1) / 4` |
| GameEngine.ProficiencyMonotone | bot/services/game_engine.py:57-66 | the bonus never decreases with level |
| GameEngine.D20Automatic | bot/services/game_engine.py:180-182 | a natural 20 always succeeds and a natural 1 always fails; otherwise success is `total >= dc` |
| GameEngine.CriticalDoublesCount | bot/services/game_engine.py:151-156 | a critical on `NdM` rolls `2N` dice of `M` sides |
| GameEngine.CriticalDiceCanonical | bot/services/game_engine.py:153-155 | the critical dice text is `2N` followed by `dM` |
| GameEngine.CriticalOnCountlessDie | bot/services/game_engine.py:153-155 | a critical on `dM` fails on `int("")` |
| GameEngine.CriticalReadsNumeralCount | bot/services/game_engine.py:154-157 | a critical reads the count as `int()` does, underscores between digits included, doubles it and keeps the sides text |
| Text.PyIntOfNumeral | bot/services/game_engine.py:156 | `int()` of a bare numeral is the value of its digits with the underscores dropped |
| Text.PyIntAcceptsUnderscore | bot/services/game_engine.py:156 | `int("1_0") == 10` |
| Text.PyIntRefusesLooseUnderscore | bot/services/game_engine.py:156 | `int("1__0")` and `int("1_")` raise ValueError |
| Text.PyIntRoundTrip | bot/models/character.py:136 | `int(str(i)) == i` for every integer |
| GameEngine.MakeAttack | bot/services/game_engine.py:133-162 | missing or non-number ability fails. The attack modifier is ability mod plus proficiency only when proficient. A critical is a natural 20; a hit is a critical or reaching the AC, so a natural 1 can hit. Damage is rolled iff it hits, with the ability modifier only |
| GameEngine.HitDamage | bot/services/game_engine.py:151-158 | damage carries the ability modifier and reason `damage`; a plain hit rolls the sanitised dice and fails only for a zero-sided die |
| GameEngine.MissNeverFails | bot/services/game_engine.py:145-162 | a miss never rolls damage and never fails, whatever the damage text |
| GameEngine.CriticalRollsDoubleDice | bot/services/game_engine.py:145-158 | a natural 20 on `NdM` is a critical hit rolling `2N` damage dice |
| GameEngine.SkillCheck | bot/services/game_engine.py:165-186 | the modifier is the skill's ability modifier plus proficiency iff the skill is in the list; unknown skills use wisdom; success is natural 20, or not natural 1 and reaching the DC |
| GameEngine.SavingThrow | bot/services/game_engine.py:189-207 | fails iff the ability attribute is not a number. An unknown ability scores 10. Proficiency is keyed on the saving-throw list, with the same success rule |
| GameEngine.DeathSaveStep | bot/services/game_engine.py:210-240 | natural 20: HP 1, counters cleared, stabilized. Otherwise success is `total >= 10`, and a failure adds 1, or 2 on a natural 1. `stabilized` iff the successes reach 3 and `dead` iff the failures reach 3, and either resets both counters; only HP and the counters change |
| GameEngine.DeathSaveCountersBounded | bot/services/game_engine.py:220-239 | counters in `[0, 2]` stay in `[0, 2]`, and never both stabilized and dead |
| GameEngine.DeadWithinThreeFailures | bot/services/game_engine.py:220-239 | three failing saves from counters in range end in death, without stabilizing |
| GameEngine.StableWithinThreeSuccesses | bot/services/game_engine.py:220-239 | three successes from counters in range stabilize, without dying |
| GameEngine.DeathSavingThrow | bot/services/game_engine.py:210-240 | the in-place death save is one d20 roll applied by `DeathSaveStep` |
| GameEngine.DamageStep | bot/services/game_engine.py:243-247 | HP becomes `max(0, hp - damage)`, with status `unconscious` iff 0; only HP changes |
| GameEngine.HealStep | bot/services/game_engine.py:250-254 | HP becomes `min(max_hp, hp + healing)`; positive HP clears both counters |
| GameEngine.DamageThenHealRestores | bot/services/game_engine.py:243-254 | healing the damage just taken restores HP when HP was within `[0, max_hp]` |
| GameEngine.DamageAndHealingDirections | bot/services/game_engine.py:243-254 | damage never raises HP and healing never lowers it |
| GameEngine.ApplyDamage | bot/services/game_engine.py:243-247 | the in-place update equals `DamageStep` |
| GameEngine.ApplyHealing | bot/services/game_engine.py:250-254 | the in-place update equals `HealStep` |
| GameEngine.LevelUpHpStep | bot/services/game_engine.py:270-275 | max and current HP both rise by the same `max(1, hit die + con mod)` |
| GameEngine.GrantXpStep | bot/services/game_engine.py:257-267 | XP always accumulates. At most one level is gained, and it returns true iff a level was gained. Proficiency is recomputed and HP rises on a level-up; only those fields change |
| GameEngine.LevelUpWhenThresholdReached | bot/services/game_engine.py:257-267 | below 20 a level is gained iff the next threshold is reached; never past 20 |
| GameEngine.LevelZeroNeverAdvances | bot/services/game_engine.py:259-262 | level 0 never advances, since its next threshold is 0 |
| GameEngine.LevelUpHp | bot/services/game_engine.py:270-275 | the in-place HP gain equals `LevelUpHpStep` |
| GameEngine.GrantXp | bot/services/game_engine.py:257-267 | the in-place update equals `GrantXpStep` |
| GameEngine.CalculateStartingHp | bot/services/game_engine.py:278-281 | starting HP is hit-die sides plus con mod |
| GameEngine.LevelUpGainAtMostStartingHp | bot/services/game_engine.py:270-281 | a level-up never gains more than starting HP (or 1) |
| GameEngine.AttackLines | bot/services/game_engine.py:76-87 | the attack display has 3 lines with damage and 2 without, the first being the attack roll |
| GameEngine.SkillCheckDisplay | bot/services/game_engine.py:97-100 | ends with the success or failure tag on its own line |
| GameEngine.SavingThrowDisplay | bot/services/game_engine.py:110-113 | ends with the success or failure tag on its own line |
| GameEngine.DeathSaveDisplay | bot/services/game_engine.py:123-130 | starts with the roll; ends with Stabilized or Dead as the result says |
| GeminiService.DefaultDecision | bot/services/gemini.py:121-138 | AC 0, ability `strength`, no XP or gold, empty lists, four fixed actions, no combat flags |
| GeminiService.PickModel | bot/services/gemini.py:34-37 | `heavy` defaults to false; the heavy model iff heavy is asked for and configured, else the default model |
| GeminiService.MessageParts | bot/services/gemini.py:183-186 | the message `Gemini [op]: cause` reads back the operation and the cause |
| GeminiService.UserMessage | bot/services/gemini.py:188-197 | the cause is checked in order: geo-block, then rate limit, then bad key, else a generic text with at most 150 characters of the cause. Russian iff `ru` |
| GeminiService.UserMessageEnglishUnlessRu | bot/services/gemini.py:190 | every language other than `ru` gets the English text |
| GeminiService.UserMessageLanguagesDiffer | bot/services/gemini.py:188-197 | the Russian and English messages always differ |
| GeminiService.Walk | bot/services/gemini.py:74 | an empty subscript path returns the value itself |
| GeminiService.ExtractText | bot/services/gemini.py:72-76 | a response that is not a dict raises TypeError; a parse error carries operation `parse` and the first 200 characters of `json.dumps(data)` |
| GeminiService.ExtractFromWellFormed | bot/services/gemini.py:72-74 | a dict whose `candidates` list starts with a dict whose `content` dict has a `parts` list starting with a dict holding `text` returns that text, whatever other keys each dict has |
| GeminiService.ExtractOnlyFromWellFormed | bot/services/gemini.py:72-74 | conversely, text is returned only from a response of that shape, and it is the first part's `text` |
| GeminiService.ExtractFailsWhereMissing | bot/services/gemini.py:72-76 | when the path reaches a dict without the next key, an empty list or string, or a dict indexed by 0, at any of its six steps, the result is the parse error with the dump's first 200 characters |
| GeminiService.ExtractWithoutCandidates | bot/services/gemini.py:72-76 | a dict response without `candidates` is the parse error |
| GeminiService.ExtractWithNoCandidate | bot/services/gemini.py:72-76 | an empty `candidates` list is the parse error, whatever else the response holds |
| GeminiService.ExtractWithNoParts | bot/services/gemini.py:72-76 | a first candidate whose content has an empty `parts` list gives the parse error |
| Formatters.RollBody | bot/utils/formatters.py:130-135 | starts with dice, modifier and ` = [`; ends with the bold total |
| Formatters.FormatDiceRoll | bot/utils/formatters.py:127-137 | `reason` defaults to empty and both flags to false. The reason prefix appears iff the reason is non-empty. NAT 20 takes precedence over NAT 1; otherwise the line ends with the bold total |
| Formatters.ModifierShownIffNonzero | bot/utils/formatters.py:131-133 | the signed modifier appears after the dice iff it is nonzero |
| Formatters.Repeat | bot/utils/formatters.py:161 | `s * n` has length `n * |s|` |
| Formatters.CloseTags | bot/utils/formatters.py:157-161 | appending closers keeps the cut as a prefix |
| Formatters.Kept | bot/utils/formatters.py:152-156 | the cut is a prefix of at most `max_length - 20` characters; when it is shorter, it stops at a `<` with no `>` from there to the bound |
| Formatters.KeptDropsDanglingTag | bot/utils/formatters.py:152-156 | the cut is shortened exactly when the first `max_length - 20` characters hold a `<` with no `>` after it, and then it ends just before the last `<` |
| Formatters.Truncated | bot/utils/formatters.py:148-162 | short text is unchanged; long text starts with the cut and ends with `...` |
| Formatters.TruncateForTelegram | bot/utils/formatters.py:148-162 | `max_length` defaults to 4000; the nested loops compute `Truncated` |
| Formatters.CloseTag | bot/utils/formatters.py:158-161 | one tag's loop appends exactly `max(0, opens - closes)` closers |
| Formatters.CountAbsent | bot/utils/formatters.py:158-160 | a tag that never occurs counts 0 |
| Formatters.CloseTagsNothingMissing | bot/utils/formatters.py:157-161 | balanced text gets no closers |
| Formatters.NoOtherOpening | bot/utils/formatters.py:157-161 | in bold-wrapped plain text no other allowed tag opens |
| Formatters.TruncateClosesBold | bot/utils/formatters.py:148-162 | an over-long bold text is cut, closed with `</b>` and followed by `...` |
| Formatters.KeptInsideBold | bot/utils/formatters.py:152-156 | inside an unclosed bold the cut keeps `max_length - 20` characters |
| Formatters.CloseTagsAfterBold | bot/utils/formatters.py:157-161 | a cut bold text gets exactly one `</b>` |
| Formatters.BoldMissingOnce | bot/utils/formatters.py:158-160 | one unclosed `<b>` is missing one closer |
| Sessions.DefaultSession | bot/models/game_session.py:12-37 | turn 0, count 0, empty history, not in combat, location `Unknown`, currency `gold` |
| Sessions.Recent | bot/models/game_session.py:98-99 | the read is a suffix of the history |
| Sessions.RecentLast | bot/models/game_session.py:98-99 | for `n >= 1` the read is the last `min(n, len)` entries, in order |
| Sessions.RecentZeroIsAll | bot/models/game_session.py:99 | asking for 0 returns the whole history |
| Sessions.RecentNegativeDrops | bot/models/game_session.py:99 | a negative `n` drops the first `abs(n)` entries |
| Sessions.AppendedIsRecent | bot/models/game_session.py:92-99 | the message just appended is the last one read back |
| Sessions.GameSession.constructor | bot/models/game_session.py:12-37 | a new session holds the column defaults |
| Sessions.GameSession.AppendMessage | bot/models/game_session.py:92-96 | one entry at the end, earlier entries unchanged, count up by one; count minus history length is kept |
| Sessions.GameSession.GetRecentMessages | bot/models/game_session.py:98-99 | the last `min(n, len)` entries for `n >= 1`, with `n` 20 by default; always a suffix |
| TurnMechanics.ItemLine | bot/handlers/game.py:312-314 | the line is the backpack mark, `-` iff the action is `remove` else `+`, then the name |
| TurnMechanics.CheckStage | bot/handlers/game.py:279-281 | one line per skill check, each ending with the success or failure tag |
| TurnMechanics.SaveStage | bot/handlers/game.py:283-285 | on success, one line per saving throw |
| TurnMechanics.SaveStageFails | bot/handlers/game.py:283-285 | the saving throws fail iff some requested ability names an attribute that is not a number |
| TurnMechanics.SaveStageStep | bot/handlers/game.py:283-285 | one more saving throw succeeds iff the earlier ones did and its ability is a number |
| TurnMechanics.AttackStage | bot/handlers/game.py:287-292 | no attack unless the target AC is positive; otherwise one line, and a missing ability fails |
| TurnMechanics.AttackDefaultsToD8 | bot/handlers/game.py:290 | empty damage dice means `1d8` |
| TurnMechanics.NpcStage | bot/handlers/game.py:294-298 | NPCs without damage dice are skipped; one line per damaging NPC; only current HP changes; a failure is a zero-sided die |
| TurnMechanics.NpcStageStep | bot/handlers/game.py:294-298 | a damaging NPC rolls its dice with its name as reason; the total (never negative) is applied by `apply_damage`, HP becomes `max(0, hp - total)`, and the line is name, roll display, arrow, status |
| TurnMechanics.NpcDamageNeverHeals | bot/handlers/game.py:294-298 | the NPC loop never raises current HP above `max(hp, 0)` |
| TurnMechanics.StatChangeStep | bot/handlers/game.py:300-304 | `current_hp` below 0 is damage of `abs(delta)`, above 0 is healing; anything else is ignored |
| TurnMechanics.StatStage | bot/handlers/game.py:300-304 | only HP and death-save counters change; ignored changes leave the character alone |
| TurnMechanics.InventoryStage | bot/handlers/game.py:306-316 | no changes, no effect. Otherwise line `k` is the item line of change `k`, with the right sign, and only the inventory changes |
| TurnMechanics.GoldStage | bot/handlers/game.py:318-319 | a nonzero change gives `max(0, gold + change)`; zero leaves gold alone |
| TurnMechanics.XpStage | bot/handlers/game.py:321-325 | XP and its line only for a positive amount; otherwise nothing changes |
| TurnMechanics.SessionStage | bot/handlers/game.py:327-334 | location and quest are set only by non-empty values; combat end wins over combat start |
| TurnMechanics.RollStage | bot/handlers/game.py:279-292 | one line per check and save, and one for an attack |
| TurnMechanics.Settle | bot/handlers/game.py:300-334 | one line per inventory change plus one for XP; gold floored; no XP without a positive amount |
| TurnMechanics.DefaultDecisionIsInert | bot/handlers/game.py:277-334 | a default decision changes nothing, writes no line and draws no dice |
| TurnMechanics.TurnLineCount | bot/handlers/game.py:277-325 | the number of lines is checks + saves + attack + damaging NPCs + inventory changes + XP |
| TurnMechanics.TurnGold | bot/handlers/game.py:318-319 | after a turn, gold is floored at 0 after a nonzero change and untouched otherwise |
| TurnMechanics.TurnXpOnlyWhenPositive | bot/handlers/game.py:321-325 | without positive XP a turn neither grants XP nor levels up |
| TurnMechanics.TurnCombatEndWins | bot/handlers/game.py:331-334 | start and end together leave the player out of combat |
| TurnMechanics.IgnoredStatChanges | bot/handlers/game.py:300-304 | non-HP stats and zero deltas change nothing |
| TurnMechanics.NpcErrorPersists | bot/handlers/game.py:294-298 | a failing NPC roll fails the whole NPC loop |
| TurnMechanics.SaveErrorPersists | bot/handlers/game.py:283-285 | a failing saving throw fails the whole saving-throw loop |
| TurnMechanics.MechanicsText | bot/handlers/game.py:336 | no lines give `No mechanical effects.`; otherwise the text starts with the first line and ends with the last |
| TurnMechanics.RunSkillChecks | bot/handlers/game.py:279-281 | the loop computes `CheckStage` |
| TurnMechanics.RunSavingThrows | bot/handlers/game.py:283-285 | the loop computes `SaveStage`, failing iff it fails |
| TurnMechanics.RunAttack | bot/handlers/game.py:287-292 | computes `AttackStage` |
| TurnMechanics.RunRolls | bot/handlers/game.py:279-292 | computes `RollStage`, failing iff it fails |
| TurnMechanics.ApplyNpcActions | bot/handlers/game.py:294-298 | the in-place loop fails iff `NpcStage` fails; otherwise it ends in its state and lines |
| TurnMechanics.ApplyStatChanges | bot/handlers/game.py:300-304 | the in-place loop ends in `StatStage` of the old character |
| TurnMechanics.ListItemChanges | bot/handlers/game.py:312-314 | line `k` is the item line of change `k`, one per change |
| TurnMechanics.ApplyInventoryChanges | bot/handlers/game.py:306-316 | the in-place update equals `InventoryStage` |
| TurnMechanics.ApplyGoldChange | bot/handlers/game.py:318-319 | the in-place update equals `GoldStage` |
| TurnMechanics.AwardXp | bot/handlers/game.py:321-325 | the in-place update equals `XpStage` |
| TurnMechanics.UpdateSession | bot/handlers/game.py:327-334 | the in-place session update equals `SessionStage` |
| TurnMechanics.SettleInPlace | bot/handlers/game.py:300-334 | the in-place steps after NPC damage end in `Settle` |
| TurnMechanics.ProcessMechanics | bot/handlers/game.py:277-334 | the whole block fails iff `Turn` fails. Otherwise the character, the session, the lines, the level-up flag and the dice cursor are those of `Turn` |

## Left out

- I/O is left out: Telegram messaging, the database session, the Gemini HTTP calls and the async client. The randomness source is an input stream.
- `merge_inventory` and `ensure_ammo` are not part of this model. The turn receives them as function parameters and states nothing about what they return.
- TurnMechanics.ProcessMechanics: does not state the character and session after a failed step. The block has no exception handling, so in the source a failure leaves earlier NPC damage applied to the in-memory object, and the transaction is not committed.
- The 4000-character Telegram limit is not a guarantee of `truncate_for_telegram`. With many unclosed tags the closers can exceed the 20-character margin, and the model states no length bound.
- The JSON-text column encoding of the list properties (`json.dumps`/`json.loads` through `_inventory`, `spell_slots_json` and the like) is not modelled. The lists are held directly.
- `InventoryItem`, `CharacterProposal`, `MissionProposal` and `PersonalizationAnalysis` are not modelled, and neither are the `weight` float of items or `_schema_hint`. They are not used by the turn block.
- `to_state_dict` and the session property setters other than the message log are not modelled. The setters only encode JSON.
- `md_to_html`, `progress_bar`, `format_character_sheet`, `format_inventory` and `format_quest` are outside the modelled formatters.
- GeminiService.ExtractText: a `TypeError` from subscripting a non-container is reported as `TypeError` without a message, since the source does not catch it.
- The `available_actions`, `narration_context` and `important_event` fields of a decision are carried but not used by the mechanics block.
- Dice.Sanitize: digits are the ten ASCII digits only. Python's `\d`, `isdigit()` and `int()` also take the other Unicode decimal digits, so `"٢d٦"` rolls 2d6 in the source but reads as no dice (`1d4`) here. `isdigit()` also holds for characters such as `²`, on which `roll` then raises ValueError; the model reads `d²` as `1d4`. The same ASCII-only reading applies to `int()` in `GameEngine.CriticalDice`; its underscore grouping (`1_0`) is modelled.
- Characters.GetAttr: names that neither the class nor its mapped base declare read as missing. That includes the inherited dunder attributes other than the table mapping (`__doc__`, `__class__` and the like), on which the source's `ability_modifier` raises TypeError instead.
- GeminiService.ExtractText: JSON numbers are integers only, so a response's float fields cannot be represented in the 200-character error text, which the source builds with `json.dumps` of the whole response.
