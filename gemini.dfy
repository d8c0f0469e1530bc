/**
 * The deterministic parts of the Gemini service: the structured "mechanics
 * decision" the first model pass returns (its schema defaults), the choice
 * of model tier, pulling the reply text out of a `generateContent` response,
 * and the classification of failures into the message shown to the player.
 */
module GeminiService {
  import opened Wrappers
  import opened Text
  import opened JsonValues

  // ---------------------------------------------------------------- decision schema

  /** A requested skill check; `skill` and `dc` are required, the flags default to false. */
  datatype SkillCheckRequest = SkillCheckRequest(
    skill: string, dc: int, advantage: bool := false, disadvantage: bool := false)

  /** A requested saving throw; `ability` names one of the six abilities. */
  datatype SavingThrowRequest = SavingThrowRequest(
    ability: string, dc: int, advantage: bool := false, disadvantage: bool := false)

  /** An inventory change; `action` is `"add"` or `"remove"` (the float `weight` is not modelled). */
  datatype ItemChange = ItemChange(
    action: string, name: string := "", quantity: int := 1, description: string := "")

  /** A change of a named character field by `delta`. */
  datatype StatChange = StatChange(stat: string, delta: int)

  /** Something an NPC does; a non-empty `damageDice` means it deals damage. */
  datatype NpcAction = NpcAction(name: string := "", action: string := "", damageDice: string := "")

  const DefaultActions: seq<string> := ["Look around", "Talk", "Attack", "Use item"]

  /** `MechanicsDecision`, with pydantic's defaults as constructor defaults. */
  datatype MechanicsDecision = MechanicsDecision(
    narrationContext: string := "",
    skillChecks: seq<SkillCheckRequest> := [],
    savingThrows: seq<SavingThrowRequest> := [],
    attackTargetAc: int := 0,
    attackDamageDice: string := "",
    attackAbility: string := "strength",
    npcActions: seq<NpcAction> := [],
    statChanges: seq<StatChange> := [],
    inventoryChanges: seq<ItemChange> := [],
    xpGained: int := 0,
    goldChange: int := 0,
    locationChange: string := "",
    questUpdate: string := "",
    availableActions: seq<string> := DefaultActions,
    isCombatStart: bool := false,
    isCombatEnd: bool := false,
    importantEvent: string := "")

  /** `MechanicsDecision()`: an empty decision that asks for nothing. */
  function DefaultDecision(): (m: MechanicsDecision)
    ensures m.attackTargetAc == 0 && m.attackAbility == "strength" && m.attackDamageDice == ""
    ensures m.xpGained == 0 && m.goldChange == 0
    ensures m.skillChecks == [] && m.savingThrows == [] && m.npcActions == []
    ensures m.statChanges == [] && m.inventoryChanges == []
    ensures m.locationChange == "" && m.questUpdate == ""
    ensures |m.availableActions| == 4 && m.availableActions[0] == "Look around"
    ensures !m.isCombatStart && !m.isCombatEnd
  {
    MechanicsDecision()
  }

  // ---------------------------------------------------------------- model tier

  /**
   * `_pick_model(heavy=False)`, given the settings `gemini_model` and
   * `gemini_model_heavy`: the heavy model when asked for and configured, else
   * the default one.
   */
  function PickModel(model: string, heavyModel: string, heavy: bool := false): (m: string)
    ensures m == model || m == heavyModel
    ensures heavy && heavyModel != "" ==> m == heavyModel
    ensures !heavy ==> m == model
    ensures heavyModel == "" ==> m == model
  {
    if heavy && heavyModel != "" then heavyModel else model
  }

  // ---------------------------------------------------------------- errors

  /** `GeminiError`: the failed operation and the text of the exception that caused it. */
  datatype GeminiError = GeminiError(operation: string, original: string)

  /** `str(GeminiError(op, e))`. */
  function Message(e: GeminiError): string {
    "Gemini [" + e.operation + "]: " + e.original
  }

  /**
   * The operation and the cause can be read back from the message: the
   * operation runs from after `"Gemini ["` to the first `]`.
   */
  lemma MessageParts(e: GeminiError)
    requires ']' !in e.operation
    ensures var m := Message(e); var n := |e.operation|;
      && StartsWith(m, "Gemini [")
      && IndexOf(m[8..], ']') == n
      && m[8..8 + n] == e.operation
      && m[8 + n + 3..] == e.original
  {
    var m := Message(e);
    var n := |e.operation|;
    assert m[8..] == e.operation + "]: " + e.original;
    assert (m[8..])[n] == ']';
  }

  const Warning := "\U{26A0}\U{FE0F} "
  const GeoBlockedRu := Warning + "API недоступен из региона. Проверь GEMINI_PROXY."
  const GeoBlockedEn := Warning + "API geo-blocked. Check GEMINI_PROXY."
  const RateLimitedRu := Warning + "Лимит запросов. Подожди минуту."
  const RateLimitedEn := Warning + "Rate limited. Wait a minute."
  const BadKeyRu := Warning + "Неверный API-ключ."
  const BadKeyEn := Warning + "Invalid API key."
  const OtherRu := Warning + "Ошибка AI: "
  const OtherEn := Warning + "AI error: "

  predicate IsGeoBlocked(s: string) { Contains(s, "location") }
  predicate IsRateLimited(s: string) { Contains(s, "429") || Contains(s, "RESOURCE_EXHAUSTED") }
  predicate IsBadKey(s: string) { Contains(s, "API key") || Contains(s, "401") }

  /** `GeminiError.user_message`, given `str(self.original)`. */
  function UserMessage(original: string, lang: string): (m: string)
    ensures StartsWith(m, Warning) && |m| <= |OtherRu| + 150
    ensures var ru := lang == "ru";
      && (IsGeoBlocked(original) ==> m == (if ru then GeoBlockedRu else GeoBlockedEn))
      && (!IsGeoBlocked(original) && IsRateLimited(original) ==> m == (if ru then RateLimitedRu else RateLimitedEn))
      && (!IsGeoBlocked(original) && !IsRateLimited(original) && IsBadKey(original)
          ==> m == (if ru then BadKeyRu else BadKeyEn))
    ensures !IsGeoBlocked(original) && !IsRateLimited(original) && !IsBadKey(original) ==>
      var prefix := if lang == "ru" then OtherRu else OtherEn;
      && StartsWith(m, prefix)
      && m[|prefix|..] == original[..if |original| < 150 then |original| else 150]
  {
    var s := original;
    var ru := lang == "ru";
    if IsGeoBlocked(s) then (if ru then GeoBlockedRu else GeoBlockedEn)
    else if IsRateLimited(s) then (if ru then RateLimitedRu else RateLimitedEn)
    else if IsBadKey(s) then (if ru then BadKeyRu else BadKeyEn)
    else (if ru then OtherRu else OtherEn) + SliceTo(s, 150)
  }

  /** Only the exact language code `"ru"` selects Russian; every other code reads as English. */
  lemma UserMessageEnglishUnlessRu(original: string, lang: string)
    requires lang != "ru"
    ensures UserMessage(original, lang) == UserMessage(original, "en")
  {
  }

  /** The two languages never produce the same message for a cause. */
  lemma UserMessageLanguagesDiffer(original: string)
    ensures UserMessage(original, "ru") != UserMessage(original, "en")
  {
    FixedMessagesDiffer();
    if !IsGeoBlocked(original) && !IsRateLimited(original) && !IsBadKey(original) {
      var w := |Warning|;
      var tail := SliceTo(original, 150);
      DiffersAfterWarning(OtherRu[w..] + tail, OtherEn[w..] + tail, 0);
      assert UserMessage(original, "ru") == Warning + (OtherRu[w..] + tail);
      assert UserMessage(original, "en") == Warning + (OtherEn[w..] + tail);
    }
  }

  /** Each fixed message differs between the two languages. */
  lemma FixedMessagesDiffer()
    ensures GeoBlockedRu != GeoBlockedEn
    ensures RateLimitedRu != RateLimitedEn
    ensures BadKeyRu != BadKeyEn
  {
    DiffersAfterWarning("API недоступен из региона. Проверь GEMINI_PROXY.", "API geo-blocked. Check GEMINI_PROXY.", 4);
    DiffersAfterWarning("Лимит запросов. Подожди минуту.", "Rate limited. Wait a minute.", 0);
    DiffersAfterWarning("Неверный API-ключ.", "Invalid API key.", 0);
  }

  lemma DiffersAfterWarning(a: string, b: string, k: nat)
    requires k < |a| && k < |b| && a[k] != b[k]
    ensures Warning + a != Warning + b
  {
    assert (Warning + a)[|Warning| + k] == a[k];
    assert (Warning + b)[|Warning| + k] == b[k];
  }

  // ---------------------------------------------------------------- response text

  /** The outcome of one Python subscript `v[k]`. */
  datatype Subscript =
    | Value(v: Json)
    | LookupFailed      // KeyError or IndexError, which `_extract_text` catches
    | NotSubscriptable  // TypeError, which it lets through

  /** One step of a subscript path: a dict key, or index 0. */
  datatype Step = Key(key: string) | First

  /** `v[step]` on a JSON-decoded value. */
  function Subscribe(v: Json, step: Step): Subscript {
    match step
    case Key(k) =>
      (match v
       case JObj(fields) => (match Lookup(fields, k) case Some(x) => Value(x) case None => LookupFailed)
       case _ => NotSubscriptable)
    case First =>
      (match v
       case JArr(items) => if |items| == 0 then LookupFailed else Value(items[0])
       case JStr(s) => if |s| == 0 then LookupFailed else Value(JStr(s[..1]))
       case JObj(_) => LookupFailed  // a decoded dict has only string keys: KeyError(0)
       case _ => NotSubscriptable)
  }

  /** `v[p0][p1]...`, stopping at the first failing subscript. */
  function Walk(v: Json, path: seq<Step>): (r: Subscript)
    ensures path == [] ==> r == Value(v)
    decreases |path|
  {
    if |path| == 0 then Value(v)
    else match Subscribe(v, path[0])
      case Value(x) => Walk(x, path[1..])
      case failed => failed
  }

  /** `data["candidates"][0]["content"]["parts"][0]["text"]`. */
  const TextPath: seq<Step> := [Key("candidates"), First, Key("content"), Key("parts"), First, Key("text")]

  const NoTextPrefix := "No text in response: "

  /** What `_extract_text` raises instead of returning. */
  datatype ExtractError = Parse(error: GeminiError) | TypeError

  /** `_extract_text`. */
  function ExtractText(data: Json): (r: Result<Json, ExtractError>)
    ensures !data.JObj? ==> r == Err(TypeError)
    ensures r.Err? && r.error.Parse? ==>
      var e := r.error.error;
      && e.operation == "parse"
      && StartsWith(e.original, NoTextPrefix)
      && var cut := e.original[|NoTextPrefix|..];
         StartsWith(Dumps(data), cut) && |cut| == (if |Dumps(data)| < 200 then |Dumps(data)| else 200)
  {
    match Walk(data, TextPath)
    case Value(t) => Ok(t)
    case LookupFailed => Err(Parse(GeminiError("parse", NoTextPrefix + SliceTo(Dumps(data), 200))))
    case NotSubscriptable => Err(TypeError)
  }

  /**
   * A response whose first candidate has a `content` dict whose `parts` list
   * starts with a dict holding `text` yields that text, whatever other keys
   * each dict carries (`finishReason`, `role` and so on).
   */
  lemma ExtractFromWellFormed(data: Json, candidates: seq<Json>, content: Json, parts: seq<Json>, text: Json)
    requires data.JObj? && Field(data.fields, "candidates", JArr(candidates))
    requires |candidates| > 0 && candidates[0].JObj? && Field(candidates[0].fields, "content", content)
    requires content.JObj? && Field(content.fields, "parts", JArr(parts))
    requires |parts| > 0 && parts[0].JObj? && Field(parts[0].fields, "text", text)
    ensures ExtractText(data) == Ok(text)
  {
    FieldLookup(data.fields, "candidates", JArr(candidates));
    FieldLookup(candidates[0].fields, "content", content);
    FieldLookup(content.fields, "parts", JArr(parts));
    FieldLookup(parts[0].fields, "text", text);
    assert Walk(parts[0], TextPath[5..]) == Value(text);
    assert Walk(JArr(parts), TextPath[4..]) == Value(text);
    assert Walk(content, TextPath[3..]) == Value(text);
    assert Walk(candidates[0], TextPath[2..]) == Value(text);
    assert Walk(JArr(candidates), TextPath[1..]) == Value(text);
  }

  /** The text is returned only from such a response, and it is the first part's `text`. */
  lemma ExtractOnlyFromWellFormed(data: Json) returns (candidates: seq<Json>, content: Json, parts: seq<Json>)
    requires ExtractText(data).Ok?
    ensures data.JObj? && Field(data.fields, "candidates", JArr(candidates))
    ensures |candidates| > 0 && candidates[0].JObj? && Field(candidates[0].fields, "content", content)
    ensures content.JObj? && Field(content.fields, "parts", JArr(parts))
    ensures |parts| > 0 && parts[0].JObj? && Field(parts[0].fields, "text", ExtractText(data).value)
  {
    var c := Lookup(data.fields, "candidates").value;
    LookupFinds(data.fields, "candidates");
    candidates := c.items;
    var first := candidates[0];
    content := Lookup(first.fields, "content").value;
    LookupFinds(first.fields, "content");
    var ps := Lookup(content.fields, "parts").value;
    LookupFinds(content.fields, "parts");
    parts := ps.items;
    LookupFinds(parts[0].fields, "text");
  }

  /** `v[step]` raises KeyError or IndexError: a dict without the key, or nothing at index 0. */
  predicate Missing(v: Json, step: Step) {
    match step
    case Key(k) => v.JObj? && Absent(v.fields, k)
    case First => v == JArr([]) || v == JStr("") || v.JObj?
  }

  /** Walking a path goes through the value its first `i` steps reach. */
  lemma {:induction false} WalkThrough(x: Json, path: seq<Step>, i: nat, v: Json)
    requires i <= |path| && Walk(x, path[..i]) == Value(v)
    ensures Walk(x, path) == Walk(v, path[i..])
    decreases i
  {
    if i > 0 {
      assert path[..i][0] == path[0] && path[..i][1..] == path[1..][..i - 1];
      var y := Subscribe(x, path[0]).v;
      WalkThrough(y, path[1..], i - 1, v);
      assert path[1..][i - 1..] == path[i..];
    }
  }

  /**
   * When the path reaches a dict without the next key, an empty list, or a
   * dict indexed by 0, at any of its six steps, the response is a parse error
   * carrying the start of its dump.
   */
  lemma ExtractFailsWhereMissing(data: Json, i: nat, v: Json)
    requires i < |TextPath| && Walk(data, TextPath[..i]) == Value(v) && Missing(v, TextPath[i])
    ensures ExtractText(data) == Err(Parse(GeminiError("parse", NoTextPrefix + SliceTo(Dumps(data), 200))))
  {
    WalkThrough(data, TextPath, i, v);
    if TextPath[i].Key? {
      AbsentLookup(v.fields, TextPath[i].key);
    }
    assert Subscribe(v, TextPath[i]) == LookupFailed;
  }

  /** A dict response without `candidates` (an error body, say) is a parse error. */
  lemma ExtractWithoutCandidates(fields: seq<(string, Json)>)
    requires Absent(fields, "candidates")
    ensures ExtractText(JObj(fields)) == Err(Parse(GeminiError("parse", NoTextPrefix + SliceTo(Dumps(JObj(fields)), 200))))
  {
    ExtractFailsWhereMissing(JObj(fields), 0, JObj(fields));
  }

  /** An empty candidate list is a parse error too (IndexError), whatever else the response holds. */
  lemma ExtractWithNoCandidate(data: Json)
    requires data.JObj? && Field(data.fields, "candidates", JArr([]))
    ensures ExtractText(data) == Err(Parse(GeminiError("parse", NoTextPrefix + SliceTo(Dumps(data), 200))))
  {
    FieldLookup(data.fields, "candidates", JArr([]));
    assert TextPath[..1] == [Key("candidates")];
    ExtractFailsWhereMissing(data, 1, JArr([]));
  }

  /** A first candidate whose content has an empty `parts` list is a parse error. */
  lemma ExtractWithNoParts(data: Json, candidates: seq<Json>, content: Json)
    requires data.JObj? && Field(data.fields, "candidates", JArr(candidates))
    requires |candidates| > 0 && candidates[0].JObj? && Field(candidates[0].fields, "content", content)
    requires content.JObj? && Field(content.fields, "parts", JArr([]))
    ensures ExtractText(data) == Err(Parse(GeminiError("parse", NoTextPrefix + SliceTo(Dumps(data), 200))))
  {
    FieldLookup(data.fields, "candidates", JArr(candidates));
    FieldLookup(candidates[0].fields, "content", content);
    FieldLookup(content.fields, "parts", JArr([]));
    var path := TextPath[..4];
    assert path[1..][1..][1..][1..] == [];
    assert Walk(content, path[1..][1..][1..]) == Value(JArr([]));
    assert Walk(candidates[0], path[1..][1..]) == Value(JArr([]));
    assert Walk(JArr(candidates), path[1..]) == Value(JArr([]));
    assert Walk(data, path) == Value(JArr([]));
    ExtractFailsWhereMissing(data, 4, JArr([]));
  }
}
