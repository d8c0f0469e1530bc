/**
 * Telegram output helpers: the HTML dice-roll line and the cut that keeps a
 * long HTML message under Telegram's length limit without leaving a tag
 * half-written or an allowed tag unclosed.
 */
module Formatters {
  import opened Text
  import Dice

  // ---------------------------------------------------------------- format_dice_roll

  const DiceEmoji := "\U{1F3B2} "
  const Nat20Tag := " \U{1F31F} <b>NAT 20!</b>"
  const Nat1Tag := " \U{1F480} <b>NAT 1!</b>"

  /** The opening of `format_dice_roll`: the die emoji, then `"reason: "` when there is a reason. */
  function ReasonPrefix(reason: string): string {
    if reason != "" then DiceEmoji + reason + ": " else DiceEmoji
  }

  /** The closing of `format_dice_roll`: a NAT 20 tag, else a NAT 1 tag, else nothing. */
  function NaturalBadge(nat20: bool, nat1: bool): string {
    if nat20 then Nat20Tag else if nat1 then Nat1Tag else ""
  }

  /** The part between the prefix and the badge, ending with the bold total. */
  function RollBody(diceStr: string, rolls: seq<int>, modifier: int, total: int): (s: string)
    ensures StartsWith(s, diceStr + Dice.ModifierText(modifier) + " = [")
    ensures EndsWith(s, " = <b>" + IntToString(total) + "</b>")
  {
    var head := diceStr + Dice.ModifierText(modifier) + " = [";
    var mid := Dice.RollsText(rolls) + "]" + Dice.ModifierText(modifier);
    var last := " = <b>" + IntToString(total) + "</b>";
    ConcatEnds(head, mid + last);
    ConcatEnds(mid, last);
    EndsWithExtend(head, mid + last, last);
    head + (mid + last)
  }

  /** `format_dice_roll`. */
  function FormatDiceRoll(diceStr: string, rolls: seq<int>, modifier: int, total: int,
                          reason: string := "", nat20: bool := false, nat1: bool := false): (s: string)
    ensures reason != "" ==> StartsWith(s, DiceEmoji + reason + ": " + diceStr)
    ensures reason == "" ==> StartsWith(s, DiceEmoji + diceStr)
    ensures nat20 ==> EndsWith(s, Nat20Tag)
    ensures !nat20 && nat1 ==> EndsWith(s, Nat1Tag)
    ensures !nat20 && !nat1 ==> EndsWith(s, " = <b>" + IntToString(total) + "</b>")
  {
    var prefix := ReasonPrefix(reason);
    var body := RollBody(diceStr, rolls, modifier, total);
    var badge := NaturalBadge(nat20, nat1);
    ConcatEnds(prefix + body, badge);
    ConcatEnds(prefix, body);
    assert StartsWith(body, diceStr);
    assert (prefix + body + badge)[..|prefix| + |diceStr|] == prefix + diceStr by {
      assert (prefix + body + badge)[..|prefix| + |body|] == prefix + body;
    }
    EndsWithExtend(prefix, body, " = <b>" + IntToString(total) + "</b>");
    assert badge == "" ==> prefix + body + badge == prefix + body;
    prefix + body + badge
  }

  /** The signed modifier follows the dice text when it is nonzero, and nothing does when it is zero. */
  lemma ModifierShownIffNonzero(diceStr: string, rolls: seq<int>, modifier: int, total: int,
                                reason: string, nat20: bool, nat1: bool)
    ensures var line := FormatDiceRoll(diceStr, rolls, modifier, total, reason, nat20, nat1);
      && (modifier == 0 ==> StartsWith(line, ReasonPrefix(reason) + diceStr + " = ["))
      && (modifier != 0 ==> StartsWith(line, ReasonPrefix(reason) + diceStr + " " + SignedString(modifier) + " = ["))
  {
    var prefix := ReasonPrefix(reason);
    var body := RollBody(diceStr, rolls, modifier, total);
    var badge := NaturalBadge(nat20, nat1);
    assert FormatDiceRoll(diceStr, rolls, modifier, total, reason, nat20, nat1) == prefix + body + badge;
    StartsWithInside(prefix, body, badge, diceStr + Dice.ModifierText(modifier) + " = [");
    ModifierHead(prefix, diceStr, modifier);
  }

  lemma ModifierHead(prefix: string, diceStr: string, modifier: int)
    ensures modifier == 0
      ==> prefix + (diceStr + Dice.ModifierText(modifier) + " = [") == prefix + diceStr + " = ["
    ensures modifier != 0
      ==> prefix + (diceStr + Dice.ModifierText(modifier) + " = [")
          == prefix + diceStr + " " + SignedString(modifier) + " = ["
  {
  }

  // ---------------------------------------------------------------- truncate_for_telegram

  /** The tags whose unclosed openings a truncation closes, in the order it closes them. */
  const AllowedTags: seq<string> := ["b", "i", "u", "s", "code", "pre", "blockquote"]

  function Closer(tag: string): string { "</" + tag + ">" }

  /** `s` written `n` times. */
  function Repeat(s: string, n: nat): (r: string)
    ensures |r| == n * |s|
  {
    if n == 0 then "" else Repeat(s, n - 1) + s
  }

  /** `max(0, opens - closes)`: how many closers `range(opens - closes)` appends for `tag`. */
  function Missing(cut: string, tag: string): nat {
    var opens := Count(cut, "<" + tag + ">") + Count(cut, "<" + tag + " ");
    var closes := Count(cut, Closer(tag));
    if opens > closes then opens - closes else 0
  }

  /**
   * The closing-tag loop: for each tag in turn, the closers missing from the
   * text as it stands after the earlier tags' closers were appended.
   */
  function CloseTags(cut: string, tags: seq<string>): (r: string)
    ensures StartsWith(r, cut)
    decreases |tags|
  {
    if |tags| == 0 then cut
    else
      var next := cut + Repeat(Closer(tags[0]), Missing(cut, tags[0]));
      var r := CloseTags(next, tags[1..]);
      assert r[..|cut|] == r[..|next|][..|cut|];
      r
  }

  /**
   * `text[:max_length - 20]`, less a trailing `<...` fragment when the last
   * `<` comes after the last `>`. A negative bound counts from the end, as
   * Python's slice does.
   */
  function Kept(text: string, maxLength: int): (kept: string)
    ensures StartsWith(text, kept)
    ensures |kept| <= SliceBound(|text|, maxLength - 20)
    ensures |kept| < SliceBound(|text|, maxLength - 20) ==>
      && text[|kept|] == '<'
      && forall k :: |kept| <= k < SliceBound(|text|, maxLength - 20) ==> text[k] != '>'
  {
    var cut := SliceTo(text, maxLength - 20);
    var openTag := RFind(cut, '<');
    var closeTag := RFind(cut, '>');
    if openTag > closeTag then cut[..openTag] else cut
  }

  /**
   * The cut is shortened exactly when it holds a `<` with no `>` after it,
   * and then it is shortened to just before its last `<`.
   */
  lemma KeptDropsDanglingTag(text: string, maxLength: int)
    ensures var b := SliceBound(|text|, maxLength - 20);
      var kept := Kept(text, maxLength);
      && (|kept| < b ==> forall k :: |kept| < k < b ==> text[k] != '<')
      && (|kept| < b <==> DanglingOpen(text, b))
  {
    var b := SliceBound(|text|, maxLength - 20);
    var cut := SliceTo(text, maxLength - 20);
    var openTag := RFind(cut, '<');
    var closeTag := RFind(cut, '>');
    assert forall k :: 0 <= k < b ==> text[k] == cut[k];
    if openTag > closeTag {
      assert text[openTag] == '<';
    }
  }

  /** The first `bound` characters hold a `<` with no `>` after it. */
  predicate DanglingOpen(text: string, bound: nat)
    requires bound <= |text|
  {
    exists k :: 0 <= k < bound && text[k] == '<' && forall j :: k < j < bound ==> text[j] != '>'
  }

  /** What `truncate_for_telegram` returns. */
  function Truncated(text: string, maxLength: int): (r: string)
    ensures |text| <= maxLength ==> r == text
    ensures |text| > maxLength ==>
      && StartsWith(r, Kept(text, maxLength))
      && EndsWith(r, "...")
  {
    if |text| <= maxLength then text
    else
      var closed := CloseTags(Kept(text, maxLength), AllowedTags);
      ConcatEnds(closed, "...");
      assert (closed + "...")[..|Kept(text, maxLength)|] == closed[..|Kept(text, maxLength)|];
      closed + "..."
  }

  /** `truncate_for_telegram`. */
  method TruncateForTelegram(text: string, maxLength: int := 4000) returns (r: string)
    ensures r == Truncated(text, maxLength)
  {
    if |text| <= maxLength {
      return text;
    }
    var cut := SliceTo(text, maxLength - 20);
    var openTag := RFind(cut, '<');
    var closeTag := RFind(cut, '>');
    if openTag > closeTag {
      cut := cut[..openTag];
    }
    assert cut == Kept(text, maxLength);
    ghost var kept := cut;
    var t := 0;
    while t < |AllowedTags|
      invariant 0 <= t <= |AllowedTags|
      invariant CloseTags(cut, AllowedTags[t..]) == CloseTags(kept, AllowedTags)
    {
      ghost var before := cut;
      cut := CloseTag(cut, AllowedTags[t]);
      assert AllowedTags[t..][1..] == AllowedTags[t + 1..];
      assert CloseTags(before, AllowedTags[t..]) == CloseTags(cut, AllowedTags[t + 1..]);
      t := t + 1;
    }
    return cut + "...";
  }

  /** One pass of the closing-tag loop: count the openings and closings of `tag`, append what is missing. */
  method CloseTag(cut: string, tag: string) returns (closed: string)
    ensures closed == cut + Repeat(Closer(tag), Missing(cut, tag))
  {
    var opens := Count(cut, "<" + tag + ">") + Count(cut, "<" + tag + " ");
    var closes := Count(cut, Closer(tag));
    closed := cut;
    var k := 0;
    while k < opens - closes
      invariant 0 <= k <= (if opens > closes then opens - closes else 0)
      invariant closed == cut + Repeat(Closer(tag), k)
    {
      assert Repeat(Closer(tag), k + 1) == Repeat(Closer(tag), k) + Closer(tag);
      closed := closed + Closer(tag);
      k := k + 1;
    }
    assert k == Missing(cut, tag);
  }

  /** `p` occurs in `s` at position `i`. */
  predicate OccursAt(s: string, p: string, i: nat) {
    i + |p| <= |s| && s[i..i + |p|] == p
  }

  /** `s.count(p)` is 0 when `p` occurs nowhere in `s`. */
  lemma {:induction false} CountAbsent(s: string, p: string)
    requires |p| > 0
    requires forall i: nat :: !OccursAt(s, p, i)
    ensures Count(s, p) == 0
    decreases |s|
  {
    if |s| >= |p| {
      assert !OccursAt(s, p, 0);
      assert s[..|p|] == s[0..|p|];
      forall i: nat
        ensures !OccursAt(s[1..], p, i)
      {
        assert !OccursAt(s, p, i + 1);
        if i + |p| <= |s| - 1 {
          assert s[1..][i..i + |p|] == s[i + 1..i + 1 + |p|];
        }
      }
      CountAbsent(s[1..], p);
    }
  }

  /** A pattern starting with `<` occurs only where the text has a `<`. */
  lemma AngleAbsent(s: string, p: string, allowed: set<nat>)
    requires |p| > 0 && p[0] == '<'
    requires forall i :: 0 <= i < |s| && s[i] == '<' ==> i in allowed
    requires forall i :: i in allowed ==> !OccursAt(s, p, i)
    ensures Count(s, p) == 0
  {
    forall i: nat
      ensures !OccursAt(s, p, i)
    {
      if i + |p| <= |s| && s[i] != '<' {
        assert s[i..i + |p|][0] != p[0];
      }
    }
    CountAbsent(s, p);
  }

  /** Tags that need no closer leave the text as it is. */
  lemma {:induction false} CloseTagsNothingMissing(s: string, tags: seq<string>)
    requires forall t :: 0 <= t < |tags| ==> Missing(s, tags[t]) == 0
    ensures CloseTags(s, tags) == s
    decreases |tags|
  {
    if |tags| > 0 {
      assert s + Repeat(Closer(tags[0]), 0) == s;
      CloseTagsNothingMissing(s, tags[1..]);
    }
  }

  /** Text free of markup characters. */
  predicate Plain(x: string) {
    forall k :: 0 <= k < |x| ==> x[k] != '<' && x[k] != '>'
  }

  /** In `<b>x</b>` with plain `x`, no opening of another tag occurs. */
  lemma NoOtherOpening(x: string, p: string)
    requires Plain(x)
    requires |p| >= 3 && p[0] == '<' && p[1] != '/' && (p[1] == 'b' ==> p[2] != '>')
    ensures Count("<b>" + x + "</b>", p) == 0
  {
    var s := "<b>" + x + "</b>";
    forall i | 0 <= i < |s| && s[i] == '<'
      ensures i in {0, |s| - 4}
    {
    }
    forall i | i in {0, |s| - 4}
      ensures !OccursAt(s, p, i)
    {
      if i + |p| <= |s| {
        assert s[i..i + |p|][1] == s[i + 1];
        if i == 0 && p[1] == 'b' {
          assert s[i..i + |p|][2] == s[2];
        }
      }
    }
    AngleAbsent(s, p, {0, |s| - 4});
  }

  /**
   * A message that opens `<b>` and is cut inside the bold text gets its
   * `</b>` back before the ellipsis, and nothing else.
   */
  lemma TruncateClosesBold(x: string, maxLength: int)
    requires Plain(x)
    requires 23 <= maxLength < |x| + 3
    ensures Truncated("<b>" + x, maxLength) == "<b>" + x[..maxLength - 23] + "</b>" + "..."
  {
    KeptInsideBold(x, maxLength);
    CloseTagsAfterBold(x[..maxLength - 23]);
  }

  /** Cutting `<b>x` inside `x` leaves the `<b>` and a prefix of `x`. */
  lemma KeptInsideBold(x: string, maxLength: int)
    requires Plain(x)
    requires 23 <= maxLength < |x| + 3
    ensures Kept("<b>" + x, maxLength) == "<b>" + x[..maxLength - 23]
  {
    var text := "<b>" + x;
    var cut := "<b>" + x[..maxLength - 23];
    assert SliceTo(text, maxLength - 20) == cut;
    assert cut[0] == '<' && cut[2] == '>';
    assert RFind(cut, '<') == 0 by {
      assert forall k :: 0 < k < |cut| ==> cut[k] != '<' by {
        forall k | 3 <= k < |cut| ensures cut[k] != '<' { assert cut[k] == x[k - 3]; }
      }
    }
    assert RFind(cut, '>') == 2 by {
      assert forall k :: 2 < k < |cut| ==> cut[k] != '>' by {
        forall k | 3 <= k < |cut| ensures cut[k] != '>' { assert cut[k] == x[k - 3]; }
      }
    }
  }

  /** Closing `<b>y` appends one `</b>` and nothing for the other tags. */
  lemma CloseTagsAfterBold(y: string)
    requires Plain(y)
    ensures CloseTags("<b>" + y, AllowedTags) == "<b>" + y + "</b>"
  {
    BoldMissingOnce(y);
    var closed := "<b>" + y + "</b>";
    assert Repeat(Closer("b"), 1) == "</b>";
    assert ("<b>" + y) + Repeat(Closer(AllowedTags[0]), Missing("<b>" + y, AllowedTags[0])) == closed;
    var rest := AllowedTags[1..];
    forall t | 0 <= t < |rest|
      ensures Missing(closed, rest[t]) == 0
    {
      NoOtherOpening(y, "<" + rest[t] + ">");
      NoOtherOpening(y, "<" + rest[t] + " ");
    }
    CloseTagsNothingMissing(closed, rest);
  }

  /** `<b>y` with plain `y` has one opening `<b>` and no closer. */
  lemma BoldMissingOnce(y: string)
    requires Plain(y)
    ensures Missing("<b>" + y, "b") == 1
  {
    var s := "<b>" + y;
    forall i | 0 <= i < |s| && s[i] == '<'
      ensures i in {0}
    {
    }
    assert !OccursAt(s, "<b ", 0) by {
      if 3 <= |s| { assert s[0..3][2] == '>'; }
    }
    AngleAbsent(s, "<b ", {0});
    assert !OccursAt(s, "</b>", 0) by {
      if 4 <= |s| { assert s[0..4][1] == 'b'; }
    }
    AngleAbsent(s, "</b>", {0});
    assert StartsWith(s, "<b>");
    assert s[3..] == y;
    AngleAbsent(y, "<b>", {});
    assert Count(s, "<b>") == 1;
    assert "<" + "b" + ">" == "<b>" && "<" + "b" + " " == "<b " && Closer("b") == "</b>";
  }
}
