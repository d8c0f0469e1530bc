/**
 * The dice engine: normalising loosely written dice text to `NdM`, rolling
 * it with a modifier and advantage/disadvantage, and rolling ability scores.
 *
 * Randomness is an entropy stream `rng` read from a cursor `at`: the k-th
 * draw of `secrets.randbelow(n)` is `rng(k) % n`, so every outcome of the
 * real source can occur, and each roll returns the cursor after its draws.
 */
module Dice {
  import opened Wrappers
  import opened Text

  type Entropy = nat -> nat

  /** `secrets.randbelow(n)`: a value in `[0, n)`; `n == 0` raises ValueError. */
  function RandBelow(n: nat, u: nat): (r: nat)
    requires n > 0
    ensures r < n
    ensures u < n ==> r == u
  {
    u % n
  }

  /** `_roll_die(sides)`: one face in `[1, sides]`. */
  function RollDie(sides: nat, rng: Entropy, at: nat): (face: int)
    requires sides > 0
    ensures 1 <= face <= sides
  {
    RandBelow(sides, rng(at)) + 1
  }

  // ---------------------------------------------------------------- arithmetic

  function Sum(s: seq<int>): int {
    if s == [] then 0 else s[0] + Sum(s[1..])
  }

  function Max(a: int, b: int): int { if a >= b then a else b }

  function Min(a: int, b: int): int { if a <= b then a else b }

  /** The smallest element of a non-empty sequence. */
  function Least(s: seq<int>): (r: int)
    requires |s| > 0
    ensures r in s
    ensures forall k :: 0 <= k < |s| ==> r <= s[k]
  {
    if |s| == 1 then s[0] else Min(s[0], Least(s[1..]))
  }

  lemma {:induction false} SumConcat(a: seq<int>, b: seq<int>)
    ensures Sum(a + b) == Sum(a) + Sum(b)
  {
    if a == [] {
      assert a + b == b;
    } else {
      assert (a + b)[0] == a[0];
      assert (a + b)[1..] == a[1..] + b;
      SumConcat(a[1..], b);
    }
  }

  /** Taking out the element at `k` takes its value out of the sum and the multiset. */
  lemma {:induction false} SumRemove(b: seq<int>, k: nat)
    requires k < |b|
    ensures Sum(b) == b[k] + Sum(b[..k] + b[k + 1..])
    ensures multiset(b[..k] + b[k + 1..]) == multiset(b) - multiset{b[k]}
  {
    var front, back := b[..k], b[k + 1..];
    assert b == front + ([b[k]] + back);
    SumConcat(front, [b[k]] + back);
    assert ([b[k]] + back)[1..] == back;
    assert Sum([b[k]] + back) == b[k] + Sum(back);
    SumConcat(front, back);
    assert multiset(b) == multiset(front) + multiset{b[k]} + multiset(back);
  }

  /** A sum does not depend on the order of its terms. */
  lemma {:induction false} SumPermutation(a: seq<int>, b: seq<int>)
    requires multiset(a) == multiset(b)
    ensures Sum(a) == Sum(b)
  {
    if a == [] {
      assert |b| == |multiset(b)| == 0;
    } else {
      var x := a[0];
      assert x in multiset(b);
      var k :| 0 <= k < |b| && b[k] == x;
      SumRemove(b, k);
      assert a == [x] + a[1..];
      assert multiset(a[1..]) == multiset(a) - multiset{x};
      SumPermutation(a[1..], b[..k] + b[k + 1..]);
    }
  }

  /** Faces in `[lo, hi]` give a sum in `[n * lo, n * hi]`. */
  lemma {:induction false} SumBounds(s: seq<int>, lo: int, hi: int)
    requires forall k :: 0 <= k < |s| ==> lo <= s[k] <= hi
    ensures |s| * lo <= Sum(s) <= |s| * hi
  {
    if s != [] {
      SumBounds(s[1..], lo, hi);
    }
  }

  // ---------------------------------------------------------------- _sanitize_dice

  /** The end of the run of digits that starts at `i`. */
  function DigitRunEnd(s: string, i: nat): (j: nat)
    requires i <= |s|
    ensures i <= j <= |s|
    ensures forall k :: i <= k < j ==> IsDigit(s[k])
    ensures j < |s| ==> !IsDigit(s[j])
    decreases |s| - i
  {
    if i < |s| && IsDigit(s[i]) then DigitRunEnd(s, i + 1) else i
  }

  /** The end of the run of whitespace that starts at `i`. */
  function SpaceRunEnd(s: string, i: nat): (j: nat)
    requires i <= |s|
    ensures i <= j <= |s|
    ensures forall k :: i <= k < j ==> IsSpace(s[k])
    ensures j < |s| ==> !IsSpace(s[j])
    decreases |s| - i
  {
    if i < |s| && IsSpace(s[i]) then SpaceRunEnd(s, i + 1) else i
  }

  /**
   * A match of the pattern `(\d+)\s*d\s*(\d+)` starting exactly at `i`, with its
   * two groups. Greedy runs cannot give back a character here: a digit is
   * neither whitespace nor `d`, and whitespace is not `d` or a digit.
   */
  function MatchAt(s: string, i: nat): Option<(string, string)>
    requires i <= |s|
  {
    if i < |s| && IsDigit(s[i]) then
      var j := DigitRunEnd(s, i);
      var k := SpaceRunEnd(s, j);
      if k < |s| && s[k] == 'd' then
        var l := SpaceRunEnd(s, k + 1);
        if l < |s| && IsDigit(s[l]) then Some((s[i..j], s[l..DigitRunEnd(s, l)])) else None
      else None
    else None
  }

  /** `re.search` from position `i`: the leftmost position where the pattern matches. */
  function FirstMatch(s: string, i: nat): (r: Option<(nat, string, string)>)
    requires i <= |s|
    ensures r.None? ==> forall k :: i <= k <= |s| ==> MatchAt(s, k).None?
    ensures r.Some? ==> i <= r.value.0 <= |s| && MatchAt(s, r.value.0) == Some((r.value.1, r.value.2))
    ensures r.Some? ==> forall k :: i <= k < r.value.0 ==> MatchAt(s, k).None?
    decreases |s| - i
  {
    match MatchAt(s, i)
    case Some((a, b)) => Some((i, a, b))
    case None =>
      if i == |s| then None
      else
        var r := FirstMatch(s, i + 1);
        r
  }

  /** Canonical dice text: digits, one `d`, digits. */
  predicate Canonical(s: string) {
    var k := IndexOf(s, 'd');
    0 < k < |s| - 1 && AllDigits(s[..k]) && AllDigits(s[k + 1..])
  }

  lemma CanonicalOf(a: string, b: string)
    requires |a| > 0 && |b| > 0 && AllDigits(a) && AllDigits(b)
    ensures Canonical(a + "d" + b)
    ensures IndexOf(a + "d" + b, 'd') == |a|
    ensures (a + "d" + b)[..|a|] == a && (a + "d" + b)[|a| + 1..] == b
  {
    var s := a + "d" + b;
    var k := IndexOf(s, 'd');
    assert s[|a|] == 'd';
  }

  /** The die count and the number of sides of canonical dice text. */
  function DiceParts(s: string): (nm: (nat, nat))
    requires Canonical(s)
  {
    var k := IndexOf(s, 'd');
    (DigitsValue(s[..k]), DigitsValue(s[k + 1..]))
  }

  /** `_sanitize_dice`: normalise model-written dice text to canonical `NdM`. */
  function Sanitize(raw: string): (r: string)
    ensures Canonical(r)
    ensures Strip(raw) == [] ==> r == "1d4"
  {
    var t := Lower(Strip(raw));
    if t == [] then "1d4" else SanitizeLowered(t)
  }

  /** The steps of `_sanitize_dice` after stripping and lower-casing: the first `N d M` wins. */
  function SanitizeLowered(t: string): (r: string)
    requires t != []
    ensures Canonical(r)
  {
    match FirstMatch(t, 0)
    case Some((i, a, b)) =>
      assert a == t[i..DigitRunEnd(t, i)];
      CanonicalOf(a, b);
      a + "d" + b
    case None => ShortForm(t)
  }

  /** `"dM"` gains a count of 1, a bare `"M"` becomes `"1dM"`, anything else `"1d4"`. */
  function ShortForm(t: string): (r: string)
    requires t != []
    ensures Canonical(r)
  {
    if t[0] == 'd' && |t| > 1 && AllDigits(t[1..]) then
      CanonicalOf("1", t[1..]);
      assert "1" + t == "1" + "d" + t[1..];
      "1" + t
    else if AllDigits(t) then
      CanonicalOf("1", t);
      "1d" + t
    else "1d4"
  }

  /** For canonical text, `split("d")` gives the two digit groups and `int()` reads them as `DiceParts`. */
  lemma SplitCanonical(s: string)
    requires Canonical(s)
    ensures var k := IndexOf(s, 'd'); Split(s, 'd') == [s[..k], s[k + 1..]]
    ensures var parts := Split(s, 'd');
      PyInt(parts[0]) == Some(DiceParts(s).0 as int) && PyInt(parts[1]) == Some(DiceParts(s).1 as int)
  {
    var k := IndexOf(s, 'd');
    var head, rest := s[..k], s[k + 1..];
    NoDInDigits(rest);
    SplitOnce(s, 'd');
    var parts := Split(s, 'd');
    assert parts[0] == head && parts[1] == rest;
    assert DiceParts(s) == (DigitsValue(head), DigitsValue(rest));
    PyIntOfDigits(head);
    PyIntOfDigits(rest);
  }

  lemma NoDInDigits(t: string)
    requires AllDigits(t)
    ensures IndexOf(t, 'd') == |t|
  {
    assert forall i :: 0 <= i < |t| ==> t[i] != 'd';
  }

  /** Canonical text matches the dice pattern at its first character, with its own two groups. */
  lemma CanonicalMatchesAtStart(s: string)
    requires Canonical(s)
    ensures var k := IndexOf(s, 'd'); MatchAt(s, 0) == Some((s[..k], s[k + 1..]))
  {
    var k := IndexOf(s, 'd');
    var head, rest := s[..k], s[k + 1..];
    forall i | 0 <= i < k ensures IsDigit(s[i]) { assert s[i] == head[i]; }
    forall i | k + 1 <= i < |s| ensures IsDigit(s[i]) { assert s[i] == rest[i - k - 1]; }
    assert s[k] == 'd';
    DigitRunEndsAt(s, 0, k);
    SpaceRunEndsAt(s, k, k);
    DigitNotSpace(s[k + 1]);
    SpaceRunEndsAt(s, k + 1, k + 1);
    DigitRunEndsAt(s, k + 1, |s|);
    assert s[0..k] == head && s[k + 1..|s|] == rest;
    MatchesAt(s, 0, k, k, k + 1, |s|, head, rest);
  }

  /** Canonical text has no surrounding whitespace and no capital letters. */
  lemma CanonicalIsNormal(s: string)
    requires Canonical(s)
    ensures Strip(s) == s && Lower(s) == s
  {
    var k := IndexOf(s, 'd');
    var head, rest := s[..k], s[k + 1..];
    assert IsDigit(s[0]) by { assert s[0] == head[0]; }
    assert IsDigit(s[|s| - 1]) by { assert s[|s| - 1] == rest[|rest| - 1]; }
    DigitNotSpace(s[0]);
    DigitNotSpace(s[|s| - 1]);
    StripKeeps(s);
    forall i | 0 <= i < |s| ensures LowerChar(s[i]) == s[i] {
      if i < k { assert s[i] == head[i]; }
      else if i > k { assert s[i] == rest[i - k - 1]; }
    }
  }

  /** Canonical text is left as it is; hence sanitising twice is sanitising once. */
  lemma SanitizeKeepsCanonical(s: string)
    requires Canonical(s)
    ensures Sanitize(s) == s
  {
    var k := IndexOf(s, 'd');
    CanonicalIsNormal(s);
    assert Lower(Strip(s)) == s;
    CanonicalMatchesAtStart(s);
    assert FirstMatch(s, 0) == Some((0, s[..k], s[k + 1..]));
    RejoinAt(s, k);
  }

  /** Text with a `d` at `k` is the part before it, `d`, and the part after it. */
  lemma RejoinAt(s: string, k: nat)
    requires k < |s| && s[k] == 'd'
    ensures s == s[..k] + "d" + s[k + 1..]
  {
    assert s[..k] + "d" + s[k + 1..] == s[..k] + s[k..];
  }

  lemma SanitizeIdempotent(raw: string)
    ensures Sanitize(Sanitize(raw)) == Sanitize(raw)
  {
    SanitizeKeepsCanonical(Sanitize(raw));
  }

  /** No position of an all-digit tail starts a match: the run of digits reaches the end. */
  lemma NoMatchInDigitTail(t: string, from: nat)
    requires from <= |t| && forall k :: from <= k < |t| ==> IsDigit(t[k])
    ensures forall k :: from <= k <= |t| ==> MatchAt(t, k).None?
  {
    forall k | from <= k <= |t| ensures MatchAt(t, k).None? {
      if k < |t| {
        var j := DigitRunEnd(t, k);
        assert j == |t|;
      }
    }
  }

  /** `"dM"` becomes `"1dM"`. */
  lemma SanitizeBareDie(digits: string)
    requires |digits| > 0 && AllDigits(digits)
    ensures Sanitize("d" + digits) == "1d" + digits
  {
    var t := "d" + digits;
    StripKeeps(t);
    assert Lower(t) == t;
    NoMatchInDigitTail(t, 1);
    assert MatchAt(t, 0).None?;
    assert t[1..] == digits;
  }

  /** A bare integer `"M"` becomes `"1dM"`. */
  lemma SanitizeBareNumber(digits: string)
    requires |digits| > 0 && AllDigits(digits)
    ensures Sanitize(digits) == "1d" + digits
  {
    StripKeeps(digits);
    assert Lower(digits) == digits;
    NoMatchInDigitTail(digits, 0);
  }

  predicate NoDigits(s: string) { forall i :: 0 <= i < |s| ==> !IsDigit(s[i]) }

  predicate AllSpaces(s: string) { forall i :: 0 <= i < |s| ==> IsSpace(s[i]) }

  /** A run of digits that stops at `j` ends there. */
  lemma DigitRunEndsAt(s: string, i: nat, j: nat)
    requires i <= j <= |s| && forall k :: i <= k < j ==> IsDigit(s[k])
    requires j < |s| ==> !IsDigit(s[j])
    ensures DigitRunEnd(s, i) == j
  {
  }

  /** A run of whitespace that stops at `j` ends there. */
  lemma SpaceRunEndsAt(s: string, i: nat, j: nat)
    requires i <= j <= |s| && forall k :: i <= k < j ==> IsSpace(s[k])
    requires j < |s| ==> !IsSpace(s[j])
    ensures SpaceRunEnd(s, i) == j
  {
  }

  /** Runs of digits, whitespace, `d`, whitespace and digits from `i` are a match at `i`. */
  lemma MatchesAt(s: string, i: nat, j: nat, k: nat, l: nat, e: nat, a: string, b: string)
    requires i < |s| && IsDigit(s[i]) && DigitRunEnd(s, i) == j && SpaceRunEnd(s, j) == k
    requires k < |s| && s[k] == 'd' && SpaceRunEnd(s, k + 1) == l
    requires l < |s| && IsDigit(s[l]) && DigitRunEnd(s, l) == e
    requires a == s[i..j] && b == s[l..e]
    ensures MatchAt(s, i) == Some((a, b))
  {
  }

  /** Text that agrees with `x` from `i` on holds `x` there. */
  lemma SliceIs(s: string, i: nat, x: string)
    requires i + |x| <= |s| && forall m :: 0 <= m < |x| ==> s[i + m] == x[m]
    ensures s[i..i + |x|] == x
  {
  }

  /** A match at `i` with no digit before it is the first match. */
  lemma FirstMatchAfterNoDigits(s: string, i: nat, a: string, b: string)
    requires i <= |s| && forall m :: 0 <= m < i ==> !IsDigit(s[m])
    requires MatchAt(s, i) == Some((a, b))
    ensures FirstMatch(s, 0) == Some((i, a, b))
  {
    forall m | 0 <= m < i ensures MatchAt(s, m).None? { }
  }

  /** Where each piece of `p + a + w1 + "d" + w2 + b + q` lies. */
  lemma DiceLayout(s: string, p: string, a: string, w1: string, w2: string, b: string, q: string)
    requires s == p + a + w1 + "d" + w2 + b + q
    requires NoDigits(p) && AllDigits(a) && AllDigits(b) && AllSpaces(w1) && AllSpaces(w2)
    ensures var i, j := |p|, |p| + |a|;
      var k := j + |w1|;
      var l := k + 1 + |w2|;
      && |s| == l + |b| + |q| && s[k] == 'd'
      && (forall m :: 0 <= m < i ==> !IsDigit(s[m]))
      && (forall m :: i <= m < j ==> IsDigit(s[m]))
      && (forall m :: j <= m < k ==> IsSpace(s[m]))
      && (forall m :: k < m < l ==> IsSpace(s[m]))
      && (forall m :: l <= m < l + |b| ==> IsDigit(s[m]))
      && s[i..j] == a && s[l..l + |b|] == b
      && (|q| > 0 ==> s[l + |b|] == q[0])
  {
    var i, j := |p|, |p| + |a|;
    var k := j + |w1|;
    var l := k + 1 + |w2|;
    var e := l + |b|;
    forall m | 0 <= m < i ensures !IsDigit(s[m]) { assert s[m] == p[m]; }
    forall m | i <= m < j ensures IsDigit(s[m]) { assert s[m] == a[m - i]; }
    forall m | 0 <= m < |a| ensures s[i + m] == a[m] { }
    forall m | j <= m < k ensures IsSpace(s[m]) { assert s[m] == w1[m - j]; }
    forall m | k < m < l ensures IsSpace(s[m]) { assert s[m] == w2[m - k - 1]; }
    forall m | l <= m < e ensures IsDigit(s[m]) { assert s[m] == b[m - l]; }
    forall m | 0 <= m < |b| ensures s[l + m] == b[m] { }
    SliceIs(s, i, a);
    SliceIs(s, l, b);
  }

  /**
   * `N d M` with whitespace around the `d`, after text without digits and
   * before text that does not continue the second number, is the first match,
   * and its groups are the two numbers.
   */
  lemma FirstDiceWins(s: string, p: string, a: string, w1: string, w2: string, b: string, q: string)
    requires s == p + a + w1 + "d" + w2 + b + q
    requires NoDigits(p) && |a| > 0 && AllDigits(a) && |b| > 0 && AllDigits(b)
    requires AllSpaces(w1) && AllSpaces(w2)
    requires q == [] || !IsDigit(q[0])
    ensures FirstMatch(s, 0) == Some((|p|, a, b))
  {
    DiceLayout(s, p, a, w1, w2, b, q);
    var l := |p| + |a| + |w1| + 1 + |w2|;
    FoundDice(s, |p|, |p| + |a|, |p| + |a| + |w1|, l, l + |b|);
  }

  /** The layout facts about `s`, read as the first match. */
  lemma FoundDice(s: string, i: nat, j: nat, k: nat, l: nat, e: nat)
    requires i < j <= k < l < e <= |s| && s[k] == 'd'
    requires forall m :: 0 <= m < i ==> !IsDigit(s[m])
    requires forall m :: i <= m < j ==> IsDigit(s[m])
    requires forall m :: j <= m < k ==> IsSpace(s[m])
    requires forall m :: k < m < l ==> IsSpace(s[m])
    requires forall m :: l <= m < e ==> IsDigit(s[m])
    requires e < |s| ==> !IsDigit(s[e])
    ensures FirstMatch(s, 0) == Some((i, s[i..j], s[l..e]))
  {
    DigitRunEndsAt(s, l, e);
    DigitRunEndsAt(s, i, j);
    SpaceRunEndsAt(s, j, k);
    DigitNotSpace(s[l]);
    SpaceRunEndsAt(s, k + 1, l);
    MatchesAt(s, i, j, k, l, e, s[i..j], s[l..e]);
    FirstMatchAfterNoDigits(s, i, s[i..j], s[l..e]);
  }

  /** Whatever surrounds it, the first `N d M` in the stripped, lower-cased text is the dice. */
  lemma SanitizeFindsFirstDice(raw: string, p: string, a: string, w1: string, w2: string, b: string, q: string)
    requires Lower(Strip(raw)) == p + a + w1 + "d" + w2 + b + q
    requires NoDigits(p) && |a| > 0 && AllDigits(a) && |b| > 0 && AllDigits(b)
    requires AllSpaces(w1) && AllSpaces(w2)
    requires q == [] || !IsDigit(q[0])
    ensures Sanitize(raw) == a + "d" + b
  {
    FirstDiceWins(Lower(Strip(raw)), p, a, w1, w2, b, q);
  }

  /** No position of text without digits starts a match. */
  lemma NoMatchWithoutDigits(t: string)
    requires NoDigits(t)
    ensures FirstMatch(t, 0).None?
  {
  }

  /** Text without a digit holds no dice at all and falls back to `1d4`. */
  lemma SanitizeWithoutDigits(raw: string)
    requires NoDigits(raw)
    ensures Sanitize(raw) == "1d4"
  {
    var t := Lower(Strip(raw));
    var l := LStrip(raw);
    assert forall m :: 0 <= m < |Strip(raw)| ==> Strip(raw)[m] == raw[|raw| - |l| + m];
    assert NoDigits(t);
    if t != [] {
      NoMatchWithoutDigits(t);
      assert !IsDigit(t[0]);
      assert ShortForm(t) == "1d4";
    }
  }

  // ---------------------------------------------------------------- roll

  datatype RollResult = RollResult(
    dice: string,
    rolls: seq<int>,
    modifier: int,
    total: int,
    reason: string,
    advantage: bool,
    disadvantage: bool,
    natural20: bool,
    natural1: bool)

  /** A roll together with the entropy cursor after its draws. */
  datatype Rolled = Rolled(result: RollResult, next: nat)

  /** Raised by `secrets.randbelow(0)` when a zero-sided die is drawn. */
  datatype DiceError = ZeroSidedDie

  /** The two-dice advantage/disadvantage branch applies to a single d20 only. */
  predicate AdvantageApplies(count: nat, sides: nat, advantage: bool, disadvantage: bool) {
    sides == 20 && count == 1 && (advantage || disadvantage)
  }

  /** The die count and sides that `roll` reads from the sanitised text. */
  function ParsedDice(diceStr: string): (nat, nat) {
    DiceParts(Sanitize(diceStr))
  }

  /** `roll(dice_str, modifier, advantage, disadvantage, reason)`. */
  function Roll(diceStr: string, modifier: int, advantage: bool, disadvantage: bool, reason: string,
                rng: Entropy, at: nat): (r: Result<Rolled, DiceError>)
    ensures r.Err? <==> ParsedDice(diceStr).0 > 0 && ParsedDice(diceStr).1 == 0
    ensures r.Ok? ==>
      var res := r.value.result;
      && res.dice == Sanitize(diceStr) && res.modifier == modifier && res.reason == reason
      && |res.rolls| == (if AdvantageApplies(ParsedDice(diceStr).0, ParsedDice(diceStr).1, advantage, disadvantage)
                         then 2 else ParsedDice(diceStr).0)
      && (forall k :: 0 <= k < |res.rolls| ==> 1 <= res.rolls[k] <= ParsedDice(diceStr).1)
      && r.value.next == at + |res.rolls|
  {
    var dice := Sanitize(diceStr);
    var (count, sides) := DiceParts(dice);
    if AdvantageApplies(count, sides, advantage, disadvantage) then
      Ok(RollTwoD20(dice, modifier, advantage, disadvantage, reason, rng, at))
    else if count > 0 && sides == 0 then
      Err(ZeroSidedDie)
    else
      Ok(RollEach(dice, count, sides, modifier, reason, rng, at))
  }

  /** The advantage/disadvantage branch of `roll`: two d20 faces, one kept. */
  function RollTwoD20(dice: string, modifier: int, advantage: bool, disadvantage: bool, reason: string,
                      rng: Entropy, at: nat): (r: Rolled)
    requires advantage || disadvantage
    ensures r.result.dice == dice && r.result.modifier == modifier && r.result.reason == reason
    ensures |r.result.rolls| == 2 && r.next == at + 2
    ensures forall k :: 0 <= k < 2 ==> 1 <= r.result.rolls[k] <= 20
  {
    var r1 := RollDie(20, rng, at);
    var r2 := RollDie(20, rng, at + 1);
    var chosen := if advantage then Max(r1, r2) else Min(r1, r2);
    Rolled(RollResult(dice, [r1, r2], modifier, chosen + modifier, reason,
                      advantage, disadvantage, chosen == 20, chosen == 1), at + 2)
  }

  /** The ordinary branch of `roll`: one face per die, summed. */
  function RollEach(dice: string, count: nat, sides: nat, modifier: int, reason: string,
                    rng: Entropy, at: nat): (r: Rolled)
    requires count > 0 ==> sides > 0
    ensures r.result.dice == dice && r.result.modifier == modifier && r.result.reason == reason
    ensures |r.result.rolls| == count && r.next == at + count
    ensures forall k :: 0 <= k < count ==> 1 <= r.result.rolls[k] <= sides
  {
    var rolls := seq(count, k requires 0 <= k < count => RollDie(sides, rng, at + k));
    assert forall k :: 0 <= k < count ==> rolls[k] == RollDie(sides, rng, at + k);
    Rolled(RollResult(dice, rolls, modifier, Sum(rolls) + modifier, reason, false, false,
                      sides == 20 && count == 1 && rolls[0] == 20,
                      sides == 20 && count == 1 && rolls[0] == 1), at + count)
  }

  /**
   * With advantage or disadvantage on a single d20: two faces, the kept one is
   * the larger (advantage, which wins when both are set) or the smaller, and
   * the natural flags come from the kept face.
   */
  lemma AdvantageKeepsOneFace(diceStr: string, modifier: int, advantage: bool, disadvantage: bool,
                              reason: string, rng: Entropy, at: nat)
    requires AdvantageApplies(ParsedDice(diceStr).0, ParsedDice(diceStr).1, advantage, disadvantage)
    ensures var r := Roll(diceStr, modifier, advantage, disadvantage, reason, rng, at);
      r.Ok? &&
      var res := r.value.result;
      var kept := res.total - modifier;
      && |res.rolls| == 2 && (kept == res.rolls[0] || kept == res.rolls[1])
      && (advantage ==> kept >= res.rolls[0] && kept >= res.rolls[1])
      && (!advantage ==> kept <= res.rolls[0] && kept <= res.rolls[1])
      && res.natural20 == (kept == 20) && res.natural1 == (kept == 1)
      && res.advantage == advantage && res.disadvantage == disadvantage
  {
  }

  /**
   * Without the advantage branch: one face per die, the total is their sum
   * plus the modifier, the advantage flags stay off, and a natural 20 or 1 is
   * reported only for a single d20.
   */
  lemma PlainRollSumsFaces(diceStr: string, modifier: int, advantage: bool, disadvantage: bool,
                           reason: string, rng: Entropy, at: nat)
    requires var (n, m) := ParsedDice(diceStr);
      !AdvantageApplies(n, m, advantage, disadvantage) && !(n > 0 && m == 0)
    ensures var r := Roll(diceStr, modifier, advantage, disadvantage, reason, rng, at);
      var (n, m) := ParsedDice(diceStr);
      r.Ok? &&
      var res := r.value.result;
      && res.total == Sum(res.rolls) + modifier
      && n * 1 + modifier <= res.total <= n * m + modifier
      && !res.advantage && !res.disadvantage
      && (res.natural20 <==> n == 1 && m == 20 && res.rolls[0] == 20)
      && (res.natural1 <==> n == 1 && m == 20 && res.rolls[0] == 1)
  {
    var r := Roll(diceStr, modifier, advantage, disadvantage, reason, rng, at);
    var (n, m) := ParsedDice(diceStr);
    SumBounds(r.value.result.rolls, 1, m);
  }

  /** Canonical text passes through the sanitiser and is read as its two digit groups. */
  lemma ParsedOfCanonical(a: string, b: string)
    requires |a| > 0 && |b| > 0 && AllDigits(a) && AllDigits(b)
    ensures Sanitize(a + "d" + b) == a + "d" + b
    ensures ParsedDice(a + "d" + b) == (DigitsValue(a), DigitsValue(b))
  {
    CanonicalOf(a, b);
    SanitizeKeepsCanonical(a + "d" + b);
  }

  /** A count-less die `"dM"` is read as one die of `M` sides. */
  lemma ParsedBareDie(digits: string)
    requires |digits| > 0 && AllDigits(digits)
    ensures ParsedDice("d" + digits) == (1, DigitsValue(digits))
  {
    BareDieParts(digits);
    SanitizeBareDie(digits);
  }

  /** A bare `dN` rolls one N-sided die, as if written `1dN`. */
  lemma RollBareDie(digits: string, modifier: int, reason: string, rng: Entropy, at: nat)
    requires |digits| > 0 && AllDigits(digits) && DigitsValue(digits) > 0
    ensures Roll("d" + digits, modifier, false, false, reason, rng, at)
            == Ok(RollEach("1d" + digits, 1, DigitsValue(digits), modifier, reason, rng, at))
  {
    SanitizeBareDie(digits);
    BareDieParts(digits);
  }

  lemma BareDieParts(digits: string)
    requires |digits| > 0 && AllDigits(digits)
    ensures Canonical("1d" + digits) && DiceParts("1d" + digits) == (1, DigitsValue(digits))
  {
    var canonical := "1" + "d" + digits;
    assert canonical == "1d" + digits;
    CanonicalOf("1", digits);
    assert DigitsValue("1") == 1;
  }

  /** `"1d20"` is one twenty-sided die. */
  lemma D20Parsed(s: string)
    requires s == "1d20"
    ensures Sanitize(s) == s && ParsedDice(s) == (1, 20)
  {
    assert s == "1" + "d" + "20";
    ParsedOfCanonical("1", "20");
    assert DigitsValue("20") == 20 by { assert "20"[..1] == "2"; }
  }

  /**
   * A single d20 as `roll("1d20", ...)` rolls it: the kept face lies in
   * `[1, 20]` and the natural flags say exactly whether it is a 20 or a 1.
   */
  function RollD20(modifier: int, advantage: bool, disadvantage: bool, reason: string,
                   rng: Entropy, at: nat): (r: Rolled)
    ensures var kept := r.result.total - r.result.modifier;
      && r.result.modifier == modifier && r.result.reason == reason
      && 1 <= kept <= 20
      && (r.result.natural20 <==> kept == 20) && (r.result.natural1 <==> kept == 1)
      && r.next == at + |r.result.rolls|
  {
    if advantage || disadvantage then
      RollTwoD20("1d20", modifier, advantage, disadvantage, reason, rng, at)
    else
      var r := RollEach("1d20", 1, 20, modifier, reason, rng, at);
      var rolls := r.result.rolls;
      assert Sum(rolls) == rolls[0] by { assert rolls[1..] == []; }
      r
  }

  /** `RollD20` is what `roll` does with the text `"1d20"`. */
  lemma RollD20IsRoll(modifier: int, advantage: bool, disadvantage: bool, reason: string,
                      rng: Entropy, at: nat)
    ensures Roll("1d20", modifier, advantage, disadvantage, reason, rng, at)
            == Ok(RollD20(modifier, advantage, disadvantage, reason, rng, at))
  {
    D20Parsed("1d20");
  }

  /** The tag `display` ends with: NAT 20 takes precedence over NAT 1. */
  function NaturalTag(r: RollResult): string {
    if r.natural20 then " NAT 20!" else if r.natural1 then " NAT 1!" else ""
  }

  /** `f" {modifier:+d}"` when the modifier is nonzero, else nothing. */
  function ModifierText(modifier: int): (s: string)
    ensures s == "" <==> modifier == 0
  {
    if modifier != 0 then " " + SignedString(modifier) else ""
  }

  /** `", ".join(str(r) for r in rolls)`. */
  function RollsText(rolls: seq<int>): string {
    Join(", ", seq(|rolls|, k requires 0 <= k < |rolls| => IntToString(rolls[k])))
  }

  /** The part of `display` before the faces. */
  function DisplayHead(r: RollResult): string {
    r.dice + ModifierText(r.modifier) + " = ["
  }

  /** The part of `display` after the faces, up to the total. */
  function DisplayTotal(r: RollResult): string {
    RollsText(r.rolls) + "]" + ModifierText(r.modifier) + " = " + IntToString(r.total)
  }

  /** `RollResult.display`. */
  function Display(r: RollResult): (s: string)
    ensures r.natural20 ==> EndsWith(s, " NAT 20!")
    ensures !r.natural20 && r.natural1 ==> EndsWith(s, " NAT 1!")
    ensures !r.natural20 && !r.natural1 ==> EndsWith(s, " = " + IntToString(r.total))
    ensures StartsWith(s, r.dice + ModifierText(r.modifier) + " = [")
  {
    DisplayEnds(r);
    DisplayHead(r) + (DisplayTotal(r) + NaturalTag(r))
  }

  /** The head, the faces and total, and the tag, joined: where each one shows. */
  lemma DisplayEnds(r: RollResult)
    ensures var s := DisplayHead(r) + (DisplayTotal(r) + NaturalTag(r));
      && StartsWith(s, DisplayHead(r))
      && EndsWith(s, NaturalTag(r))
      && (NaturalTag(r) == "" ==> EndsWith(s, " = " + IntToString(r.total)))
  {
    var tail := DisplayTotal(r) + NaturalTag(r);
    ConcatEnds(DisplayHead(r), tail);
    ConcatEnds(DisplayTotal(r), NaturalTag(r));
    EndsWithExtend(DisplayHead(r), tail, NaturalTag(r));
    ConcatEnds(RollsText(r.rolls) + "]" + ModifierText(r.modifier), " = " + IntToString(r.total));
    assert NaturalTag(r) == "" ==> tail == DisplayTotal(r);
    EndsWithExtend(DisplayHead(r), DisplayTotal(r), " = " + IntToString(r.total));
  }

  // ---------------------------------------------------------------- roll_ability_scores

  predicate Sorted(s: seq<int>) {
    forall x, y :: 0 <= x < y < |s| ==> s[x] <= s[y]
  }

  /** One exchange of neighbouring elements, as the sort below performs it. */
  method SwapAdjacent(a: array<int>, j: nat)
    requires 0 < j < a.Length
    modifies a
    ensures a[..] == old(a[..])[j - 1 := old(a[j])][j := old(a[j - 1])]
    ensures multiset(a[..]) == multiset(old(a[..]))
  {
    a[j - 1], a[j] := a[j], a[j - 1];
  }

  /** `list.sort()` on a list of ints: sorted, and the same elements. */
  method SortInPlace(a: array<int>)
    modifies a
    ensures Sorted(a[..])
    ensures multiset(a[..]) == multiset(old(a[..]))
  {
    var i := 0;
    while i < a.Length
      invariant 0 <= i <= a.Length
      invariant Sorted(a[..i])
      invariant multiset(a[..]) == multiset(old(a[..]))
    {
      var j := i;
      while j > 0 && a[j - 1] > a[j]
        invariant 0 <= j <= i
        invariant multiset(a[..]) == multiset(old(a[..]))
        invariant forall x, y :: 0 <= x < y <= i && y != j ==> a[x] <= a[y]
      {
        SwapAdjacent(a, j);
        j := j - 1;
      }
      i := i + 1;
    }
  }

  /** 4d6 drop lowest: the sum of all four faces less the smallest. */
  function DropLowest(faces: seq<int>): int
    requires |faces| > 0
  {
    Sum(faces) - Least(faces)
  }

  /** The four d6 faces drawn for one ability score. */
  function FourD6(rng: Entropy, at: nat): (faces: seq<int>)
    ensures |faces| == 4 && forall k :: 0 <= k < 4 ==> 1 <= faces[k] <= 6
  {
    var faces := seq(4, k requires 0 <= k < 4 => RollDie(6, rng, at + k));
    assert forall k :: 0 <= k < 4 ==> faces[k] == RollDie(6, rng, at + k);
    faces
  }

  /** Sorting then skipping the first element drops exactly the lowest face. */
  lemma SortedTailDropsLowest(sorted: seq<int>, faces: seq<int>)
    requires |faces| > 0 && Sorted(sorted) && multiset(sorted) == multiset(faces)
    ensures |sorted| == |faces| && Sum(sorted[1..]) == DropLowest(faces)
  {
    assert |sorted| == |multiset(sorted)| == |multiset(faces)| == |faces|;
    SumPermutation(sorted, faces);
    var low := Least(faces);
    assert low in multiset(sorted);
    assert sorted[0] in multiset(faces);
    assert sorted[0] == low;
  }

  lemma DropLowestRange(faces: seq<int>)
    requires |faces| == 4 && forall k :: 0 <= k < 4 ==> 1 <= faces[k] <= 6
    ensures 3 <= DropLowest(faces) <= 18
  {
    var f1 := faces[1..];
    var f2 := f1[1..];
    var f3 := f2[1..];
    assert f3[1..] == [];
    assert Sum(f3) == faces[3];
    assert Sum(f2) == faces[2] + faces[3];
    assert Sum(f1) == faces[1] + faces[2] + faces[3];
  }

  /** `roll_ability_scores`: six scores, each 4d6 drop lowest, each in `[3, 18]`. */
  method RollAbilityScores(rng: Entropy, at: nat) returns (scores: seq<int>, next: nat)
    ensures |scores| == 6 && next == at + 24
    ensures forall i :: 0 <= i < 6 ==> scores[i] == DropLowest(FourD6(rng, at + 4 * i))
    ensures forall i :: 0 <= i < 6 ==> 3 <= scores[i] <= 18
  {
    scores := [];
    next := at;
    for n := 0 to 6
      invariant |scores| == n && next == at + 4 * n
      invariant forall i :: 0 <= i < n ==> scores[i] == DropLowest(FourD6(rng, at + 4 * i))
      invariant forall i :: 0 <= i < n ==> 3 <= scores[i] <= 18
    {
      var faces := FourD6(rng, next);
      var fourRolls := new int[4](k requires 0 <= k < 4 => faces[k]);
      assert fourRolls[..] == faces;
      SortInPlace(fourRolls);
      SortedTailDropsLowest(fourRolls[..], faces);
      DropLowestRange(faces);
      scores := scores + [Sum(fourRolls[1..])];
      next := next + 4;
    }
  }
}
