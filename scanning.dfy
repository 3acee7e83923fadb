/** How the dispatcher reads literals out of the program text: `String#index`
    for comments and string literals, the maximal digit run of a number
    literal, and the bracket-depth scan of a lambda literal. */
module Scanning {
  import opened Values

  /** `code.index(ch, from)`: the first position at or after `from` that
      holds `ch`. */
  function IndexOf(code: string, ch: char, from: nat): (r: Option<nat>)
    decreases |code| - from
    ensures r.Some? ==> from <= r.value < |code| && code[r.value] == ch
    ensures r.Some? ==> forall k | from <= k < r.value :: code[k] != ch
    ensures r.None? <==> forall k | from <= k < |code| :: code[k] != ch
  {
    if from >= |code| then None
    else if code[from] == ch then Some(from)
    else IndexOf(code, ch, from + 1)
  }

  /** The end of the maximal run of decimal digits that starts at `i`
      (what `/\A\d+/` matches). */
  function DigitRunEnd(code: string, i: nat): (e: nat)
    requires i <= |code|
    decreases |code| - i
    ensures i <= e <= |code|
    ensures AllDigits(code[i..e])
    ensures e < |code| ==> !IsDigit(code[e])
  {
    if i < |code| && IsDigit(code[i]) then
      var e := DigitRunEnd(code, i + 1);
      assert code[i..e] == [code[i]] + code[i + 1..e];
      e
    else i
  }

  /** `c.to_i.to_s == c ? c.to_i : c` for the one-character string `c` that
      `'` and `^` read: a digit becomes its Integer, anything else (the empty
      string included) stays text. */
  function CharValue(c: string): (v: Value)
    ensures v.Int? <==> |c| == 1 && IsDigit(c[0])
    ensures v.Int? ==> 0 <= v.n < 10 && DigitChar(v.n) == c[0]
    ensures v.Text? ==> v.s == c
  {
    if |c| == 1 && IsDigit(c[0]) then Int(DigitValue(c[0])) else Text(c)
  }

  // ---------------------------------------------------------------------
  // Lambda literals

  /** How a character changes the bracket depth of the lambda scan. */
  function Delta(c: char): int {
    if c == '[' then 1 else if c == ']' then -1 else 0
  }

  /** The depth change over a whole text. */
  function Depth(s: string): int {
    if s == [] then 0 else Delta(s[0]) + Depth(s[1..])
  }

  /** Scanning `s` from depth `f` never brings the depth down to 0. */
  predicate Nested(s: string, f: int) {
    s == [] || (f + Delta(s[0]) >= 1 && Nested(s[1..], f + Delta(s[0])))
  }

  /** A text whose brackets are balanced: wrapped as `[s]`, its closing
      bracket is the one that matches the opening one. */
  predicate Balanced(s: string) {
    Nested(s, 1) && Depth(s) == 0
  }

  /** The position of the `]` at which the depth, `f` before position `i`,
      first drops to 0; none if the text ends first (the Ruby loop then
      runs forever, since reading past the end never yields a bracket). */
  function Match(code: string, i: nat, f: int): (r: Option<nat>)
    requires f >= 1
    decreases |code| - i
    ensures r.Some? ==> i <= r.value < |code| && code[r.value] == ']'
  {
    if i >= |code| then None
    else if f + Delta(code[i]) == 0 then Some(i)
    else Match(code, i + 1, f + Delta(code[i]))
  }

  /** The lambda scan of `run` for a `[` at `p`: counters `f` (depth) and
      `c` (offset) advance until the depth returns to 0. The result is the
      position of the matching `]`, the one `Match` names. */
  method ScanLambda(code: string, p: nat) returns (r: Option<nat>)
    requires p < |code|
    ensures r == Match(code, p + 1, 1)
  {
    var f, c := 1, 1;
    while f > 0 && p + c < |code|
      invariant 0 <= f && 1 <= c && p + c <= |code|
      invariant f == 0 ==> Match(code, p + 1, 1) == Some(p + c - 1)
      invariant f > 0 ==> Match(code, p + 1, 1) == Match(code, p + c, f)
      decreases |code| - (p + c)
    {
      if code[p + c] == '[' { f := f + 1; }
      if code[p + c] == ']' { f := f - 1; }
      c := c + 1;
    }
    if f > 0 {
      r := None;
    } else {
      r := Some(p + c - 1);
    }
  }

  /** Scanning across a nested stretch `t` of the text adds `t`'s depth and
      finds no match inside it. */
  lemma {:induction false} MatchSkipsNested(code: string, i: nat, f: int, t: string)
    requires f >= 1 && i + |t| <= |code| && code[i..i + |t|] == t
    requires Nested(t, f)
    ensures f + Depth(t) >= 1
    ensures Match(code, i, f) == Match(code, i + |t|, f + Depth(t))
    decreases |t|
  {
    if t != [] {
      assert code[i] == t[0];
      assert code[i + 1..i + 1 + |t[1..]|] == t[1..];
      MatchSkipsNested(code, i + 1, f + Delta(t[0]), t[1..]);
    }
  }

  /** What a successful scan found: a `]`, reached from depth `f` through a
      nested stretch that closes exactly there. */
  lemma {:induction false} MatchFindsClose(code: string, i: nat, f: int)
    requires f >= 1 && Match(code, i, f).Some?
    ensures Nested(code[i..Match(code, i, f).value], f)
    ensures f + Depth(code[i..Match(code, i, f).value]) == 1
    decreases |code| - i
  {
    var q := Match(code, i, f).value;
    if f + Delta(code[i]) == 0 {
      assert q == i;
      assert code[i..q] == [];
    } else {
      MatchFindsClose(code, i + 1, f + Delta(code[i]));
      assert code[i..q] == [code[i]] + code[i + 1..q];
    }
  }

  /** Every lambda the scan captures is balanced. */
  lemma CapturedIsBalanced(code: string, p: nat)
    requires p < |code| && Match(code, p + 1, 1).Some?
    ensures code[Match(code, p + 1, 1).value] == ']'
    ensures Balanced(code[p + 1..Match(code, p + 1, 1).value])
  {
    MatchFindsClose(code, p + 1, 1);
  }

  /** Re-wrapping a balanced text `t` as `[t]`, as `#` and `W` do, and
      scanning it again captures `t` and ends on the new `]`. */
  lemma RewrapRoundTrip(code: string, pre: string, t: string, rest: string)
    requires code == pre + "[" + t + "]" + rest
    requires Balanced(t)
    ensures Match(code, |pre| + 1, 1) == Some(|pre| + 1 + |t|)
    ensures code[|pre| + 1..|pre| + 1 + |t|] == t
  {
    var i := |pre| + 1;
    assert |code| == i + |t| + 1 + |rest|;
    assert code[i..i + |t|] == t;
    MatchSkipsNested(code, i, 1, t);
    assert code[i + |t|] == ']';
  }

  /** A text without brackets is balanced. */
  lemma {:induction false} BracketFreeIsBalanced(s: string, f: int)
    requires f >= 1
    requires forall k | 0 <= k < |s| :: s[k] != '[' && s[k] != ']'
    ensures Nested(s, f) && Depth(s) == 0
    decreases |s|
  {
    if s != [] {
      BracketFreeIsBalanced(s[1..], f);
    }
  }

  /** The text Ruby interpolates for an Integer or for nil contains no
      brackets, so it survives re-wrapping. */
  lemma InterpolatedNumberBalanced(v: Value)
    requires !v.Text?
    ensures Balanced(Interpolate(v))
  {
    var s := Interpolate(v);
    if v.Int? {
      var m := if v.n < 0 then -v.n else v.n;
      NatStringRoundTrip(m);
      assert forall k | 0 <= k < |NatString(m)| :: IsDigit(NatString(m)[k]);
    }
    assert forall k | 0 <= k < |s| :: s[k] != '[' && s[k] != ']';
    BracketFreeIsBalanced(s, 1);
  }
}
