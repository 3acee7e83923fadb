/** What one dispatch step, and a whole bounded run, promise about the
    interpreter state: text is only ever inserted right after the cursor,
    the while-context stack changes only at `#` and `W`, literals are read
    as the source reads them, and globals round-trip. */
module MachineFacts {
  import opened Values
  import opened StackOps
  import opened Scanning
  import opened Machine

  /** `now` is `before` with some text inserted at position `i`: the first
      `i` characters and everything from `i` on are kept. */
  predicate Spliced(before: string, now: string, i: nat) {
    i <= |before| <= |now| &&
    now[..i] == before[..i] &&
    now[|now| - (|before| - i)..] == before[i..]
  }

  /** A run of `n + 1` steps is one step followed by a run of `n`. */
  lemma ExecStep(n: nat, st: State, st': State)
    requires st.p < |st.code| && Step(st) == Ok(st')
    ensures Exec(n + 1, st) == Exec(n, st')
  {
  }

  /** A run stops without a step when the cursor is past the end or the
      fuel is spent. */
  lemma ExecStops(n: nat, st: State)
    requires st.p >= |st.code| || n == 0
    ensures Exec(n, st) == if st.p >= |st.code| then Halted(st) else OutOfFuel(st)
  {
  }

  /** A step that raises ends the run at the state before it. */
  lemma ExecFails(n: nat, st: State)
    requires n > 0 && st.p < |st.code| && Step(st).Err?
    ensures Exec(n, st) == Failed(Step(st).error, st)
  {
  }

  /** Two steps in a row. */
  lemma ExecTwo(n: nat, st: State, st1: State, st2: State)
    requires st.p < |st.code| && Step(st) == Ok(st1)
    requires st1.p < |st1.code| && Step(st1) == Ok(st2)
    ensures Exec(n + 2, st) == Exec(n, st2)
  {
    ExecStep(n + 1, st, st1);
    ExecStep(n, st1, st2);
  }

  /** Three steps in a row. */
  lemma ExecThree(n: nat, st: State, st1: State, st2: State, st3: State)
    requires st.p < |st.code| && Step(st) == Ok(st1)
    requires st1.p < |st1.code| && Step(st1) == Ok(st2)
    requires st2.p < |st2.code| && Step(st2) == Ok(st3)
    ensures Exec(n + 3, st) == Exec(n, st3)
  {
    ExecStep(n + 2, st, st1);
    ExecTwo(n, st1, st2, st3);
  }

  /** Five steps in a row. */
  lemma ExecFive(n: nat, st: State, st1: State, st2: State, st3: State, st4: State, st5: State)
    requires st.p < |st.code| && Step(st) == Ok(st1)
    requires st1.p < |st1.code| && Step(st1) == Ok(st2)
    requires st2.p < |st2.code| && Step(st2) == Ok(st3)
    requires st3.p < |st3.code| && Step(st3) == Ok(st4)
    requires st4.p < |st4.code| && Step(st4) == Ok(st5)
    ensures Exec(n + 5, st) == Exec(n, st5)
  {
    ExecTwo(n + 3, st, st1, st2);
    ExecThree(n, st2, st3, st4, st5);
  }

  /** The state right after `#`: the body `a` and the condition `b` are
      popped, `b` and then `a` are pushed on the while-context stack, and
      `[b]!W` is spliced in after the cursor. */
  function AfterWhileEntry(st: State): State
    requires st.p < |st.code| && |st.stack| >= 2
  {
    var s := st.stack;
    st.(code := Insert(st.code, st.p + 1, WhileEntry(s[|s| - 2])),
        stack := s[..|s| - 2], wstack := st.wstack + [s[|s| - 2], s[|s| - 1]], p := st.p + 1)
  }

  lemma WhileEnters(st: State)
    requires st.p < |st.code| && st.code[st.p] == '#' && |st.stack| >= 2
    ensures Step(st) == Ok(AfterWhileEntry(st))
  {
  }

  /** `!` pops a lambda and splices its text in after the cursor. */
  lemma ExecuteSplices(st: State)
    requires st.p < |st.code| && st.code[st.p] == '!' && |st.stack| >= 1 && Top(st.stack).Text?
    ensures Step(st) == Ok(st.(code := Insert(st.code, st.p + 1, Top(st.stack).s),
                               stack := st.stack[..|st.stack| - 1], p := st.p + 1))
  {
  }

  /** `W` with a false flag drops the loop's pair from the while-context
      stack and splices nothing. */
  lemma LoopExits(st: State)
    requires st.p < |st.code| && st.code[st.p] == 'W' && |st.stack| >= 1 && |st.wstack| >= 2
    requires Top(st.stack) != Int(-1)
    ensures Step(st) == Ok(st.(stack := st.stack[..|st.stack| - 1],
                               wstack := st.wstack[..|st.wstack| - 2], p := st.p + 1))
  {
  }

  /** The instructions that insert text: `!`, `?`, `#` and `W`. */
  predicate Splices(c: char) {
    c == '!' || c == '?' || c == '#' || c == 'W'
  }

  /** Every step moves the cursor forward and only inserts text directly
      after the cursor; only `!`, `?`, `#` and `W` insert anything, and
      they leave the cursor on the first inserted character. */
  lemma StepSplicesAfterCursor(st: State)
    requires st.p < |st.code| && Step(st).Ok?
    ensures Step(st).value.p > st.p
    ensures Spliced(st.code, Step(st).value.code, st.p + 1)
    ensures !Splices(st.code[st.p]) ==> Step(st).value.code == st.code
    ensures Splices(st.code[st.p]) ==> Step(st).value.p == st.p + 1
  {
    var c := st.code[st.p];
    if IsDigit(c) {
      assert DigitRunEnd(st.code, st.p) > st.p;
    }
  }

  /** The part of the text the cursor has passed (all of it once the
      cursor is past the end). */
  function Consumed(st: State): string {
    if st.p <= |st.code| then st.code[..st.p] else st.code
  }

  /** One step's splice keeps what the rest of the run keeps. */
  lemma ConsumedChain(st: State, st': State, fin: State)
    requires st.p < |st.code| && st'.p > st.p && Spliced(st.code, st'.code, st.p + 1)
    requires |Consumed(st')| <= |Consumed(fin)| && Consumed(fin)[..|Consumed(st')|] == Consumed(st')
    ensures |Consumed(st)| <= |Consumed(fin)| && Consumed(fin)[..|Consumed(st)|] == Consumed(st)
  {
    var k, k' := |Consumed(st)|, |Consumed(st')|;
    assert Consumed(st) == st.code[..k];
    assert k < k' && Consumed(st')[..k] == st'.code[..k];
    assert st'.code[..k] == st'.code[..st.p + 1][..k];
    assert Consumed(fin)[..k] == Consumed(fin)[..k'][..k];
  }

  /** A bounded run either stops where it is or takes one step that
      moves the cursor forward and splices only after it. */
  lemma ExecCases(fuel: nat, st: State) returns (next: Option<State>)
    ensures next.None? ==> Last(Exec(fuel, st)) == st
    ensures next.Some? ==>
      fuel > 0 && st.p < |st.code| &&
      Exec(fuel, st) == Exec(fuel - 1, next.value) &&
      next.value.p > st.p && Spliced(st.code, next.value.code, st.p + 1)
  {
    if st.p < |st.code| && fuel > 0 && Step(st).Ok? {
      next := Some(Step(st).value);
      StepSplicesAfterCursor(st);
    } else {
      next := None;
    }
  }

  /** A bounded run never changes text that the cursor has already passed. */
  lemma {:induction false} ExecKeepsConsumed(fuel: nat, st: State)
    ensures |Consumed(st)| <= |Consumed(Last(Exec(fuel, st)))|
    ensures Consumed(Last(Exec(fuel, st)))[..|Consumed(st)|] == Consumed(st)
    ensures Last(Exec(fuel, st)).p >= st.p
    decreases fuel
  {
    var next := ExecCases(fuel, st);
    if next.Some? {
      ExecKeepsConsumed(fuel - 1, next.value);
      ConsumedChain(st, next.value, Last(Exec(fuel - 1, next.value)));
    }
  }

  /** The while-context stack changes only at `#`, which pushes the
      condition `b` and then the body `a`, and at `W`, which keeps the pair
      when the popped flag is -1 and drops it otherwise. */
  lemma WhileStackOnlyAtLoops(st: State)
    requires st.p < |st.code| && Step(st).Ok?
    ensures var c, s, w, w' := st.code[st.p], st.stack, st.wstack, Step(st).value.wstack;
      (c != '#' && c != 'W' ==> w' == w) &&
      (c == '#' ==> |s| >= 2 && w' == w + [s[|s| - 2], s[|s| - 1]]) &&
      (c == 'W' && s[|s| - 1] == Int(-1) ==> w' == w) &&
      (c == 'W' && s[|s| - 1] != Int(-1) ==> |w| >= 2 && w' == w[..|w| - 2])
  {
  }

  /** The globals change only at a letter followed by `:`, which stores
      the top of the stack under that letter; every other step, `x;`
      included, leaves them as they were. So a later `x;` reads the value
      of the last `x:` before it. */
  lemma GlobalsOnlyAtStore(st: State)
    requires st.p < |st.code| && Step(st).Ok?
    ensures var c := st.code[st.p];
      Step(st).value.globals ==
        if IsLetter(c) && st.p + 1 < |st.code| && st.code[st.p + 1] == ':'
        then st.globals[c := Top(st.stack)]
        else st.globals
  {
  }

  /** `?` pops the lambda `f` and the flag `b`, and splices in `f`'s text
      exactly when `b` is -1; otherwise the text is left alone. */
  lemma IfSplicesOnlyOnTrue(st: State)
    requires st.p < |st.code| && st.code[st.p] == '?' && |st.stack| >= 2
    ensures var s := st.stack;
      var f, b := s[|s| - 1], s[|s| - 2];
      (b != Int(-1) ==> Step(st) == Ok(st.(stack := s[..|s| - 2], p := st.p + 1))) &&
      (b == Int(-1) && f.Text? ==>
        Step(st) == Ok(st.(code := Insert(st.code, st.p + 1, f.s), stack := s[..|s| - 2], p := st.p + 1))) &&
      (b == Int(-1) && !f.Text? ==> Step(st) == Err(TypeMismatch))
  {
  }

  /** A digit at the cursor pushes the decimal value of the maximal digit
      run and moves the cursor just past the run. */
  lemma DigitLiteral(st: State)
    requires st.p < |st.code| && IsDigit(st.code[st.p])
    ensures Step(st).Ok?
    ensures var st', e := Step(st).value, Step(st).value.p;
      st.p < e <= |st.code| && AllDigits(st.code[st.p..e]) &&
      (e < |st.code| ==> !IsDigit(st.code[e])) &&
      st'.stack == st.stack + [Int(DecimalValue(st.code[st.p..e]))]
  {
    assert DigitRunEnd(st.code, st.p) > st.p;
  }

  /** The digit run that starts at `i` is exactly `d` when `d` is followed
      by the end of the text or by a non-digit. */
  lemma {:induction false} DigitRunOf(code: string, i: nat, d: string)
    requires i + |d| <= |code| && code[i..i + |d|] == d && AllDigits(d)
    requires i + |d| == |code| || !IsDigit(code[i + |d|])
    ensures DigitRunEnd(code, i) == i + |d|
    decreases |d|
  {
    if d != [] {
      assert code[i] == d[0];
      assert code[i + 1..i + 1 + |d[1..]|] == d[1..];
      DigitRunOf(code, i + 1, d[1..]);
    }
  }

  /** A number written in decimal and followed by a non-digit is read back
      as that number, and the cursor ends just past its digits. */
  lemma NumberLiteralRoundTrip(st: State, n: nat)
    requires st.p + |NatString(n)| <= |st.code| && st.code[st.p..st.p + |NatString(n)|] == NatString(n)
    requires st.p + |NatString(n)| == |st.code| || !IsDigit(st.code[st.p + |NatString(n)|])
    ensures Step(st) == Ok(st.(stack := st.stack + [Int(n)], p := st.p + |NatString(n)|))
  {
    var d := NatString(n);
    NatStringRoundTrip(n);
    DigitRunOf(st.code, st.p, d);
    NumberStep(st, d);
  }

  /** A digit run `d` that ends where the maximal run ends is pushed as its
      decimal value. */
  lemma NumberStep(st: State, d: string)
    requires |d| > 0 && AllDigits(d) && st.p + |d| <= |st.code| && st.code[st.p..st.p + |d|] == d
    requires DigitRunEnd(st.code, st.p) == st.p + |d|
    ensures Step(st) == Ok(st.(stack := st.stack + [Int(DecimalValue(d))], p := st.p + |d|))
  {
    assert st.code[st.p] == d[0];
  }

  /** `[` pushes exactly the text up to its depth-matched `]`, which is
      balanced, and moves the cursor past that `]`; without a matching `]`
      the run fails. */
  lemma LambdaLiteral(st: State)
    requires st.p < |st.code| && st.code[st.p] == '['
    ensures Match(st.code, st.p + 1, 1).None? ==> Step(st) == Err(UnterminatedLambda)
    ensures Match(st.code, st.p + 1, 1).Some? ==>
      var q := Match(st.code, st.p + 1, 1).value;
      st.code[q] == ']' && Balanced(st.code[st.p + 1..q]) &&
      Step(st) == Ok(st.(stack := st.stack + [Text(st.code[st.p + 1..q])], p := q + 1))
  {
    if Match(st.code, st.p + 1, 1).Some? {
      CapturedIsBalanced(st.code, st.p);
    }
  }

  /** `x:` followed by `x;` leaves the stack as it was and the value stored
      under `x`; both consume the character after the letter. */
  lemma StoreThenLoad(st: State, x: char)
    requires IsLetter(x) && |st.stack| >= 1
    requires st.p + 4 <= |st.code| && st.code[st.p..st.p + 4] == [x, ':', x, ';']
    ensures Step(st).Ok? && Step(st).value.p == st.p + 2
    ensures Step(Step(st).value) ==
      Ok(st.(globals := st.globals[x := Top(st.stack)], p := st.p + 4))
  {
    var s := st.stack;
    var w := st.code[st.p..st.p + 4];
    assert st.code[st.p] == w[0] == x && st.code[st.p + 1] == w[1] == ':';
    assert st.code[st.p + 2] == w[2] == x && st.code[st.p + 3] == w[3] == ';';
    var st1 := Step(st).value;
    assert st1.stack + [Top(s)] == s;
  }

  /** A letter reads back whatever was stored last, nil if nothing was; a
      letter followed by anything but `:` or `;` is a syntax error. */
  lemma LoadReadsStore(st: State)
    requires st.p < |st.code| && IsLetter(st.code[st.p])
    ensures var x := st.code[st.p];
      (st.p + 1 < |st.code| && st.code[st.p + 1] == ';' ==>
        Step(st) == Ok(st.(stack := st.stack + [if x in st.globals then st.globals[x] else Nil], p := st.p + 2))) &&
      ((st.p + 1 == |st.code| || (st.code[st.p + 1] != ':' && st.code[st.p + 1] != ';')) ==> Step(st) == Err(GlobalSyntax))
  {
  }

  /** Entering a loop re-wraps the condition as a lambda literal; when its
      text is balanced, the next step captures it unchanged and stops on the
      `!` that runs it. */
  lemma WhileEntryRescansCondition(st: State)
    requires st.p < |st.code| && st.code[st.p] == '#' && |st.stack| >= 2
    requires Balanced(Interpolate(st.stack[|st.stack| - 2]))
    ensures var st1, t := AfterWhileEntry(st), Interpolate(st.stack[|st.stack| - 2]);
      Step(st) == Ok(st1) &&
      Step(st1) == Ok(st1.(stack := st1.stack + [Text(t)], p := st.p + |t| + 3)) &&
      st1.code[st.p + |t| + 3] == '!' && st1.code[st.p + |t| + 4] == 'W'
  {
    WhileEnters(st);
    ConditionRescanned(st);
  }

  /** The second half of the above: the step after `#`. */
  lemma ConditionRescanned(st: State)
    requires st.p < |st.code| && |st.stack| >= 2
    requires Balanced(Interpolate(st.stack[|st.stack| - 2]))
    ensures var st1, t := AfterWhileEntry(st), Interpolate(st.stack[|st.stack| - 2]);
      Step(st1) == Ok(st1.(stack := st1.stack + [Text(t)], p := st.p + |t| + 3)) &&
      st1.code[st.p + |t| + 3] == '!' && st1.code[st.p + |t| + 4] == 'W'
  {
    var st1, t := AfterWhileEntry(st), Interpolate(st.stack[|st.stack| - 2]);
    WrappedRescan(st1, t);
  }

  /** A step at text `[t]!W` with `t` balanced pushes `t` and stops on
      the `!`. */
  lemma WrappedRescan(st: State, t: string)
    requires st.p + |t| + 4 <= |st.code| && st.code[st.p..st.p + |t| + 4] == "[" + t + "]!W"
    requires Balanced(t)
    ensures Step(st) == Ok(st.(stack := st.stack + [Text(t)], p := st.p + |t| + 2))
    ensures st.code[st.p + |t| + 2] == '!' && st.code[st.p + |t| + 3] == 'W'
  {
    var p, w := st.p, "[" + t + "]!W";
    var pre, rest := st.code[..p], st.code[p + |t| + 2..];
    assert st.code[p..p + |t| + 4][0] == w[0];
    assert st.code[p + |t| + 2] == st.code[p..p + |t| + 4][|t| + 2] == w[|t| + 2];
    assert st.code[p + |t| + 3] == st.code[p..p + |t| + 4][|t| + 3] == w[|t| + 3];
    assert st.code[p..p + |t| + 2] == "[" + t + "]" by {
      assert st.code[p..p + |t| + 2] == st.code[p..p + |t| + 4][..|t| + 2];
      assert w[..|t| + 2] == "[" + t + "]";
    }
    assert st.code == pre + "[" + t + "]" + rest by {
      assert st.code == pre + st.code[p..p + |t| + 2] + rest;
    }
    RewrapRoundTrip(st.code, pre, t, rest);
    LambdaCapture(st, t);
  }

  /** A `[` whose depth-matched `]` closes the text `t` pushes `t`. */
  lemma LambdaCapture(st: State, t: string)
    requires st.p + |t| + 1 < |st.code| && st.code[st.p] == '['
    requires Match(st.code, st.p + 1, 1) == Some(st.p + 1 + |t|) && st.code[st.p + 1..st.p + 1 + |t|] == t
    ensures Step(st) == Ok(st.(stack := st.stack + [Text(t)], p := st.p + |t| + 2))
  {
  }

  lemma InsertTwice(code: string, i: nat)
    requires i <= |code|
    ensures Insert(Insert(code, i, "[0]!W"), i + 4, "0") == Insert(code, i, "[0]!0W")
  {
    var c1 := Insert(code, i, "[0]!W");
    assert c1 == code[..i] + "[0]!" + ("W" + code[i..]);
    assert c1[..i + 4] == code[..i] + "[0]!";
    assert c1[i + 4..] == "W" + code[i..];
  }

  /** The state after the loop: just past the spliced text, with the two
      lambdas gone from the operand stack and the while-context stack as
      it was before the `#`. */
  function AfterZeroLoop(st: State): State
    requires st.p < |st.code| && |st.stack| >= 2
  {
    st.(code := Insert(st.code, st.p + 1, "[0]!0W"), stack := st.stack[..|st.stack| - 2], p := st.p + 7)
  }

  /** A while loop whose condition is the constant `0` runs its body zero
      times: five steps later the cursor is just past the spliced-in text,
      the operand stack has lost the two lambdas, and the while-context
      stack is back at the depth it had before the `#`. */
  lemma ZeroIterationLoop(st: State, n: nat)
    requires st.p < |st.code| && st.code[st.p] == '#' && |st.stack| >= 2
    requires Interpolate(st.stack[|st.stack| - 2]) == "0"
    ensures Exec(n + 5, st) == Exec(n, AfterZeroLoop(st))
    ensures AfterZeroLoop(st).wstack == st.wstack && AfterZeroLoop(st).stack == st.stack[..|st.stack| - 2]
  {
    WhileEntryRescansCondition(st);
    var st1 := AfterWhileEntry(st);
    var st2 := st1.(stack := st1.stack + [Text("0")], p := st.p + 4);
    var st3, st4, st5 := FalseTestLeaves(st2);
    ExecFive(n, st, st1, st2, st3, st4, st5);
    ZeroLoopFinal(st);
  }

  /** What the test of that loop leaves is the state `AfterZeroLoop`
      describes. */
  lemma ZeroLoopFinal(st: State)
    requires st.p < |st.code| && |st.stack| >= 2
    requires Interpolate(st.stack[|st.stack| - 2]) == "0"
    ensures var st2 := AfterWhileEntry(st).(stack := st.stack[..|st.stack| - 2] + [Text("0")], p := st.p + 4);
      st2.(code := Insert(st2.code, st2.p + 1, "0"), stack := st2.stack[..|st2.stack| - 1],
           wstack := st2.wstack[..|st2.wstack| - 2], p := st2.p + 3) == AfterZeroLoop(st)
  {
    var s, w := st.stack, st.wstack;
    assert WhileEntry(s[|s| - 2]) == "[0]!W";
    InsertTwice(st.code, st.p + 1);
    assert (s[..|s| - 2] + [Text("0")])[..|s| - 2] == s[..|s| - 2];
    assert (w + [s[|s| - 2], s[|s| - 1]])[..|w|] == w;
  }

  /** The loop test of a loop whose condition is `0`: `!` runs the
      condition, the digit pushes 0, and `W` sees a false flag and drops
      the loop's pair. */
  lemma FalseTestLeaves(st: State) returns (st1: State, st2: State, st3: State)
    requires st.p + 1 < |st.code| && st.code[st.p] == '!' && st.code[st.p + 1] == 'W'
    requires |st.stack| >= 1 && Top(st.stack) == Text("0") && |st.wstack| >= 2
    ensures st.p < |st.code| && Step(st) == Ok(st1)
    ensures st1.p < |st1.code| && Step(st1) == Ok(st2)
    ensures st2.p < |st2.code| && Step(st2) == Ok(st3)
    ensures st3 == st.(code := Insert(st.code, st.p + 1, "0"), stack := st.stack[..|st.stack| - 1],
                       wstack := st.wstack[..|st.wstack| - 2], p := st.p + 3)
  {
    var p, s := st.p, st.stack;
    st1 := st.(code := Insert(st.code, p + 1, "0"), stack := s[..|s| - 1], p := p + 1);
    st2 := st1.(stack := st1.stack + [Int(0)], p := p + 2);
    st3 := st2.(stack := st1.stack, wstack := st.wstack[..|st.wstack| - 2], p := p + 3);
    ExecuteSplices(st);
    ZeroBeforeTest(st1);
    LoopExits(st2);
  }

  /** A `0` followed by `W` pushes the Integer 0 and stops on the `W`. */
  lemma ZeroBeforeTest(st: State)
    requires st.p + 1 < |st.code| && st.code[st.p] == '0' && st.code[st.p + 1] == 'W'
    ensures Step(st) == Ok(st.(stack := st.stack + [Int(0)], p := st.p + 1))
  {
    assert st.code[st.p..st.p + 1] == NatString(0);
    NumberLiteralRoundTrip(st, 0);
  }
}
