/** The operators of `RStack` as functions on the stack's contents.
    A stack is a sequence listed bottom first, so its top is the last
    element, as in the Ruby Array the interpreter subclasses. Every operator
    pops its operands and pushes its result; a pop on an empty stack is
    reported as `StackUnderflow`. */
module StackOps {
  import opened Values

  /** `self[-1]` */
  function Top(s: seq<Value>): (v: Value)
    ensures s != [] ==> v == s[|s| - 1]
    ensures s == [] ==> v == Nil
  {
    At(s, -1)
  }

  /** Ruby's Integer division, which rounds toward negative infinity. */
  function FloorDiv(b: int, a: int): (q: int)
    requires a != 0
    ensures a > 0 ==> a * q <= b < a * q + a
    ensures a < 0 ==> a * q >= b > a * q + a
  {
    if a > 0 then b / a else (-b) / (-a)
  }

  /** `push pop + pop` */
  function Plus(s: seq<Value>): Result<seq<Value>> {
    if |s| < 2 then Err(StackUnderflow)
    else
      var a, b := s[|s| - 1], s[|s| - 2];
      if a.Int? && b.Int? then Ok(s[..|s| - 2] + [Int(a.n + b.n)]) else Err(TypeMismatch)
  }

  /** `a = pop; b = pop; push b - a` */
  function Minus(s: seq<Value>): Result<seq<Value>> {
    if |s| < 2 then Err(StackUnderflow)
    else
      var a, b := s[|s| - 1], s[|s| - 2];
      if a.Int? && b.Int? then Ok(s[..|s| - 2] + [Int(b.n - a.n)]) else Err(TypeMismatch)
  }

  /** `push pop * pop` */
  function Times(s: seq<Value>): Result<seq<Value>> {
    if |s| < 2 then Err(StackUnderflow)
    else
      var a, b := s[|s| - 1], s[|s| - 2];
      if a.Int? && b.Int? then Ok(s[..|s| - 2] + [Int(a.n * b.n)]) else Err(TypeMismatch)
  }

  /** `a = pop; b = pop; push b / a`, with Ruby's flooring division. */
  function Divide(s: seq<Value>): Result<seq<Value>> {
    if |s| < 2 then Err(StackUnderflow)
    else
      var a, b := s[|s| - 1], s[|s| - 2];
      if !(a.Int? && b.Int?) then Err(TypeMismatch)
      else if a.n == 0 then Err(ZeroDivision)
      else Ok(s[..|s| - 2] + [Int(FloorDiv(b.n, a.n))])
  }

  /** `push -pop` */
  function Negate(s: seq<Value>): Result<seq<Value>> {
    if |s| < 1 then Err(StackUnderflow)
    else if s[|s| - 1].Int? then Ok(s[..|s| - 1] + [Int(-s[|s| - 1].n)])
    else Err(TypeMismatch)
  }

  /** `push pop == pop ? -1 : 0`; Ruby's `==` is defined on every value. */
  function Equal(s: seq<Value>): Result<seq<Value>> {
    if |s| < 2 then Err(StackUnderflow)
    else Ok(s[..|s| - 2] + [Bool(s[|s| - 1] == s[|s| - 2])])
  }

  /** `a = pop; b = pop; push b > a ? -1 : 0` */
  function Greater(s: seq<Value>): Result<seq<Value>> {
    if |s| < 2 then Err(StackUnderflow)
    else
      var a, b := s[|s| - 1], s[|s| - 2];
      if a.Int? && b.Int? then Ok(s[..|s| - 2] + [Bool(b.n > a.n)]) else Err(TypeMismatch)
  }

  /** `case pop when 0 then push -1 when -1 then push 0 else raise` */
  function Not(s: seq<Value>): Result<seq<Value>> {
    if |s| < 1 then Err(StackUnderflow)
    else if s[|s| - 1] == Int(0) then Ok(s[..|s| - 1] + [Int(-1)])
    else if s[|s| - 1] == Int(-1) then Ok(s[..|s| - 1] + [Int(0)])
    else Err(ExpectingBool)
  }

  /** `a = pop; b = pop; push (a == -1) && (b == -1) ? -1 : 0` */
  function And(s: seq<Value>): Result<seq<Value>> {
    if |s| < 2 then Err(StackUnderflow)
    else Ok(s[..|s| - 2] + [Bool(s[|s| - 1] == Int(-1) && s[|s| - 2] == Int(-1))])
  }

  /** `a = pop; b = pop; push (a == -1) || (b == -1) ? -1 : 0` */
  function Or(s: seq<Value>): Result<seq<Value>> {
    if |s| < 2 then Err(StackUnderflow)
    else Ok(s[..|s| - 2] + [Bool(s[|s| - 1] == Int(-1) || s[|s| - 2] == Int(-1))])
  }

  /** `$`: `a = pop; push a; push a` */
  function Dup(s: seq<Value>): Result<seq<Value>> {
    if |s| < 1 then Err(StackUnderflow) else Ok(s + [s[|s| - 1]])
  }

  /** `%`: `pop` */
  function Drop(s: seq<Value>): Result<seq<Value>> {
    if |s| < 1 then Err(StackUnderflow) else Ok(s[..|s| - 1])
  }

  /** `\`: `a = pop; b = pop; push a; push b` */
  function Swap(s: seq<Value>): Result<seq<Value>> {
    if |s| < 2 then Err(StackUnderflow)
    else Ok(s[..|s| - 2] + [s[|s| - 1], s[|s| - 2]])
  }

  /** `@`: `a = pop; b = pop; c = pop; push a; push c; push b` */
  function Rot(s: seq<Value>): Result<seq<Value>> {
    if |s| < 3 then Err(StackUnderflow)
    else Ok(s[..|s| - 3] + [s[|s| - 1], s[|s| - 3], s[|s| - 2]])
  }

  /** Ruby's `Array#[]` with one index: a negative index counts from the
      top (`-1` is the top), and an index outside the array yields nil. */
  function At(t: seq<Value>, i: int): Value {
    if 0 <= i < |t| then t[i]
    else if -|t| <= i < 0 then t[|t| + i]
    else Nil
  }

  /** `a = pop; raise if size <= a; b = self[-a]; push a; push b` */
  function Pick(s: seq<Value>): Result<seq<Value>> {
    if |s| < 1 then Err(StackUnderflow)
    else if !s[|s| - 1].Int? then Err(TypeMismatch)
    else
      var a, t := s[|s| - 1].n, s[..|s| - 1];
      if |t| <= a then Err(PickOutOfRange)
      else Ok(t + [Int(a), At(t, -a)])
  }

  // ---------------------------------------------------------------------
  // Properties of the operators

  /** `-`, `/` and `>` pop `a` then `b` and push `b op a`; `+` and `*` push
      the sum and the product; each leaves the elements below its two
      operands in place. */
  lemma ArithmeticOnTwoIntegers(rest: seq<Value>, b: int, a: int)
    ensures Plus(rest + [Int(b), Int(a)]) == Ok(rest + [Int(b + a)])
    ensures Minus(rest + [Int(b), Int(a)]) == Ok(rest + [Int(b - a)])
    ensures Times(rest + [Int(b), Int(a)]) == Ok(rest + [Int(b * a)])
    ensures Greater(rest + [Int(b), Int(a)]) == Ok(rest + [Bool(b > a)])
    ensures Negate(rest + [Int(a)]) == Ok(rest + [Int(-a)])
    ensures a == 0 ==> Divide(rest + [Int(b), Int(a)]) == Err(ZeroDivision)
    ensures a != 0 ==> Divide(rest + [Int(b), Int(a)]) == Ok(rest + [Int(FloorDiv(b, a))])
  {
    var s := rest + [Int(b), Int(a)];
    assert s[..|s| - 2] == rest;
    assert (rest + [Int(a)])[..|rest|] == rest;
  }

  /** When each operator raises, and with which error: too few operands is
      an underflow; an operand that is not an Integer where one is needed
      is a type mismatch; `/` refuses a zero divisor, `~` anything but a
      truth value, and `pick` an index the remaining stack cannot reach.
      `=`, `&`, `|`, `$`, `%`, `\` and `@` raise only on underflow. */
  lemma OperatorFailures(s: seq<Value>)
    ensures |s| < 2 ==> Plus(s) == Minus(s) == Times(s) == Divide(s) == Greater(s) ==
                        Equal(s) == And(s) == Or(s) == Swap(s) == Err(StackUnderflow)
    ensures |s| < 1 ==> Negate(s) == Not(s) == Dup(s) == Drop(s) == Pick(s) == Err(StackUnderflow)
    ensures Rot(s).Err? <==> |s| < 3
    ensures Rot(s).Err? ==> Rot(s).error == StackUnderflow
    ensures |s| >= 2 ==> Equal(s).Ok? && And(s).Ok? && Or(s).Ok? && Swap(s).Ok?
    ensures |s| >= 1 ==> Dup(s).Ok? && Drop(s).Ok?
    ensures |s| >= 2 && !(s[|s| - 1].Int? && s[|s| - 2].Int?) ==>
              Plus(s) == Minus(s) == Times(s) == Divide(s) == Greater(s) == Err(TypeMismatch)
    ensures |s| >= 2 && s[|s| - 1] == Int(0) && s[|s| - 2].Int? ==> Divide(s) == Err(ZeroDivision)
    ensures |s| >= 1 && !s[|s| - 1].Int? ==> Negate(s) == Pick(s) == Err(TypeMismatch)
    ensures |s| >= 1 && s[|s| - 1] != Int(0) && s[|s| - 1] != Int(-1) ==> Not(s) == Err(ExpectingBool)
    ensures |s| >= 1 && s[|s| - 1].Int? && |s| - 1 <= s[|s| - 1].n ==> Pick(s) == Err(PickOutOfRange)
  {
  }

  /** The binary operators shrink a stack of at least two elements by
      exactly one and never touch what lies below their operands. */
  lemma BinaryShrinksByOne(s: seq<Value>)
    requires |s| >= 2
    ensures forall r :: r in [Plus(s), Minus(s), Times(s), Divide(s), Greater(s), Equal(s), And(s), Or(s)] && r.Ok? ==>
              |r.value| == |s| - 1 && r.value[..|s| - 2] == s[..|s| - 2]
  {
  }

  /** `=`, `>`, `&` and `|` only ever push one of FALSE's truth values. */
  lemma ComparisonsPushBooleans(s: seq<Value>)
    ensures forall r :: r in [Equal(s), Greater(s), And(s), Or(s), Not(s)] && r.Ok? ==>
              |r.value| > 0 && (Top(r.value) == Int(-1) || Top(r.value) == Int(0))
  {
  }

  /** `&` yields true iff both operands are -1, `|` iff either is. */
  lemma AndOrTruth(rest: seq<Value>, b: Value, a: Value)
    ensures And(rest + [b, a]) == Ok(rest + [Bool(a == Int(-1) && b == Int(-1))])
    ensures Or(rest + [b, a]) == Ok(rest + [Bool(a == Int(-1) || b == Int(-1))])
  {
    var s := rest + [b, a];
    assert s[..|s| - 2] == rest;
  }

  /** `~` exchanges 0 and -1 and refuses every other value. */
  lemma NotTruth(rest: seq<Value>, v: Value)
    ensures v == Int(0) ==> Not(rest + [v]) == Ok(rest + [Int(-1)])
    ensures v == Int(-1) ==> Not(rest + [v]) == Ok(rest + [Int(0)])
    ensures v != Int(0) && v != Int(-1) ==> Not(rest + [v]) == Err(ExpectingBool)
  {
    var s := rest + [v];
    assert s[..|s| - 1] == rest;
  }

  /** `~` applied twice to a truth value restores the stack. */
  lemma NotTwice(s: seq<Value>)
    requires |s| >= 1 && (Top(s) == Int(0) || Top(s) == Int(-1))
    ensures Not(s).Ok? && Not(Not(s).value) == Ok(s)
  {
    var t := Not(s).value;
    assert t[..|t| - 1] == s[..|s| - 1];
    assert t[..|t| - 1] + [s[|s| - 1]] == s;
  }

  /** Two swaps restore the stack. */
  lemma SwapTwice(s: seq<Value>)
    requires |s| >= 2
    ensures Swap(s).Ok? && Swap(Swap(s).value) == Ok(s)
  {
    var t := Swap(s).value;
    assert t[..|t| - 2] == s[..|s| - 2];
    assert s == s[..|s| - 2] + [s[|s| - 2], s[|s| - 1]];
  }

  /** Three rotations restore the stack. One rotation turns top-to-bottom
      `a, b, c` into `b, c, a`: the second element comes to the top and the
      former top sinks to third place. */
  lemma RotThrice(s: seq<Value>)
    requires |s| >= 3
    ensures Rot(s).Ok? && Rot(s).value[|s| - 3..] == [s[|s| - 1], s[|s| - 3], s[|s| - 2]]
    ensures Rot(s).Ok? && Rot(Rot(s).value).Ok? && Rot(Rot(Rot(s).value).value) == Ok(s)
  {
    var rest := s[..|s| - 3];
    var c, b, a := s[|s| - 3], s[|s| - 2], s[|s| - 1];
    assert s == rest + [c, b, a];
    var t1 := Rot(s).value;
    assert t1 == rest + [a, c, b];
    assert t1[..|t1| - 3] == rest;
    var t2 := Rot(t1).value;
    assert t2 == rest + [b, a, c];
    assert t2[..|t2| - 3] == rest;
    var t3 := Rot(t2).value;
    assert t3 == rest + [c, b, a];
  }

  /** `$` followed by `%` restores the stack. */
  lemma DupThenDrop(s: seq<Value>)
    requires |s| >= 1
    ensures Dup(s).Ok? && Drop(Dup(s).value) == Ok(s)
  {
    var t := Dup(s).value;
    assert t[..|t| - 1] == s;
  }

  /** Swap only reorders the stack. */
  lemma SwapPermutes(s: seq<Value>)
    requires |s| >= 2
    ensures Swap(s).Ok? && multiset(Swap(s).value) == multiset(s)
  {
    var rest, b, a := s[..|s| - 2], s[|s| - 2], s[|s| - 1];
    assert s == rest + [b, a];
    assert s[..|s| - 1] == rest + [b];
    assert Swap(s).value == rest + [a, b];
    assert multiset([b, a]) == multiset([a, b]);
  }

  /** Rot only reorders the stack. */
  lemma RotPermutes(s: seq<Value>)
    requires |s| >= 3
    ensures Rot(s).Ok? && multiset(Rot(s).value) == multiset(s)
  {
    var rest := s[..|s| - 3];
    var c, b, a := s[|s| - 3], s[|s| - 2], s[|s| - 1];
    assert s == rest + [c, b, a];
    assert multiset(s) == multiset(rest) + multiset([c, b, a]);
    assert multiset(Rot(s).value) == multiset(rest) + multiset([a, c, b]);
  }

  /** Dup adds one more copy of the top element and drop removes it. */
  lemma DupDropCounts(s: seq<Value>)
    requires |s| >= 1
    ensures Dup(s).Ok? && multiset(Dup(s).value) == multiset(s) + multiset{Top(s)}
    ensures Drop(s).Ok? && multiset(Drop(s).value) + multiset{Top(s)} == multiset(s)
  {
    assert s == s[..|s| - 1] + [Top(s)];
  }

  /** `pick` fails with `PickOutOfRange` exactly when the stack left after
      popping the index `a` has at most `a` elements. Otherwise it grows the
      stack by one net element: the index goes back, the element
      `self[-a]` lands on top, and everything below is unchanged. For
      `a >= 1` that is the a-th element from the top, for `a == 0` the
      bottom element, and for a negative `a` the element at index `-a`, or
      nil when the stack is not that high. */
  lemma PickEffect(rest: seq<Value>, a: int)
    ensures |rest| <= a ==> Pick(rest + [Int(a)]) == Err(PickOutOfRange)
    ensures |rest| > a ==> Pick(rest + [Int(a)]) == Ok(rest + [Int(a), At(rest, -a)])
    ensures |rest| > a >= 1 ==> Top(Pick(rest + [Int(a)]).value) == rest[|rest| - a]
    ensures |rest| > a == 0 ==> Top(Pick(rest + [Int(a)]).value) == rest[0]
    ensures a < 0 ==> Top(Pick(rest + [Int(a)]).value) == (if -a < |rest| then rest[-a] else Nil)
    ensures |rest| > a ==> |Pick(rest + [Int(a)]).value| == |rest| + 2
  {
    var s := rest + [Int(a)];
    assert s[..|s| - 1] == rest;
  }

  /** `1 pick` copies the element that was on top before the index and
      leaves the index under the copy; because the size test is `size <= a`,
      it refuses a stack that holds that element alone. */
  lemma PickOneCopiesTop(rest: seq<Value>, v: Value)
    ensures rest != [] ==> Pick(rest + [v, Int(1)]) == Ok(rest + [v, Int(1), v])
    ensures rest == [] ==> Pick(rest + [v, Int(1)]) == Err(PickOutOfRange)
  {
    var s, t := rest + [v, Int(1)], rest + [v];
    assert s[..|s| - 1] == t;
    assert t + [Int(1), v] == rest + [v, Int(1), v];
  }
}
