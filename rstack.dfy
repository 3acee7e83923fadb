/** `RStack`, the Array subclass that holds the operand stack and the
    while-context stack. Each operator pops its operands and pushes its
    result in place, and is proved to leave the stack as the corresponding
    function of `StackOps` says. */
module RStacks {
  import opened Values
  import StackOps

  /** The new contents `now` and the reported status agree with what the
      specification function computed from the old contents. After a
      failure the contents are left as the pops left them: the run is over. */
  predicate Follows(spec: Result<seq<Value>>, st: Status, now: seq<Value>) {
    match spec
    case Ok(s) => st == Success && now == s
    case Err(e) => st == Failure(e)
  }

  class RStack {
    /** The elements, bottom first; the top is the last one. */
    var elems: seq<Value>

    constructor ()
      ensures elems == []
    {
      elems := [];
    }

    /** `top`: the top element without removing it, nil when empty. */
    function Top(): (v: Value)
      reads this
      ensures elems != [] ==> v == elems[|elems| - 1] && v in elems
      ensures elems == [] ==> v == Nil
    {
      StackOps.Top(elems)
    }

    method Push(v: Value)
      modifies this
      ensures elems == old(elems) + [v]
    {
      elems := elems + [v];
    }

    /** `Array#pop`; popping an empty stack is an underflow and changes
        nothing. */
    method Pop() returns (r: Result<Value>)
      modifies this
      ensures old(elems) == [] ==> r == Err(StackUnderflow) && elems == old(elems)
      ensures old(elems) != [] ==> r == Ok(old(elems)[|old(elems)| - 1]) && elems == old(elems)[..|old(elems)| - 1]
    {
      if elems == [] {
        r := Err(StackUnderflow);
      } else {
        r := Ok(elems[|elems| - 1]);
        elems := elems[..|elems| - 1];
      }
    }

    /** `+` */
    method Plus() returns (st: Status)
      modifies this
      ensures Follows(StackOps.Plus(old(elems)), st, elems)
    {
      var a := Pop();
      var b := Pop();
      if a.Err? || b.Err? { return Failure(StackUnderflow); }
      if !(a.value.Int? && b.value.Int?) { return Failure(TypeMismatch); }
      Push(Int(a.value.n + b.value.n));
      st := Success;
    }

    /** `-` */
    method Minus() returns (st: Status)
      modifies this
      ensures Follows(StackOps.Minus(old(elems)), st, elems)
    {
      var a := Pop();
      var b := Pop();
      if a.Err? || b.Err? { return Failure(StackUnderflow); }
      if !(a.value.Int? && b.value.Int?) { return Failure(TypeMismatch); }
      Push(Int(b.value.n - a.value.n));
      st := Success;
    }

    /** `*` */
    method Times() returns (st: Status)
      modifies this
      ensures Follows(StackOps.Times(old(elems)), st, elems)
    {
      var a := Pop();
      var b := Pop();
      if a.Err? || b.Err? { return Failure(StackUnderflow); }
      if !(a.value.Int? && b.value.Int?) { return Failure(TypeMismatch); }
      Push(Int(a.value.n * b.value.n));
      st := Success;
    }

    /** `/` */
    method Divide() returns (st: Status)
      modifies this
      ensures Follows(StackOps.Divide(old(elems)), st, elems)
    {
      var a := Pop();
      var b := Pop();
      if a.Err? || b.Err? { return Failure(StackUnderflow); }
      if !(a.value.Int? && b.value.Int?) { return Failure(TypeMismatch); }
      if a.value.n == 0 { return Failure(ZeroDivision); }
      Push(Int(StackOps.FloorDiv(b.value.n, a.value.n)));
      st := Success;
    }

    /** `_` */
    method Negate() returns (st: Status)
      modifies this
      ensures Follows(StackOps.Negate(old(elems)), st, elems)
    {
      var a := Pop();
      if a.Err? { return Failure(StackUnderflow); }
      if !a.value.Int? { return Failure(TypeMismatch); }
      Push(Int(-a.value.n));
      st := Success;
    }

    /** `eq` (the `=` instruction) */
    method Eq() returns (st: Status)
      modifies this
      ensures Follows(StackOps.Equal(old(elems)), st, elems)
    {
      var a := Pop();
      var b := Pop();
      if a.Err? || b.Err? { return Failure(StackUnderflow); }
      Push(Bool(a.value == b.value));
      st := Success;
    }

    /** `>` */
    method Greater() returns (st: Status)
      modifies this
      ensures Follows(StackOps.Greater(old(elems)), st, elems)
    {
      var a := Pop();
      var b := Pop();
      if a.Err? || b.Err? { return Failure(StackUnderflow); }
      if !(a.value.Int? && b.value.Int?) { return Failure(TypeMismatch); }
      Push(Bool(b.value.n > a.value.n));
      st := Success;
    }

    /** `~` */
    method Not() returns (st: Status)
      modifies this
      ensures Follows(StackOps.Not(old(elems)), st, elems)
    {
      var a := Pop();
      if a.Err? { return Failure(StackUnderflow); }
      if a.value == Int(0) {
        Push(Int(-1));
      } else if a.value == Int(-1) {
        Push(Int(0));
      } else {
        return Failure(ExpectingBool);
      }
      st := Success;
    }

    /** `&` */
    method And() returns (st: Status)
      modifies this
      ensures Follows(StackOps.And(old(elems)), st, elems)
    {
      var a := Pop();
      var b := Pop();
      if a.Err? || b.Err? { return Failure(StackUnderflow); }
      Push(Bool(a.value == Int(-1) && b.value == Int(-1)));
      st := Success;
    }

    /** `|` */
    method Or() returns (st: Status)
      modifies this
      ensures Follows(StackOps.Or(old(elems)), st, elems)
    {
      var a := Pop();
      var b := Pop();
      if a.Err? || b.Err? { return Failure(StackUnderflow); }
      Push(Bool(a.value == Int(-1) || b.value == Int(-1)));
      st := Success;
    }

    /** `dup` (the `$` instruction) */
    method Dup() returns (st: Status)
      modifies this
      ensures Follows(StackOps.Dup(old(elems)), st, elems)
    {
      var a := Pop();
      if a.Err? { return Failure(StackUnderflow); }
      Push(a.value);
      Push(a.value);
      st := Success;
    }

    /** `%` */
    method Drop() returns (st: Status)
      modifies this
      ensures Follows(StackOps.Drop(old(elems)), st, elems)
    {
      var a := Pop();
      if a.Err? { return Failure(StackUnderflow); }
      st := Success;
    }

    /** `swap` (the `\` instruction) */
    method Swap() returns (st: Status)
      modifies this
      ensures Follows(StackOps.Swap(old(elems)), st, elems)
    {
      var a := Pop();
      var b := Pop();
      if a.Err? || b.Err? { return Failure(StackUnderflow); }
      Push(a.value);
      Push(b.value);
      st := Success;
    }

    /** `rot` (the `@` instruction) */
    method Rot() returns (st: Status)
      modifies this
      ensures Follows(StackOps.Rot(old(elems)), st, elems)
    {
      var a := Pop();
      var b := Pop();
      var c := Pop();
      if a.Err? || b.Err? || c.Err? { return Failure(StackUnderflow); }
      Push(a.value);
      Push(c.value);
      Push(b.value);
      st := Success;
    }

    /** `pick` (the `½` instruction) */
    method Pick() returns (st: Status)
      modifies this
      ensures Follows(StackOps.Pick(old(elems)), st, elems)
    {
      var a := Pop();
      if a.Err? { return Failure(StackUnderflow); }
      if !a.value.Int? { return Failure(TypeMismatch); }
      if |elems| <= a.value.n { return Failure(PickOutOfRange); }
      var b := StackOps.At(elems, -a.value.n);
      Push(a.value);
      Push(b);
      st := Success;
    }
  }
}
