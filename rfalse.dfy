/** `RFalse`, the interpreter object: two `RStack`s, the globals and the
    cursor, and `run`, the loop that dispatches on the character at the
    cursor and changes all of them in place. Every branch of the dispatch
    is proved to do what `Machine.Step` says one step does, and `Run` to
    end as `Machine.Exec` says a bounded run ends. */
module Interpreter {
  import opened Values
  import opened Scanning
  import opened Machine
  import opened RStacks
  import MachineFacts

  class RFalse {
    /** `@stack`, the operand stack. */
    const stack: RStack
    /** `@while_stack`, which holds the body and condition of each loop
        that is running. */
    const whileStack: RStack
    /** `@global_variables` */
    var globals: map<char, Value>
    /** `@str_p`, the cursor into the program text. */
    var strP: nat
    /** What `puts` has printed so far. */
    var output: seq<Output>
    /** The characters `^` has still to read. */
    var input: seq<char>

    /** The two stacks are distinct objects. */
    predicate Valid()
      reads this
    {
      stack != whileStack
    }

    /** `initialize`: empty stacks, no globals, the cursor at the start. */
    constructor (input: seq<char>)
      ensures Valid() && fresh(stack) && fresh(whileStack)
      ensures Snapshot([]) == Start([], input)
    {
      stack := new RStack();
      whileStack := new RStack();
      globals := map[];
      strP := 0;
      output := [];
      this.input := input;
    }

    /** The interpreter's state together with the program text `code`. */
    function Snapshot(code: string): State
      reads this, stack, whileStack
    {
      State(code, strP, stack.elems, whileStack.elems, globals, output, input)
    }

    /** A branch of the dispatch agrees with `spec`, one step of the
        specification, up to the final `@str_p += 1` of the loop body: it
        fails with the same error, or it leaves the text `r.value` and the
        fields as `spec` says, with the cursor one short. */
    predicate Reaches(spec: Result<State>, r: Result<string>)
      reads this, stack, whileStack
    {
      match spec
      case Ok(st') => r.Ok? && Snapshot(r.value).(p := strP + 1) == st'
      case Err(e) => r == Err(e)
    }

    /** An `RStack` operator. */
    method DoOperator(code: string) returns (r: Result<string>)
      requires Valid() && strP < |code| && IsOperator(code[strP])
      modifies stack
      ensures Reaches(StepOperator(old(Snapshot(code))), r)
    {
      var st := Operator(code[strP]);
      r := if st.Failure? then Err(st.error) else Ok(code);
    }

    /** The `RStack` method the operator character `c` names. */
    method Operator(c: char) returns (st: Status)
      requires IsOperator(c)
      modifies stack
      ensures Follows(Operate(c, old(stack.elems)), st, stack.elems)
    {
      match c {
      case '+' => st := stack.Plus();
      case '-' => st := stack.Minus();
      case '*' => st := stack.Times();
      case '/' => st := stack.Divide();
      case '_' => st := stack.Negate();
      case '=' => st := stack.Eq();
      case '>' => st := stack.Greater();
      case '~' => st := stack.Not();
      case '&' => st := stack.And();
      case '|' => st := stack.Or();
      case '$' => st := stack.Dup();
      case '%' => st := stack.Drop();
      case '\\' => st := stack.Swap();
      case '@' => st := stack.Rot();
      case _ => st := stack.Pick();
      }
    }

    /** `{`: the cursor moves onto the next `}`. */
    method DoComment(code: string) returns (r: Result<string>)
      requires strP < |code| && code[strP] == '{'
      modifies this
      ensures unchanged(stack, whileStack)
      ensures Reaches(StepComment(old(Snapshot(code))), r)
    {
      var q := IndexOf(code, '}', strP + 1);
      if q.None? {
        return Err(UnterminatedComment);
      }
      strP := q.value;
      r := Ok(code);
    }

    /** A digit: push the value of the digit run, the cursor onto its last
        digit. */
    method DoNumber(code: string) returns (r: Result<string>)
      requires Valid() && strP < |code| && IsDigit(code[strP])
      modifies this, stack
      ensures Reaches(StepNumber(old(Snapshot(code))), r)
    {
      var e := DigitRunEnd(code, strP);
      assert e > strP;
      stack.Push(Int(DecimalValue(code[strP..e])));
      strP := e - 1;
      r := Ok(code);
    }

    /** `[`: push the text up to the depth-matched `]`, the cursor onto
        that `]`. */
    method DoLambda(code: string) returns (r: Result<string>)
      requires Valid() && strP < |code| && code[strP] == '['
      modifies this, stack
      ensures Reaches(StepLambda(old(Snapshot(code))), r)
    {
      var q := ScanLambda(code, strP);
      if q.None? {
        return Err(UnterminatedLambda);
      }
      var l := code[strP + 1..q.value];
      stack.Push(Text(l));
      strP := strP + |l| + 1;
      r := Ok(code);
    }

    /** `"`: print the text up to the next `"`, the cursor onto it. */
    method DoString(code: string) returns (r: Result<string>)
      requires strP < |code| && code[strP] == '"'
      modifies this
      ensures unchanged(stack, whileStack)
      ensures Reaches(StepString(old(Snapshot(code))), r)
    {
      var q := IndexOf(code, '"', strP + 1);
      if q.None? {
        return Err(UnterminatedString);
      }
      var c := code[strP + 1..q.value];
      strP := strP + |c| + 1;
      output := output + [OutText(c)];
      r := Ok(code);
    }

    /** A letter: `x:` stores, `x;` loads, the cursor onto the `:` or `;`. */
    method DoGlobal(code: string) returns (r: Result<string>)
      requires Valid() && strP < |code| && IsLetter(code[strP])
      modifies this, stack
      ensures Reaches(StepGlobal(old(Snapshot(code))), r)
    {
      var x := code[strP];
      if strP + 1 < |code| && code[strP + 1] == ':' {
        var v := stack.Pop();
        if v.Err? {
          return Err(v.error);
        }
        globals := globals[x := v.value];
        strP := strP + 1;
      } else if strP + 1 < |code| && code[strP + 1] == ';' {
        stack.Push(if x in globals then globals[x] else Nil);
        strP := strP + 1;
      } else {
        return Err(GlobalSyntax);
      }
      r := Ok(code);
    }

    /** `!`: splice the popped lambda in after the cursor. */
    method DoExecute(code: string) returns (r: Result<string>)
      requires Valid() && strP < |code| && code[strP] == '!'
      modifies stack
      ensures Reaches(StepExecute(old(Snapshot(code))), r)
    {
      var f := stack.Pop();
      if f.Err? {
        return Err(f.error);
      }
      if !f.value.Text? {
        return Err(TypeMismatch);
      }
      r := Ok(Insert(code, strP + 1, f.value.s));
    }

    /** `.` and `,`: print the popped value. */
    method DoPrint(code: string) returns (r: Result<string>)
      requires Valid() && strP < |code| && (code[strP] == '.' || code[strP] == ',')
      modifies this, stack
      ensures Reaches(StepPrint(old(Snapshot(code))), r)
    {
      var v := stack.Pop();
      if v.Err? {
        return Err(v.error);
      }
      var o: Output;
      if code[strP] == '.' {
        match v.value
        case Int(n) => o := OutInt(n);
        case Nil => o := OutInt(0);
        case Text(_) => return Err(TypeMismatch);
      } else {
        match v.value
        case Int(n) =>
          if !(0 <= n < 256) {
            return Err(CharOutOfRange);
          }
          o := OutText([n as char]);
        case Text(t) => o := OutText(if t == "" then "" else t[..1]);
        case Nil => return Err(TypeMismatch);
      }
      output := output + [o];
      r := Ok(code);
    }

    /** `^`: read one character and push it. */
    method DoRead(code: string) returns (r: Result<string>)
      requires Valid() && strP < |code| && code[strP] == '^'
      modifies this, stack
      ensures Reaches(StepRead(old(Snapshot(code))), r)
    {
      if input == [] {
        return Err(InputExhausted);
      }
      var c := input[0];
      input := input[1..];
      stack.Push(CharValue([c]));
      r := Ok(code);
    }

    /** `'`: push the next character, the cursor onto it. */
    method DoCharLiteral(code: string) returns (r: Result<string>)
      requires Valid() && strP < |code| && code[strP] == '\''
      modifies this, stack
      ensures Reaches(StepCharLiteral(old(Snapshot(code))), r)
    {
      var c := if strP + 1 < |code| then [code[strP + 1]] else "";
      stack.Push(CharValue(c));
      strP := strP + 1;
      r := Ok(code);
    }

    /** `?`: pop the lambda and the flag, splice the lambda in when the
        flag is -1. */
    method DoIf(code: string) returns (r: Result<string>)
      requires Valid() && strP < |code| && code[strP] == '?'
      modifies stack
      ensures Reaches(StepIf(old(Snapshot(code))), r)
    {
      var f := stack.Pop();
      var b := stack.Pop();
      if f.Err? || b.Err? {
        return Err(StackUnderflow);
      }
      if b.value != Int(-1) {
        return Ok(code);
      }
      if !f.value.Text? {
        return Err(TypeMismatch);
      }
      r := Ok(Insert(code, strP + 1, f.value.s));
    }

    /** `#`: pop the body and the condition, save them on the while-context
        stack, splice in the first test of the condition. */
    method DoWhile(code: string) returns (r: Result<string>)
      requires Valid() && strP < |code| && code[strP] == '#'
      modifies stack, whileStack
      ensures Reaches(StepWhile(old(Snapshot(code))), r)
    {
      var a := stack.Pop();
      var b := stack.Pop();
      if a.Err? || b.Err? {
        return Err(StackUnderflow);
      }
      whileStack.Push(b.value);
      whileStack.Push(a.value);
      r := Ok(Insert(code, strP + 1, WhileEntry(b.value)));
    }

    /** `W`: pop the tested flag and the loop's pair; when the flag is -1,
        keep the pair and splice in the body and the next test. */
    method DoLoopTest(code: string) returns (r: Result<string>)
      requires Valid() && strP < |code| && code[strP] == 'W'
      modifies stack, whileStack
      ensures Reaches(StepLoopTest(old(Snapshot(code))), r)
    {
      ghost var s0, w0 := stack.elems, whileStack.elems;
      var t := stack.Pop();
      var a := whileStack.Pop();
      var b := whileStack.Pop();
      if t.Err? || a.Err? || b.Err? {
        return Err(StackUnderflow);
      }
      assert stack.elems == s0[..|s0| - 1] && t.value == s0[|s0| - 1];
      assert whileStack.elems == w0[..|w0| - 2] && a.value == w0[|w0| - 1] && b.value == w0[|w0| - 2];
      if t.value == Int(-1) {
        whileStack.Push(b.value);
        whileStack.Push(a.value);
        assert whileStack.elems == w0;
        r := Ok(Insert(code, strP + 1, WhileAgain(a.value, b.value)));
      } else {
        r := Ok(code);
      }
    }

    /** One iteration of `run`'s loop body: the `case` on the character at
        the cursor, then `@str_p += 1`. */
    method Dispatch(code: string) returns (r: Result<string>)
      requires Valid() && strP < |code|
      modifies this, stack, whileStack
      ensures Step(old(Snapshot(code))).Ok? ==> r.Ok? && Snapshot(r.value) == Step(old(Snapshot(code))).value
      ensures Step(old(Snapshot(code))).Err? ==> r == Err(Step(old(Snapshot(code))).error)
    {
      match Kind(code[strP]) {
      case Skip => r := Ok(code);
      case Operator => r := DoOperator(code);
      case Comment => r := DoComment(code);
      case Number => r := DoNumber(code);
      case Lambda => r := DoLambda(code);
      case Str => r := DoString(code);
      case Global => r := DoGlobal(code);
      case Execute => r := DoExecute(code);
      case Print => r := DoPrint(code);
      case Read => r := DoRead(code);
      case CharLit => r := DoCharLiteral(code);
      case If => r := DoIf(code);
      case While => r := DoWhile(code);
      case LoopTest => r := DoLoopTest(code);
      case Unknown => r := Err(UnknownInstruction(code[strP]));
      }
      if r.Ok? {
        strP := strP + 1;
      }
    }

    /** One pass of `run`'s loop body, seen from a run of `n + 1` steps:
        that run continues as a run of `n` steps from the new state, or it
        fails here. */
    method Iteration(code: string, ghost n: nat) returns (r: Result<string>)
      requires Valid() && strP < |code|
      modifies this, stack, whileStack
      ensures r.Ok? ==> Exec(n + 1, old(Snapshot(code))) == Exec(n, Snapshot(r.value))
      ensures r.Err? ==> Exec(n + 1, old(Snapshot(code))) == Failed(r.error, old(Snapshot(code)))
    {
      var before := Snapshot(code);
      r := Dispatch(code);
      if r.Err? {
        MachineFacts.ExecFails(n + 1, before);
      } else {
        MachineFacts.ExecStep(n, before, Snapshot(r.value));
      }
    }

    /** `run(code)` for at most `fuel` iterations of its loop. The outcome
        is the one `Exec` specifies; when the run did not fail, the object
        holds the final state. */
    method Run(code: string, fuel: nat) returns (o: Outcome)
      requires Valid()
      modifies this, stack, whileStack
      ensures o == Exec(fuel, old(Snapshot(code)))
      ensures !o.Failed? ==> Snapshot(Last(o).code) == Last(o)
    {
      ghost var goal := Exec(fuel, Snapshot(code));
      var text := code;
      var n := fuel;
      while strP < |text| && n > 0
        invariant Valid()
        invariant goal == Exec(n, Snapshot(text))
        decreases n
      {
        var before := Snapshot(text);
        var r := Iteration(text, n - 1);
        if r.Err? {
          return Failed(r.error, before);
        }
        text, n := r.value, n - 1;
      }
      o := if strP >= |text| then Halted(Snapshot(text)) else OutOfFuel(Snapshot(text));
      MachineFacts.ExecStops(n, Snapshot(text));
    }
  }
}
