/** One iteration of the dispatch loop of `RFalse#run`, as a function on the
    interpreter's whole state, and a fuel-bounded run made of such steps.
    The imperative interpreter (module Interpreter) is proved to follow
    these functions step for step. */
module Machine {
  import opened Values
  import opened StackOps
  import opened Scanning

  /** The character of the `pick` instruction. */
  const PickChar: char := '\U{00BD}'
  /** The character of the flush instruction. */
  const FlushChar: char := '\U{00D4}'

  /** The whole state of a run: the program text `code` (which control flow
      grows in place), the cursor `p` (`@str_p`), the operand stack, the
      while-context stack, the globals, what has been printed, and the
      characters still to be read by `^`. */
  datatype State = State(
    code: string,
    p: nat,
    stack: seq<Value>,
    wstack: seq<Value>,
    globals: map<char, Value>,
    out: seq<Output>,
    input: seq<char>)

  /** The state of a fresh `RFalse` about to run `code`. */
  function Start(code: string, input: seq<char>): State {
    State(code, 0, [], [], map[], [], input)
  }

  /** `String#insert(i, t)`: `t` placed before the character at `i`. */
  function Insert(code: string, i: nat, t: string): (r: string)
    requires i <= |code|
    ensures |r| == |code| + |t|
    ensures r[..i] == code[..i] && r[i..i + |t|] == t && r[i + |t|..] == code[i..]
  {
    code[..i] + t + code[i..]
  }

  predicate IsWhitespace(c: char) {
    c == ' ' || c == '\r' || c == '\t' || c == '\n'
  }

  predicate IsOperator(c: char) {
    c == '+' || c == '-' || c == '*' || c == '/' || c == '_' || c == '=' || c == '>' ||
    c == '~' || c == '&' || c == '|' || c == '$' || c == '%' || c == '\\' || c == '@' ||
    c == PickChar
  }

  predicate IsLetter(c: char) {
    'a' <= c <= 'z'
  }

  /** The `RStack` operator an operator character calls. */
  function Operate(c: char, s: seq<Value>): Result<seq<Value>>
    requires IsOperator(c)
  {
    match c
    case '+' => Plus(s)
    case '-' => Minus(s)
    case '*' => Times(s)
    case '/' => Divide(s)
    case '_' => Negate(s)
    case '=' => Equal(s)
    case '>' => Greater(s)
    case '~' => Not(s)
    case '&' => And(s)
    case '|' => Or(s)
    case '$' => Dup(s)
    case '%' => Drop(s)
    case '\\' => Swap(s)
    case '@' => Rot(s)
    case _ => Pick(s)
  }

  /** The text `#` splices in for condition `b`: push it as a lambda, run
      it, then test with `W`. */
  function WhileEntry(b: Value): string {
    "[" + Interpolate(b) + "]!W"
  }

  /** The text `W` splices in to go round once more: run the body `a`, run
      the condition `b`, test again. */
  function WhileAgain(a: Value, b: Value): string {
    "[" + Interpolate(a) + "]![" + Interpolate(b) + "]!W"
  }

  /** The classes of instruction the dispatcher's `case` tells apart. */
  datatype Instr =
    | Skip | Operator | Comment | Number | Lambda | Str | Global
    | Execute | Print | Read | CharLit | If | While | LoopTest | Unknown

  /** Which branch of the `case` the character `c` selects. Whitespace and
      the flush character select the branches that do nothing (`Skip`). */
  function Kind(c: char): (k: Instr)
    ensures k == Skip <==> IsWhitespace(c) || c == FlushChar
    ensures k == Operator <==> IsOperator(c)
    ensures k == Comment <==> c == '{'
    ensures k == Number <==> IsDigit(c)
    ensures k == Lambda <==> c == '['
    ensures k == Str <==> c == '"'
    ensures k == Global <==> IsLetter(c)
    ensures k == Execute <==> c == '!'
    ensures k == Print <==> c == '.' || c == ','
    ensures k == Read <==> c == '^'
    ensures k == CharLit <==> c == '\''
    ensures k == If <==> c == '?'
    ensures k == While <==> c == '#'
    ensures k == LoopTest <==> c == 'W'
    ensures k == Unknown <==>
      !(IsWhitespace(c) || c == FlushChar || IsOperator(c) || c == '{' || IsDigit(c) || c == '[' ||
        c == '"' || IsLetter(c) || c == '!' || c == '.' || c == ',' || c == '^' || c == '\'' ||
        c == '?' || c == '#' || c == 'W')
  {
    if IsWhitespace(c) || c == FlushChar then Skip
    else if IsOperator(c) then Operator
    else if c == '{' then Comment
    else if IsDigit(c) then Number
    else if c == '[' then Lambda
    else if c == '"' then Str
    else if IsLetter(c) then Global
    else if c == '!' then Execute
    else if c == '.' || c == ',' then Print
    else if c == '^' then Read
    else if c == '\'' then CharLit
    else if c == '?' then If
    else if c == '#' then While
    else if c == 'W' then LoopTest
    else Unknown
  }

  /** One iteration of `run`'s loop for the character at the cursor,
      including the final `@str_p += 1`. Whitespace and the flush
      instruction only move the cursor. */
  function Step(st: State): Result<State>
    requires st.p < |st.code|
  {
    match Kind(st.code[st.p])
    case Skip => Ok(st.(p := st.p + 1))
    case Operator => StepOperator(st)
    case Comment => StepComment(st)
    case Number => StepNumber(st)
    case Lambda => StepLambda(st)
    case Str => StepString(st)
    case Global => StepGlobal(st)
    case Execute => StepExecute(st)
    case Print => StepPrint(st)
    case Read => StepRead(st)
    case CharLit => StepCharLiteral(st)
    case If => StepIf(st)
    case While => StepWhile(st)
    case LoopTest => StepLoopTest(st)
    case Unknown => Err(UnknownInstruction(st.code[st.p]))
  }

  /** An `RStack` operator. */
  function StepOperator(st: State): Result<State>
    requires st.p < |st.code| && IsOperator(st.code[st.p])
  {
    match Operate(st.code[st.p], st.stack)
    case Ok(s') => Ok(st.(stack := s', p := st.p + 1))
    case Err(e) => Err(e)
  }

  /** `{`: the cursor jumps to the next `}` (comments do not nest). */
  function StepComment(st: State): Result<State>
    requires st.p < |st.code| && st.code[st.p] == '{'
  {
    match IndexOf(st.code, '}', st.p + 1)
    case None => Err(UnterminatedComment)
    case Some(q) => Ok(st.(p := q + 1))
  }

  /** A digit: push the number the maximal digit run denotes and move past
      the run. */
  function StepNumber(st: State): Result<State>
    requires st.p < |st.code| && IsDigit(st.code[st.p])
  {
    var e := DigitRunEnd(st.code, st.p);
    Ok(st.(stack := st.stack + [Int(DecimalValue(st.code[st.p..e]))], p := e))
  }

  /** `[`: push the text up to the depth-matched `]` and move past it. */
  function StepLambda(st: State): Result<State>
    requires st.p < |st.code| && st.code[st.p] == '['
  {
    match Match(st.code, st.p + 1, 1)
    case None => Err(UnterminatedLambda)
    case Some(q) => Ok(st.(stack := st.stack + [Text(st.code[st.p + 1..q])], p := q + 1))
  }

  /** `"`: print the text up to the next `"` and move past it. */
  function StepString(st: State): Result<State>
    requires st.p < |st.code| && st.code[st.p] == '"'
  {
    match IndexOf(st.code, '"', st.p + 1)
    case None => Err(UnterminatedString)
    case Some(q) => Ok(st.(out := st.out + [OutText(st.code[st.p + 1..q])], p := q + 1))
  }

  /** `!`: pop a lambda and splice its text in right after the cursor. */
  function StepExecute(st: State): Result<State>
    requires st.p < |st.code| && st.code[st.p] == '!'
  {
    var s := st.stack;
    if |s| < 1 then Err(StackUnderflow)
    else if !s[|s| - 1].Text? then Err(TypeMismatch)
    else Ok(st.(code := Insert(st.code, st.p + 1, s[|s| - 1].s), stack := s[..|s| - 1], p := st.p + 1))
  }

  /** `^`: read one character and push it (a digit as its Integer). */
  function StepRead(st: State): Result<State>
    requires st.p < |st.code| && st.code[st.p] == '^'
  {
    if st.input == [] then Err(InputExhausted)
    else Ok(st.(stack := st.stack + [CharValue([st.input[0]])], input := st.input[1..], p := st.p + 1))
  }

  /** `'`: push the next character of the text (a digit as its Integer,
      the empty string at the very end) and skip over it. */
  function StepCharLiteral(st: State): Result<State>
    requires st.p < |st.code| && st.code[st.p] == '\''
  {
    var lit := if st.p + 1 < |st.code| then [st.code[st.p + 1]] else "";
    Ok(st.(stack := st.stack + [CharValue(lit)], p := st.p + 2))
  }

  /** A letter: `x:` stores the popped value, `x;` pushes the stored value
      (nil when the letter was never assigned: the `or raise` of the source
      binds to the result of `push`, which is the stack itself and never
      false). */
  function StepGlobal(st: State): Result<State>
    requires st.p < |st.code| && IsLetter(st.code[st.p])
  {
    var code, p, s := st.code, st.p, st.stack;
    var x := code[p];
    if p + 1 < |code| && code[p + 1] == ':' then
      if |s| < 1 then Err(StackUnderflow)
      else Ok(st.(globals := st.globals[x := s[|s| - 1]], stack := s[..|s| - 1], p := p + 2))
    else if p + 1 < |code| && code[p + 1] == ';' then
      Ok(st.(stack := s + [if x in st.globals then st.globals[x] else Nil], p := p + 2))
    else
      Err(GlobalSyntax)
  }

  /** `.` prints `pop.to_i`, `,` prints `pop.chr`. */
  function StepPrint(st: State): Result<State>
    requires st.p < |st.code| && (st.code[st.p] == '.' || st.code[st.p] == ',')
  {
    var s := st.stack;
    if |s| < 1 then Err(StackUnderflow)
    else
      var v := s[|s| - 1];
      var printed :=
        if st.code[st.p] == '.' then
          match v
          case Int(n) => Ok(OutInt(n))
          case Nil => Ok(OutInt(0))
          case Text(_) => Err(TypeMismatch)
        else
          match v
          case Int(n) => if 0 <= n < 256 then Ok(OutText([n as char])) else Err(CharOutOfRange)
          case Text(t) => Ok(OutText(if t == "" then "" else t[..1]))
          case Nil => Err(TypeMismatch);
      match printed
      case Ok(o) => Ok(st.(stack := s[..|s| - 1], out := st.out + [o], p := st.p + 1))
      case Err(e) => Err(e)
  }

  /** `?`: pop the lambda `f` and the flag `b`; when `b` is -1, splice
      `f`'s text in right after the cursor. */
  function StepIf(st: State): Result<State>
    requires st.p < |st.code| && st.code[st.p] == '?'
  {
    var s := st.stack;
    if |s| < 2 then Err(StackUnderflow)
    else
      var f, b := s[|s| - 1], s[|s| - 2];
      if b != Int(-1) then Ok(st.(stack := s[..|s| - 2], p := st.p + 1))
      else if !f.Text? then Err(TypeMismatch)
      else Ok(st.(code := Insert(st.code, st.p + 1, f.s), stack := s[..|s| - 2], p := st.p + 1))
  }

  /** `#`: pop the body `a` and the condition `b`, push `b` and `a` on the
      while-context stack, and splice in the first test of the condition. */
  function StepWhile(st: State): Result<State>
    requires st.p < |st.code| && st.code[st.p] == '#'
  {
    var s := st.stack;
    if |s| < 2 then Err(StackUnderflow)
    else
      var a, b := s[|s| - 1], s[|s| - 2];
      Ok(st.(code := Insert(st.code, st.p + 1, WhileEntry(b)), stack := s[..|s| - 2],
             wstack := st.wstack + [b, a], p := st.p + 1))
  }

  /** `W`, the loop test `#` and `W` splice in: pop the flag `r`, and
      pop the loop's pair `a`, `b` off the while-context stack; when `r` is
      -1, put the pair back and splice in the body and the next test. */
  function StepLoopTest(st: State): Result<State>
    requires st.p < |st.code| && st.code[st.p] == 'W'
  {
    var s, w := st.stack, st.wstack;
    if |s| < 1 || |w| < 2 then Err(StackUnderflow)
    else
      var r, a, b := s[|s| - 1], w[|w| - 1], w[|w| - 2];
      if r == Int(-1) then
        Ok(st.(code := Insert(st.code, st.p + 1, WhileAgain(a, b)), stack := s[..|s| - 1], p := st.p + 1))
      else
        Ok(st.(stack := s[..|s| - 1], wstack := w[..|w| - 2], p := st.p + 1))
  }

  /** How a bounded run ends. */
  datatype Outcome =
    | Halted(final: State)                 // the cursor passed the end of the text
    | Failed(error: Error, last: State)    // an instruction raised at `last`
    | OutOfFuel(last: State)               // the step budget ran out first

  function Last(o: Outcome): State {
    match o
    case Halted(st) => st
    case Failed(_, st) => st
    case OutOfFuel(st) => st
  }

  /** `run`'s loop, for at most `fuel` iterations. */
  function Exec(fuel: nat, st: State): Outcome
    decreases fuel, 0
  {
    if st.p >= |st.code| then Halted(st)
    else if fuel == 0 then OutOfFuel(st)
    else ExecAt(fuel - 1, st)
  }

  /** The loop from a state whose cursor is on an instruction: one step,
      then at most `fuel` more iterations. */
  function ExecAt(fuel: nat, st: State): Outcome
    requires st.p < |st.code|
    decreases fuel, 1
  {
    match Step(st)
    case Err(e) => Failed(e, st)
    case Ok(st') => Exec(fuel, st')
  }
}
