# rfalse in Dafny

A model of the execution engine of `rfalse.rb`, an interpreter for the
esoteric stack language FALSE, with proofs about it. It has two parts.

- **`RStack`**: the Array subclass whose operators (`+ - * / _ eq > ~ & |
  dup % swap rot pick`) pop their operands and push their result in place.
  `StackOps` states each operator as a function on the stack's contents,
  listed bottom first, and proves the operators' laws. `RStacks.RStack` is
  a class with an `elems` field whose methods perform the same pops and
  pushes. Each method is proved to leave `elems` as its `StackOps`
  function says.
- **`RFalse#run`**: the dispatch loop over a program text `code` with the
  cursor `@str_p`. Control flow works by splicing text into `code` right
  after the cursor:
  - `!` splices in a lambda;
  - `?` splices in a lambda when its flag is -1;
  - `#` splices in `[b]!W`;
  - the synthetic `W` splices in `[a]![b]!W`.

  The other parts are:
  - `Machine` states one iteration of the loop as `Step`, a function on
    the whole interpreter state (text, cursor, operand stack,
    while-context stack, globals, printed output, pending input).
  - `Machine.Exec` is the loop bounded by a step budget.
  - `MachineFacts` proves what the splicing preserves and how literals are
    read.
  - `Interpreter.RFalse` is the interpreter object. Its `Run` method is a
    `while` loop over the cursor, proved to end as `Exec` says.

Values are Ruby Integers (unbounded), Ruby Strings (lambdas, and
character literals that are not digits) and `nil`. FALSE's truth values
are -1 and 0.

Three behaviours of the code are worth knowing:
- **Unset globals:** reading one pushes nil. The `or raise` at
  rfalse.rb:327 applies to the result of `push`, which is always true, so
  it never fires. The documented "Undefined global variable" error
  therefore never happens, and the model follows the code.
- **`pick`:** it pushes its index back under the copy, and `self[-a]`
  counts from the top with `-1` as the top. So `1 pick` copies the element
  below the index, and it fails on a stack that holds only that element
  and the index.
- **`rot`:** it turns top-to-bottom `a, b, c` into `b, c, a`.

## Model

| member | source | states |
|---|---|---|
| Values.Bool | rfalse.rb:108-112 | the pushed truth value is -1 exactly when the condition holds, and 0 otherwise |
| Values.DecimalValue | rfalse.rb:300 | defines `to_i` of a digit run: the digits read as a base-10 number, last digit least significant (no contract; read back by `NatStringRoundTrip`) |
| Values.NatString | rfalse.rb:375 | defines Ruby's decimal text of a non-negative Integer (no contract; its round trip is `NatStringRoundTrip`) |
| Values.IntString | rfalse.rb:375 | defines `Integer#to_s`: a minus sign before the digits of a negative number (no contract) |
| Values.Interpolate | rfalse.rb:375 | defines `"#{v}"`: an Integer's decimal text, a String itself, nil as the empty text (no contract; `Scanning.InterpolatedNumberBalanced` is proved about it) |
| Values.NatStringRoundTrip | rfalse.rb:298-301 | the decimal text Ruby interpolates for a non-negative Integer is a non-empty digit run that reads back as the same Integer |
| StackOps.Top | rfalse.rb:48-50 | `top` is the last element, or nil when the stack is empty |
| StackOps.FloorDiv | rfalse.rb:94-98 | Ruby's Integer `/` rounds toward negative infinity: the quotient q satisfies a*q <= b < a*q + a for a positive divisor, and the mirror bounds for a negative one |
| StackOps.Plus | rfalse.rb:70-72 | defines `+` on the contents (no contract; its laws are `ArithmeticOnTwoIntegers`, `OperatorFailures`, `BinaryShrinksByOne`) |
| StackOps.Minus | rfalse.rb:78-82 | defines `-` (no contract; laws in `ArithmeticOnTwoIntegers`, `OperatorFailures`, `BinaryShrinksByOne`) |
| StackOps.Times | rfalse.rb:87-89 | defines `*` (no contract; laws in `ArithmeticOnTwoIntegers`, `OperatorFailures`, `BinaryShrinksByOne`) |
| StackOps.Divide | rfalse.rb:94-98 | defines `/` with flooring and the zero-divisor error (no contract; laws in `ArithmeticOnTwoIntegers`, `OperatorFailures`, `FloorDiv`) |
| StackOps.Negate | rfalse.rb:102-104 | defines `_` (no contract; laws in `ArithmeticOnTwoIntegers`, `OperatorFailures`) |
| StackOps.Equal | rfalse.rb:111-113 | defines `eq` over any two values (no contract; laws in `ComparisonsPushBooleans`, `OperatorFailures`) |
| StackOps.Greater | rfalse.rb:121-125 | defines `>` as `b > a` (no contract; laws in `ArithmeticOnTwoIntegers`, `ComparisonsPushBooleans`, `OperatorFailures`) |
| StackOps.Not | rfalse.rb:130-139 | defines `~` (no contract; laws in `NotTruth`, `NotTwice`, `OperatorFailures`) |
| StackOps.And | rfalse.rb:144-148 | defines `&` (no contract; laws in `AndOrTruth`, `OperatorFailures`) |
| StackOps.Or | rfalse.rb:153-157 | defines or (the bar) (no contract; laws in `AndOrTruth`, `OperatorFailures`) |
| StackOps.Dup | rfalse.rb:161-165 | defines `dup` (no contract; laws in `DupThenDrop`, `DupDropCounts`, `OperatorFailures`) |
| StackOps.Drop | rfalse.rb:168-170 | defines `%` (no contract; laws in `DupThenDrop`, `DupDropCounts`, `OperatorFailures`) |
| StackOps.Swap | rfalse.rb:173-178 | defines `swap` (no contract; laws in `SwapTwice`, `SwapPermutes`, `OperatorFailures`) |
| StackOps.Rot | rfalse.rb:182-189 | defines `rot` pushing `a, c, b` (no contract; laws in `RotThrice`, `RotPermutes`, `OperatorFailures`) |
| StackOps.At | rfalse.rb:197 | defines `Array#[]` with one index: negative counts from the top, out of range is nil (no contract; used by `PickEffect`) |
| StackOps.Pick | rfalse.rb:194-200 | defines `pick` (no contract; laws in `PickEffect`, `PickOneCopiesTop`, `OperatorFailures`) |
| StackOps.ArithmeticOnTwoIntegers | rfalse.rb:70-104 | `+` and `*` push the sum and the product; `-`, `/` and `>` pop `a` then `b` and push `b op a`; `/` by zero raises; `_` pushes the negation; the elements below the operands stay in place |
| StackOps.OperatorFailures | rfalse.rb:70-200 | the error cases of every operator: too few operands is an underflow, a non-Integer where `+ - * / > _ pick` need one is a type mismatch, `/` by zero, `~` of a non-truth value and `pick` past the stack raise; `= & \ $ % @` and or (the bar) succeed whenever there are enough operands |
| StackOps.BinaryShrinksByOne | rfalse.rb:70-157 | every binary operator that succeeds shrinks the stack by exactly one and keeps everything below its two operands |
| StackOps.ComparisonsPushBooleans | rfalse.rb:111-157 | `=`, `>`, `&`, or (the bar) and `~` push only -1 or 0 |
| StackOps.AndOrTruth | rfalse.rb:144-157 | `&` pushes -1 iff both operands are -1; or (the bar) pushes -1 iff either is |
| StackOps.NotTruth | rfalse.rb:130-139 | `~` maps 0 to -1 and -1 to 0, and raises "expecting bool" on any other value |
| StackOps.NotTwice | rfalse.rb:130-139 | two `~` on a truth value restore the stack |
| StackOps.SwapTwice | rfalse.rb:173-178 | two `swap`s restore the stack |
| StackOps.RotThrice | rfalse.rb:182-189 | one `rot` pushes `a, c, b` in place of `c, b, a`, and three `rot`s restore the stack |
| StackOps.DupThenDrop | rfalse.rb:161-170 | `dup` followed by `%` restores the stack |
| StackOps.SwapPermutes | rfalse.rb:173-178 | `swap` leaves the multiset of elements unchanged |
| StackOps.RotPermutes | rfalse.rb:182-189 | `rot` leaves the multiset of elements unchanged |
| StackOps.DupDropCounts | rfalse.rb:161-170 | `dup` adds one copy of the top element to the multiset, and `%` removes one |
| StackOps.PickEffect | rfalse.rb:194-200 | `pick` raises exactly when the stack left after popping `a` has at most `a` elements. Otherwise it pushes `a` back and then `self[-a]`, leaves the elements below unchanged and grows the stack by one net element. The copied element is the a-th from the top for a >= 1, the bottom one for a = 0, and index -a (or nil) for negative a |
| StackOps.PickOneCopiesTop | rfalse.rb:194-200 | `1 pick` copies the element under the index and keeps the index under the copy; it raises when that element is alone on the stack |
| RStacks.RStack.constructor | rfalse.rb:210-211 | a new `RStack` is empty |
| RStacks.RStack.Top | rfalse.rb:48-50 | `top` is the element the `StackOps.Top` function names, and it is on the stack when the stack is not empty |
| RStacks.RStack.Push | rfalse.rb:44 | `push` appends one element on top |
| RStacks.RStack.Pop | rfalse.rb:44 | `pop` removes and returns the top element; on an empty stack it reports an underflow and changes nothing |
| RStacks.RStack.Plus | rfalse.rb:70-72 | `+` leaves the stack as `StackOps.Plus` of the old stack, or fails with its error |
| RStacks.RStack.Minus | rfalse.rb:78-82 | `-` leaves the stack as `StackOps.Minus` of the old stack, or fails with its error |
| RStacks.RStack.Times | rfalse.rb:87-89 | `*` leaves the stack as `StackOps.Times` of the old stack, or fails with its error |
| RStacks.RStack.Divide | rfalse.rb:94-98 | `/` leaves the stack as `StackOps.Divide` (flooring, zero divisor raises) of the old stack, or fails with its error |
| RStacks.RStack.Negate | rfalse.rb:102-104 | `_` leaves the stack as `StackOps.Negate` of the old stack, or fails with its error |
| RStacks.RStack.Eq | rfalse.rb:111-113 | `eq` leaves the stack as `StackOps.Equal` of the old stack, or fails with its error |
| RStacks.RStack.Greater | rfalse.rb:121-125 | `>` leaves the stack as `StackOps.Greater` of the old stack, or fails with its error |
| RStacks.RStack.Not | rfalse.rb:130-139 | `~` leaves the stack as `StackOps.Not` of the old stack, or fails with its error |
| RStacks.RStack.And | rfalse.rb:144-148 | `&` leaves the stack as `StackOps.And` of the old stack, or fails with its error |
| RStacks.RStack.Or | rfalse.rb:153-157 | or (the bar) leaves the stack as `StackOps.Or` of the old stack, or fails with its error |
| RStacks.RStack.Dup | rfalse.rb:161-165 | `dup` leaves the stack as `StackOps.Dup` of the old stack, or fails with its error |
| RStacks.RStack.Drop | rfalse.rb:168-170 | `%` leaves the stack as `StackOps.Drop` of the old stack, or fails with its error |
| RStacks.RStack.Swap | rfalse.rb:173-178 | `swap` leaves the stack as `StackOps.Swap` of the old stack, or fails with its error |
| RStacks.RStack.Rot | rfalse.rb:182-189 | `rot` leaves the stack as `StackOps.Rot` of the old stack, or fails with its error |
| RStacks.RStack.Pick | rfalse.rb:194-200 | `pick` leaves the stack as `StackOps.Pick` of the old stack, or fails with its error |
| Scanning.IndexOf | rfalse.rb:295 | `String#index`: the result holds the sought character and is the first such position at or after the start; none exactly when no later position holds it |
| Scanning.DigitRunEnd | rfalse.rb:299 | `/\A\d+/`: the run from the start to the result is all digits, and the character after it is not a digit |
| Scanning.CharValue | rfalse.rb:354-356 | `c.to_i.to_s == c ? c.to_i : c`: an Integer exactly when `c` is a single digit, and then that digit's value; otherwise the text `c` unchanged |
| Scanning.Match | rfalse.rb:305-311 | a position found by the depth scan holds `]` |
| Scanning.ScanLambda | rfalse.rb:305-311 | the counter loop over `f` and `c` stops on the `]` that `Match` names, or finds none when the text ends first |
| Scanning.MatchSkipsNested | rfalse.rb:307-310 | a stretch that never brings the depth to 0 is skipped by the scan, and the depth grows by the stretch's bracket balance |
| Scanning.MatchFindsClose | rfalse.rb:305-312 | the text the scan passes over before its `]` keeps the depth positive and brings it back exactly to 1 |
| Scanning.CapturedIsBalanced | rfalse.rb:304-312 | every captured lambda text has balanced brackets |
| Scanning.RewrapRoundTrip | rfalse.rb:370-385 | re-wrapping a balanced text `t` as `[t]`, as `#` and `W` do, and scanning it again stops on the new `]` and captures `t` |
| Scanning.BracketFreeIsBalanced | rfalse.rb:375 | a text without brackets is balanced |
| Scanning.InterpolatedNumberBalanced | rfalse.rb:375 | the interpolation of an Integer or of nil is balanced, so it survives re-wrapping |
| Machine.Insert | rfalse.rb:335 | `String#insert` keeps everything before the index, puts the inserted text at the index, and shifts the rest after it |
| Machine.Start | rfalse.rb:209-214 | defines the state of a fresh interpreter: empty stacks, no globals, cursor 0 (no contract; `Interpreter.RFalse.constructor` is proved to produce it) |
| Machine.Operate | rfalse.rb:233-291 | defines which `RStack` operator each operator character calls (no contract; `Interpreter.RFalse.Operator` is proved to follow it) |
| Machine.WhileEntry | rfalse.rb:375 | defines the text `[b]!W` that `#` splices in (no contract; `MachineFacts.WhileEntryRescansCondition` is proved about it) |
| Machine.WhileAgain | rfalse.rb:385 | defines the text `[a]![b]!W` that `W` splices in (no contract; `Scanning.RewrapRoundTrip` covers its rescanning) |
| Machine.Kind | rfalse.rb:228-390 | for each of the fifteen branches of the dispatch `case`, that branch is selected exactly when the character is one of its `when` characters: whitespace and `Ô` do nothing, and every other character reaches `else raise "syntax error"` |
| Machine.Step | rfalse.rb:228-395 | defines one iteration of the loop body, `@str_p += 1` included, by the branch `Kind` selects (no contract; its properties are the `MachineFacts` lemmas, and `Interpreter.RFalse.Dispatch` is proved to follow it) |
| Machine.StepOperator | rfalse.rb:233-291 | defines an operator branch: the stack becomes `Operate`'s result or the run fails with its error (no contract; followed by `Interpreter.RFalse.DoOperator`) |
| Machine.StepComment | rfalse.rb:294-295 | defines `{`: the cursor goes past the next `}`, or the run fails (no contract; followed by `Interpreter.RFalse.DoComment`) |
| Machine.StepNumber | rfalse.rb:298-301 | defines a digit: push the value of the maximal digit run, cursor past it (no contract; properties in `MachineFacts.DigitLiteral`, `NumberLiteralRoundTrip`) |
| Machine.StepLambda | rfalse.rb:304-313 | defines `[`: push the text up to the depth-matched `]`, cursor past it (no contract; properties in `MachineFacts.LambdaLiteral`) |
| Machine.StepString | rfalse.rb:316-319 | defines `"`: print the text up to the next `"`, cursor past it (no contract; followed by `Interpreter.RFalse.DoString`) |
| Machine.StepGlobal | rfalse.rb:322-331 | defines a letter: `x:` stores, `x;` loads (nil when unset), anything else is the syntax error (no contract; properties in `MachineFacts.StoreThenLoad`, `LoadReadsStore`, `GlobalsOnlyAtStore`) |
| Machine.StepExecute | rfalse.rb:334-335 | defines `!`: splice the popped lambda after the cursor (no contract; properties in `MachineFacts.ExecuteSplices`, `StepSplicesAfterCursor`) |
| Machine.StepPrint | rfalse.rb:338-343 | defines `.` (`to_i`, nil prints 0) and `,` (`chr`) as appends to the output (no contract; followed by `Interpreter.RFalse.DoPrint`) |
| Machine.StepRead | rfalse.rb:346-351 | defines `^` over the supplied input (no contract; followed by `Interpreter.RFalse.DoRead`) |
| Machine.StepCharLiteral | rfalse.rb:354-357 | defines `'`: push the next character (a digit as its Integer, the empty text at the very end), cursor past it (no contract; followed by `Interpreter.RFalse.DoCharLiteral`) |
| Machine.StepIf | rfalse.rb:364-367 | defines `?` (no contract; properties in `MachineFacts.IfSplicesOnlyOnTrue`) |
| Machine.StepWhile | rfalse.rb:370-375 | defines `#` (no contract; properties in `MachineFacts.WhileEnters`, `WhileStackOnlyAtLoops`) |
| Machine.StepLoopTest | rfalse.rb:378-386 | defines `W` (no contract; properties in `MachineFacts.LoopExits`, `WhileStackOnlyAtLoops`) |
| Machine.Exec | rfalse.rb:223-396 | defines a run of at most `fuel` iterations: it halts when the cursor passes the end, fails at the state before a raising step, or runs out of fuel (no contract; properties in `MachineFacts.ExecStep`, `ExecStops`, `ExecFails`, `ExecKeepsConsumed`; `Interpreter.RFalse.Run` is proved to follow it) |
| Machine.ExecAt | rfalse.rb:228-396 | defines the run from a state whose cursor is on an instruction: one step, then `Exec` (no contract) |
| MachineFacts.ExecStep | rfalse.rb:223-396 | a run of n+1 iterations is one iteration followed by a run of n |
| MachineFacts.ExecStops | rfalse.rb:223 | the loop ends when the cursor is past the end of the text |
| MachineFacts.ExecFails | rfalse.rb:388-389 | an iteration that raises ends the run at the state before it |
| MachineFacts.WhileEnters | rfalse.rb:370-375 | `#` pops the body `a` and the condition `b`, pushes `b` then `a` on the while-context stack, and splices `[b]!W` in after the cursor |
| MachineFacts.ExecuteSplices | rfalse.rb:334-335 | `!` pops a lambda and splices its text in after the cursor |
| MachineFacts.LoopExits | rfalse.rb:378-386 | `W` with a flag other than -1 drops the loop's pair from the while-context stack and splices nothing |
| MachineFacts.StepSplicesAfterCursor | rfalse.rb:334-386 | every iteration moves the cursor forward and changes the text only by inserting right after the cursor. Only `!`, `?`, `#` and `W` insert, and they leave the cursor on the first inserted character |
| MachineFacts.ExecKeepsConsumed | rfalse.rb:219-397 | a whole run never changes the text the cursor has already passed, and never moves the cursor back |
| MachineFacts.WhileStackOnlyAtLoops | rfalse.rb:370-386 | the while-context stack changes only at `#`, which pushes the pair, and at `W`, which keeps the pair when the flag is -1 and drops it otherwise |
| MachineFacts.GlobalsOnlyAtStore | rfalse.rb:322-331 | the globals change only at a letter followed by `:`, which stores the top of the stack under that letter; every other step leaves them unchanged, so a later `x;` reads the last value stored with `x:` |
| MachineFacts.IfSplicesOnlyOnTrue | rfalse.rb:364-367 | `?` pops the lambda and the flag and splices the lambda's text in exactly when the flag is -1 |
| MachineFacts.DigitLiteral | rfalse.rb:298-301 | a digit pushes the decimal value of the maximal digit run, and the cursor lands just past the run |
| MachineFacts.DigitRunOf | rfalse.rb:299 | a digit run followed by the end of the text or by a non-digit is exactly what `/\A\d+/` matches |
| MachineFacts.NumberLiteralRoundTrip | rfalse.rb:298-301 | the decimal text of a number, followed by a non-digit, is read back as that number, with the cursor just past its digits |
| MachineFacts.LambdaLiteral | rfalse.rb:304-313 | `[` pushes exactly the balanced text up to its depth-matched `]` and moves the cursor past that `]`; without a match the run fails |
| MachineFacts.StoreThenLoad | rfalse.rb:322-328 | `x:` followed by `x;` stores the popped value under `x` and pushes it back. Both consume the character after the letter |
| MachineFacts.LoadReadsStore | rfalse.rb:322-331 | `x;` pushes the stored value, or nil if `x` was never assigned; a letter followed by anything but `:` or `;` raises the syntax error |
| MachineFacts.WhileEntryRescansCondition | rfalse.rb:370-375 | after `#`, the next iteration captures the condition's text unchanged as a lambda and stops on the `!` that runs it |
| MachineFacts.WrappedRescan | rfalse.rb:304-313 | a `[` on the text `[t]!W` with `t` balanced pushes `t` and stops on the `!` |
| MachineFacts.ZeroIterationLoop | rfalse.rb:370-386 | a loop whose condition is `0` runs its body zero times. Five iterations later the cursor is past the spliced text, the two lambdas are gone and the while-context stack is back at its depth before the `#` |
| Interpreter.RFalse.constructor | rfalse.rb:209-214 | `initialize`: two distinct empty stacks, no globals, the cursor at 0 |
| Interpreter.RFalse.Operator | rfalse.rb:233-291 | the operator character calls the `RStack` method that `Machine.Operate` names |
| Interpreter.RFalse.DoOperator | rfalse.rb:233-291 | an operator branch does what `Machine.StepOperator` says |
| Interpreter.RFalse.DoComment | rfalse.rb:294-295 | the comment branch does what `Machine.StepComment` says and leaves both stacks unchanged |
| Interpreter.RFalse.DoNumber | rfalse.rb:298-301 | the digit branch does what `Machine.StepNumber` says |
| Interpreter.RFalse.DoLambda | rfalse.rb:304-313 | the lambda branch does what `Machine.StepLambda` says |
| Interpreter.RFalse.DoString | rfalse.rb:316-319 | the string branch prints what `Machine.StepString` says and leaves both stacks unchanged |
| Interpreter.RFalse.DoGlobal | rfalse.rb:322-331 | the global branch does what `Machine.StepGlobal` says |
| Interpreter.RFalse.DoExecute | rfalse.rb:334-335 | `!` does what `Machine.StepExecute` says |
| Interpreter.RFalse.DoPrint | rfalse.rb:338-343 | `.` and `,` print what `Machine.StepPrint` says |
| Interpreter.RFalse.DoRead | rfalse.rb:346-351 | `^` does what `Machine.StepRead` says |
| Interpreter.RFalse.DoCharLiteral | rfalse.rb:354-357 | `'` does what `Machine.StepCharLiteral` says |
| Interpreter.RFalse.DoIf | rfalse.rb:364-367 | `?` does what `Machine.StepIf` says |
| Interpreter.RFalse.DoWhile | rfalse.rb:370-375 | `#` does what `Machine.StepWhile` says |
| Interpreter.RFalse.DoLoopTest | rfalse.rb:378-386 | `W` does what `Machine.StepLoopTest` says |
| Interpreter.RFalse.Dispatch | rfalse.rb:228-395 | one pass of the loop body, including `@str_p += 1`, leaves the object in the state `Machine.Step` gives, or fails with its error |
| Interpreter.RFalse.Iteration | rfalse.rb:223-396 | after one pass, a bounded run from the old state continues as a bounded run from the new state, or fails at the old state |
| Interpreter.RFalse.Run | rfalse.rb:219-397 | `run` ends with the outcome `Machine.Exec` gives, and unless it failed, the object holds that outcome's final state |

## Left out

- `RStack#show` and verbose tracing (rfalse.rb:54-65, 224, 392) are display only.
- The command-line entry point and loading the program from a file or stdin (rfalse.rb:400-416) are not modelled.
- `^` reads through HighLine's `ask`, a terminal library. The model takes characters from the `input` sequence instead. The `\e` loop reads exactly one character in every case, and an exhausted input ends the run with `InputExhausted` instead of blocking.
- `puts` and `STDOUT.flush` are not performed. Printing appends to the `output` sequence, and the `Ô` flush only moves the cursor.
- Ruby's `pop` on an empty stack returns nil. Here every pop that finds the stack empty ends the run with `StackUnderflow`, including in `$ % = & | \ @ : ? # W .`, where Ruby would carry on with nil.
- Ruby's dynamic typing is narrowed. Where an Integer is expected and something else is found, the model raises `TypeMismatch`. This covers String `+`, `*`, `>` and unary minus, `String#to_i` when `.` prints a lambda, and `nil.chr`. Ruby would concatenate, repeat, compare or parse some of these.
- An unterminated `[` makes the Ruby scan loop forever; here it ends the run with `UnterminatedLambda`. An unterminated `{` or `"` crashes in Ruby on nil arithmetic; here it ends the run with `UnterminatedComment` or `UnterminatedString`.
- FALSE programs need not halt, so `run` is modelled with a step budget (`fuel`) and an `OutOfFuel` outcome.
- Interpreter.RFalse.Run: after a failure only the error and the state before the failing iteration are stated. The same goes for the operator methods of `RStacks.RStack` and the branch methods of `Interpreter.RFalse`: the fields the failing branch had already popped are not described.
- MachineFacts.WhileStackOnlyAtLoops: a finished loop restoring the while-context stack is proved per iteration, and as a whole run only for the zero-iteration loop (`ZeroIterationLoop`). It is not proved for arbitrary loops, because a lambda's text may itself contain `#` or `W`.
