/** Values of the FALSE interpreter, its error kinds, and the decimal text
    conversions the interpreter relies on (digit literals are read as
    decimal numbers, and `#`/`W` write a value back into the program text
    with Ruby's string interpolation). */
module Values {

  /** A stack entry. Integers are Ruby Integers (unbounded); lambdas and
      non-digit character literals are Ruby Strings; `Nil` is Ruby's nil,
      which reaches the stack when an unset global is read or when `pick`
      indexes past the bottom with a negative index. */
  datatype Value = Int(n: int) | Text(s: string) | Nil

  /** The ways a run can fail. All of them abort the run. */
  datatype Error =
    | StackUnderflow        // a pop found the stack empty
    | TypeMismatch          // an operand of the wrong Ruby class (e.g. `!` of an Integer)
    | ZeroDivision          // `/` with a zero divisor
    | ExpectingBool         // `~` of a value other than 0 and -1
    | PickOutOfRange        // `pick` whose index is not below the remaining size
    | CharOutOfRange        // `,` of an Integer outside 0..255
    | GlobalSyntax          // a letter followed by neither `:` nor `;`
    | UnknownInstruction(c: char)
    | UnterminatedComment   // `{` without a later `}`
    | UnterminatedLambda    // `[` without a depth-matched `]`
    | UnterminatedString    // `"` without a later `"`
    | InputExhausted        // `^` with no character left to read

  datatype Option<T> = None | Some(value: T)

  datatype Result<T> = Ok(value: T) | Err(error: Error)

  /** The outcome of an operation that works by changing state. */
  datatype Status = Success | Failure(error: Error)

  /** One `puts` of the interpreter: a decimal integer or a piece of text. */
  datatype Output = OutInt(n: int) | OutText(s: string)

  /** FALSE's truth values: -1 is true and 0 is false. */
  function Bool(b: bool): (v: Value)
    ensures v == Int(-1) || v == Int(0)
    ensures v == Int(-1) <==> b
  {
    if b then Int(-1) else Int(0)
  }

  predicate IsDigit(c: char) {
    '0' <= c <= '9'
  }

  predicate AllDigits(s: string) {
    forall i | 0 <= i < |s| :: IsDigit(s[i])
  }

  function DigitValue(c: char): (d: nat)
    requires IsDigit(c)
    ensures d < 10
  {
    c as int - '0' as int
  }

  function DigitChar(d: nat): (c: char)
    requires d < 10
    ensures IsDigit(c) && DigitValue(c) == d
  {
    ('0' as int + d) as char
  }

  /** The number a run of decimal digits denotes (Ruby's `String#to_i` on a
      string of digits only). */
  function DecimalValue(s: string): nat
    requires AllDigits(s)
  {
    if s == [] then 0 else 10 * DecimalValue(s[..|s| - 1]) + DigitValue(s[|s| - 1])
  }

  /** Ruby's `Integer#to_s` of a non-negative integer. */
  function NatString(n: nat): string {
    if n < 10 then [DigitChar(n)] else NatString(n / 10) + [DigitChar(n % 10)]
  }

  /** Ruby's `Integer#to_s`. */
  function IntString(n: int): string {
    if n < 0 then "-" + NatString(-n) else NatString(n)
  }

  /** The text Ruby's `"#{v}"` interpolation produces for a stack value. */
  function Interpolate(v: Value): string {
    match v
    case Int(n) => IntString(n)
    case Text(s) => s
    case Nil => ""
  }

  /** Reading back the decimal text of `n` yields `n`: the digits `#` and `W`
      write for an Integer are scanned back by the digit literal as the same
      Integer. */
  lemma {:induction false} NatStringRoundTrip(n: nat)
    ensures |NatString(n)| > 0 && AllDigits(NatString(n))
    ensures DecimalValue(NatString(n)) == n
  {
    if n >= 10 {
      NatStringRoundTrip(n / 10);
      var s := NatString(n);
      assert s[..|s| - 1] == NatString(n / 10);
    }
  }
}
