/**
 * Instruction classification and the string helpers of
 * frontend/src/calculator/Instructions.ts.
 *
 * An instruction is a one-character string. The alphabet is split into digits
 * (which here include the decimal point), unary operators (`s` square root and
 * `=` evaluate), binary operators and the three commands `c` clear, `d` delete
 * and `t` toggle sign.
 */
module Instructions {

  /** `DIGITS`: the ten decimal digits and the decimal point. */
  const Digits: string := "0123456789."
  /** `UNARY_OPS` */
  const UnaryOps: string := "s="
  /** `BINARY_OPS` */
  const BinaryOps: string := "+-*/^%"
  /** `OPERATORS`: the unary operators followed by the binary ones. */
  const Operators: string := UnaryOps + BinaryOps
  /** The three control commands that are neither digits nor operators. */
  const Commands: string := "cdt"
  /** `INSTRUCTIONS` */
  const Alphabet: string := Digits + Operators + Commands

  /** Number of decimal points in a numeral. */
  function DotCount(n: string): nat {
    multiset(n)['.']
  }

  /** `isInstruction`: a one-character string from the alphabet. */
  predicate IsInstruction(s: string)
    ensures IsInstruction(s) <==>
      |s| == 1 &&
      (('0' <= s[0] <= '9') || s[0] == '.' || s[0] in "s=" || s[0] in "+-*/^%" || s[0] in "cdt")
  {
    |s| == 1 && s[0] in Alphabet
  }

  /** `isDigit`: a digit or the decimal point. */
  predicate IsDigit(i: string)
    requires IsInstruction(i)
    ensures IsDigit(i) <==> ('0' <= i[0] <= '9' || i[0] == '.')
    ensures IsDigit(i) ==> !IsOperator(i) && i[0] !in Commands
  {
    |i| == 1 && i[0] in Digits
  }

  /** `isOperator`: a unary or a binary operator. */
  predicate IsOperator(i: string)
    requires IsInstruction(i)
    ensures IsOperator(i) <==> IsUnaryOp(i) || IsBinaryOp(i)
  {
    i[0] in Operators
  }

  /** `isUnaryOp`: square root or evaluate. */
  predicate IsUnaryOp(i: string)
    requires IsInstruction(i)
    ensures IsUnaryOp(i) <==> i == "s" || i == "="
  {
    i[0] in UnaryOps
  }

  /** `isBinaryOp`: one of the six two-operand operators. */
  predicate IsBinaryOp(i: string)
    requires IsInstruction(i)
    ensures IsBinaryOp(i) <==> i[0] in "+-*/^%"
    ensures IsBinaryOp(i) ==> !IsUnaryOp(i)
  {
    i[0] in BinaryOps
  }

  /**
   * `appendDigit`: extends the numeral `n` by the digit `d`. A second decimal
   * point is dropped, a leading point gets a zero in front of it, and zeros are
   * not appended to an empty or zero numeral.
   */
  function AppendDigit(n: string, d: char): (r: string)
    requires d in Digits
    ensures d == '.' && '.' in n ==> r == n
    ensures d == '.' && n == "" ==> r == "0."
    ensures d == '0' && (n == "" || n == "0") ==> r == "0"
    ensures (d != '.' || ('.' !in n && n != "")) && (d != '0' || (n != "" && n != "0")) ==>
              r == n + [d]
    ensures DotCount(n) <= 1 ==> DotCount(r) <= 1
    ensures '.' in r <==> ('.' in n || d == '.')
  {
    if d == '.' then
      if '.' in n then n
      else
        var m := if |n| == 0 then n + "0" else n;
        m + [d]
    else if d == '0' && (|n| == 0 || n == "0") then "0"
    else n + [d]
  }

  /** `toggleSign`: adds or removes a leading minus sign. */
  function ToggleSign(n: string): (r: string)
    ensures n == "" ==> r == ""
    ensures n != "" && n[0] != '-' ==> r == "-" + n
    ensures n != "" && n[0] == '-' ==> "-" + r == n
  {
    if |n| == 0 then n
    else if n[0] == '-' then n[1..]
    else "-" + n
  }

  /** Toggling twice restores a numeral that is empty, unsigned, or a minus sign followed by a
      character other than a minus sign ("-" alone becomes ""). */
  lemma ToggleSignInvolution(n: string)
    requires n == "" || n[0] != '-' || (|n| >= 2 && n[1] != '-')
    ensures ToggleSign(ToggleSign(n)) == n
  {
    if n != "" && n[0] == '-' {
      assert "-" + n[1..] == n;
    }
  }

  /** `safeToString`: the numeral, with the empty string read as zero. */
  function SafeToString(n: string): (r: string)
    ensures r != ""
    ensures n != "" ==> r == n
    ensures n == "" ==> r == "0"
  {
    if |n| == 0 then "0" else n
  }
}
