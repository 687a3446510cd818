/** Decimal text of integers, as Python writes it (`str(n)`, `"{}".format(n)`)
    and reads it back (`int(s)` on a string, base 10). */
module Decimal {
  import opened Results

  predicate IsDigit(c: char) { '0' <= c <= '9' }

  /** The whitespace `int()` strips around its argument (the ASCII subset). */
  predicate IsSpace(c: char) {
    c == ' ' || c == '\t' || c == '\n' || c == '\r' || c == '\U{000B}' || c == '\U{000C}'
  }

  function DigitOf(c: char): (d: nat)
    requires IsDigit(c)
    ensures d < 10
  {
    c as int - '0' as int
  }

  function CharOf(d: nat): (c: char)
    requires d < 10
    ensures IsDigit(c) && DigitOf(c) == d
  {
    ('0' as int + d) as char
  }

  /** `str(n)` for a non-negative integer: its shortest decimal spelling. */
  function ShowNat(n: nat): (s: string)
    ensures |s| > 0
    ensures forall i :: 0 <= i < |s| ==> IsDigit(s[i])
    ensures |s| == 1 || s[0] != '0'
    decreases n
  {
    if n < 10 then [CharOf(n)] else ShowNat(n / 10) + [CharOf(n % 10)]
  }

  /** `str(n)` for any integer. */
  function ShowInt(n: int): (s: string)
    ensures |s| > 0 && (s[0] == '-' <==> n < 0)
    ensures var digits := if n < 0 then s[1..] else s;
      && |digits| > 0
      && (forall i :: 0 <= i < |digits| ==> IsDigit(digits[i]))
      && (|digits| == 1 || digits[0] != '0')
  {
    if n < 0 then "-" + ShowNat(-n) else ShowNat(n)
  }

  /** Where `int()`'s scan of a base-10 string stands: before the number
      (skipping whitespace), after a sign, inside the digits, just after an
      underscore, or in the whitespace after the number. A sign is kept as
      `negative`, the digits read so far as `value`. */
  datatype ScanState =
    | Leading
    | AfterSign(negative: bool)
    | InDigits(negative: bool, value: nat)
    | AfterUnderscore(negative: bool, value: nat)
    | Trailing(result: int)

  function Signed(negative: bool, value: nat): int {
    if negative then -(value as int) else value
  }

  /** One character of the scan; `None` where `int()` rejects the text. */
  function Step(st: ScanState, c: char): Option<ScanState> {
    match st
    case Leading =>
      if IsSpace(c) then Some(Leading)
      else if c == '+' then Some(AfterSign(false))
      else if c == '-' then Some(AfterSign(true))
      else if IsDigit(c) then Some(InDigits(false, DigitOf(c)))
      else None
    case AfterSign(negative) =>
      if IsDigit(c) then Some(InDigits(negative, DigitOf(c))) else None
    case InDigits(negative, value) =>
      if IsDigit(c) then Some(InDigits(negative, 10 * value + DigitOf(c)))
      else if c == '_' then Some(AfterUnderscore(negative, value))
      else if IsSpace(c) then Some(Trailing(Signed(negative, value)))
      else None
    case AfterUnderscore(negative, value) =>
      if IsDigit(c) then Some(InDigits(negative, 10 * value + DigitOf(c))) else None
    case Trailing(result) =>
      if IsSpace(c) then Some(Trailing(result)) else None
  }

  /** The scan of all of `s`, from state `st`. */
  function Run(s: string, st: ScanState): Option<ScanState> {
    if |s| == 0 then Some(st)
    else match Step(st, s[0])
      case None => None
      case Some(next) => Run(s[1..], next)
  }

  /** The text is a number only if the scan ends inside the digits or in the
      whitespace after them. */
  function Finish(end: Option<ScanState>): Option<int> {
    match end
    case Some(InDigits(negative, value)) => Some(Signed(negative, value))
    case Some(Trailing(result)) => Some(result)
    case _ => None
  }

  /** `int(s)` for a string `s`: `None` where Python raises `ValueError`.
      Accepted: optional whitespace, an optional sign, ASCII digits with
      single underscores between them, optional whitespace. */
  function ParseInt(s: string): Option<int> {
    Finish(Run(s, Leading))
  }

  /** Scanning `s + [c]` is scanning `s`, then one more step. */
  lemma {:induction false} RunSnoc(s: string, c: char, st: ScanState)
    ensures Run(s + [c], st) == match Run(s, st) case None => None case Some(mid) => Step(mid, c)
  {
    if |s| > 0 {
      assert (s + [c])[1..] == s[1..] + [c];
      match Step(st, s[0])
      case None =>
      case Some(next) => RunSnoc(s[1..], c, next);
    } else {
      assert [c][1..] == [];
    }
  }

  /** Scanning the digits `str(n)` writes, after an optional sign, ends inside
      the digits with the value n. */
  lemma {:induction false} RunShowNat(n: nat, negative: bool, st: ScanState)
    requires st == Leading || st == AfterSign(negative)
    requires st == Leading ==> !negative
    ensures Run(ShowNat(n), st) == Some(InDigits(negative, n))
    decreases n
  {
    if n < 10 {
      assert ShowNat(n)[1..] == [];
    } else {
      RunShowNat(n / 10, negative, st);
      RunSnoc(ShowNat(n / 10), CharOf(n % 10), st);
    }
  }

  /** What `str` writes, `int` reads back: `int(str(n)) == n` for every integer. */
  lemma {:induction false} ParseShowInt(n: int)
    ensures ParseInt(ShowInt(n)) == Some(n)
  {
    if n < 0 {
      var s := ShowInt(n);
      assert s[1..] == ShowNat(-n);
      RunShowNat(-n, true, AfterSign(true));
    } else {
      RunShowNat(n, false, Leading);
    }
  }

  /** Without a digit the scan never enters the digits. */
  lemma {:induction false} RunWithoutDigit(s: string, st: ScanState)
    requires forall i :: 0 <= i < |s| ==> !IsDigit(s[i])
    requires st.Leading? || st.AfterSign?
    ensures Run(s, st) == None || Run(s, st).value.Leading? || Run(s, st).value.AfterSign?
  {
    if |s| > 0 {
      match Step(st, s[0])
      case None =>
      case Some(next) => RunWithoutDigit(s[1..], next);
    }
  }

  /** `int()` raises on any text without an ASCII digit (the empty string,
      `"None"`, a name made of letters). */
  lemma ParseIntNeedsDigit(s: string)
    requires forall i :: 0 <= i < |s| ==> !IsDigit(s[i])
    ensures ParseInt(s) == None
  {
    RunWithoutDigit(s, Leading);
  }
}
