/** cmd/kubenx/cmd/common.go and cmd/kubenx/cmd/internal_common.go: the
    membership test, the decimal conversions that end the process on bad
    input, and the single-answer prompt. The prompt's answer is an input;
    `homeDir` and `_int32_to_string` are `Utils.HomeDir` and
    `Utils.Int32ToString`. */
module Common {

  import opened Wrappers
  import opened GoStrconv
  import opened GoStrings

  const ChoiceCanceled := "Choice has been canceled"

  /** `isStringInArr`: an early-return scan for `s`. */
  method IsStringInArr(s: string, arr: seq<string>) returns (found: bool)
    ensures found <==> s in arr
  {
    for i := 0 to |arr|
      invariant s !in arr[..i]
    {
      if arr[i] == s {
        return true;
      }
      assert arr[..i + 1] == arr[..i] + [arr[i]];
    }
    assert arr[..|arr|] == arr;
    return false;
  }

  /** The text of a `*strconv.NumError` as `Red` prints it: the function,
      the input as `strconv.Quote` writes it, and the kind of error. */
  function NumErrorText(fn: string, s: string, r: ParseResult): (t: string)
    ensures HasPrefix(t, fn + ": parsing \"")
  {
    fn + ": parsing " + Quote(s) + ": " + Reason(r)
  }

  /** The kind of error, as the message words it. */
  function Reason(r: ParseResult): string
  {
    if r.SyntaxError? then "invalid syntax" else "value out of range"
  }

  /** The message names its input: two inputs that fail the same way give
      the same message only when they are the same text. */
  lemma NumErrorTextNamesInput(fn: string, a: string, b: string, r: ParseResult)
    requires NumErrorText(fn, a, r) == NumErrorText(fn, b, r)
    ensures a == b
  {
    var pre := fn + ": parsing ";
    ConcatAssoc(pre + Quote(a), ": ", Reason(r));
    ConcatAssoc(pre + Quote(b), ": ", Reason(r));
    SameMiddle(pre, Quote(a), Quote(b), ": " + Reason(r));
    QuoteInjective(a, b);
  }

  /** `Red(err)` with a nil error. */
  const NilErrorText := "<nil>"

  /** `_string_to_int` (both copies): the value of a decimal string; a
      syntax or range error ends the process. */
  function StringToInt(s: string): (r: Outcome<int>)
    ensures r.Ok? <==> ParseInt(s).Parsed?
    ensures r.Ok? ==> r.value == ParseInt(s).n && MinInt64 <= r.value <= MaxInt64
    ensures !r.Ok? ==> r == Exit(NumErrorText("strconv.Atoi", s, ParseInt(s)))
  {
    match ParseInt(s)
    case Parsed(n) => Ok(n)
    case _ => Exit(NumErrorText("strconv.Atoi", s, ParseInt(s)))
  }

  /** Converting the rendering of a 64-bit integer gives it back. */
  lemma StringToIntRoundTrip(n: int)
    requires MinInt64 <= n <= MaxInt64
    ensures StringToInt(FormatInt(n)) == Ok(n)
  {
    ParseFormatRoundTrip(n);
  }

  /** `_string_to_int64` in internal_common.go AS WRITTEN: the error test is
      inverted, so a successful parse ends the process (printing `<nil>`) and
      only a failed parse returns, with the value Go pairs with the error. */
  function StringToInt64AsWritten(s: string): (r: Outcome<int>)
    ensures r.Ok? <==> !ParseInt(s).Parsed?
    ensures ParseInt(s).Parsed? ==> r == Exit(NilErrorText)
    ensures ParseInt(s).SyntaxError? ==> r == Ok(0)
    ensures ParseInt(s).RangeError? ==> r == Ok(ParseInt(s).clamped)
  {
    if ParseInt(s).Parsed? then Exit(NilErrorText) else Ok(ParseInt(s).Value())
  }

  /** The as-written conversion never returns the value of a well-formed
      number: "42" ends the process. */
  lemma StringToInt64AsWrittenRejectsNumbers(n: int)
    requires MinInt64 <= n <= MaxInt64
    ensures StringToInt64AsWritten(FormatInt(n)) == Exit(NilErrorText)
  {
    ParseFormatRoundTrip(n);
  }

  /** As written, an overflowing number followed by a letter returns the
      clamped value where the corrected conversion exits. */
  lemma StringToInt64AsWrittenClamps()
    ensures StringToInt64AsWritten("99999999999999999999x") == Ok(MaxInt64)
    ensures StringToInt64("99999999999999999999x").Exit?
  {
    NinesThenLetter();
  }

  /** `_string_to_int64` as evidently intended: the 64-bit value of a
      decimal string, ending the process on a parse error. */
  function StringToInt64(s: string): (r: Outcome<int>)
    ensures r.Ok? <==> ParseInt(s).Parsed?
    ensures r.Ok? ==> r.value == ParseInt(s).n && MinInt64 <= r.value <= MaxInt64
    ensures !r.Ok? ==> r == Exit(NumErrorText("strconv.ParseInt", s, ParseInt(s)))
  {
    match ParseInt(s)
    case Parsed(n) => Ok(n)
    case _ => Exit(NumErrorText("strconv.ParseInt", s, ParseInt(s)))
  }

  /** The corrected conversion round-trips every 64-bit integer. */
  lemma StringToInt64RoundTrip(n: int)
    requires MinInt64 <= n <= MaxInt64
    ensures StringToInt64(FormatInt(n)) == Ok(n)
  {
    ParseFormatRoundTrip(n);
  }

  /** `getSingleStringInput` (common.go): an empty answer is the error
      "Choice has been canceled", any other answer is returned. */
  function GetSingleStringInput(answer: string): (r: Outcome<string>)
    ensures r.Ok? <==> answer != ""
    ensures r.Ok? ==> r.value == answer
    ensures !r.Ok? ==> r == Err(ChoiceCanceled)
  {
    if answer == "" then Err(ChoiceCanceled) else Ok(answer)
  }

  /** `_get_single_string_input` (internal_common.go): an empty answer ends
      the process with the caller's message, any other is returned. */
  function GetSingleStringInputOrExit(answer: string, errorMsg: string): (r: Outcome<string>)
    ensures r.Ok? <==> answer != ""
    ensures r.Ok? ==> r.value == answer
    ensures !r.Ok? ==> r == Exit(errorMsg)
  {
    if answer == "" then Exit(errorMsg) else Ok(answer)
  }

  /** The two prompt helpers agree except in how a cancelled answer ends. */
  lemma PromptCopiesAgree(answer: string, errorMsg: string)
    ensures GetSingleStringInput(answer).Ok? == GetSingleStringInputOrExit(answer, errorMsg).Ok?
    ensures GetSingleStringInput(answer).Ok? ==> GetSingleStringInput(answer) == GetSingleStringInputOrExit(answer, errorMsg)
  {
  }
}
