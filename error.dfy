/**
 * error.go: the error an endpoint returns when the API reports a failure,
 * and its `Error()` text.
 */
module ApiErrors {
  import opened Format

  /**
   * `Error`: the operation that failed (`ErrorString`), the envelope's error
   * type, message and code, and the HTTP status code seen.
   */
  datatype Error = Error(errorString: string, errorType: string, message: string, code: int, statusCode: int)

  /** The text before the status code. */
  function Head(e: Error): string
  {
    e.errorString + " error: " + e.errorType + " (StatusCode: "
  }

  const CodeLabel := " / ErrorCode: "

  /**
   * `(*Error).Error()`: "<ErrorString> error: <Type> (StatusCode: <sc> / ErrorCode: <code>): <Message>".
   */
  function Text(e: Error): string
  {
    Head(e) + Codes(e.statusCode, e.code) + "): " + e.message
  }

  /** The status code, then the error code. */
  function Codes(statusCode: int, code: int): string
  {
    Decimal(statusCode) + CodeLabel + Decimal(code)
  }

  /**
   * Where each field lands: the head, then the status code, then the error
   * code (status code first, although `Code` is declared first), then the message.
   */
  lemma TextLayout(e: Error)
    ensures var s, i, j, k := Text(e), |Head(e)|, |Decimal(e.statusCode)|, |Decimal(e.code)|;
      && |s| == i + j + |CodeLabel| + k + 3 + |e.message|
      && s[..i] == Head(e)
      && s[i..i + j] == Decimal(e.statusCode)
      && s[i + j..i + j + |CodeLabel|] == CodeLabel
      && s[i + j + |CodeLabel|..i + j + |CodeLabel| + k] == Decimal(e.code)
      && s[i + j + |CodeLabel| + k..] == "): " + e.message
  {
  }

  /** The text starts with the operation name and ends with the message. */
  lemma TextFrames(e: Error)
    ensures |Text(e)| >= |e.errorString| + |e.message|
    ensures Text(e)[..|e.errorString|] == e.errorString
    ensures Text(e)[|Text(e)| - |e.message|..] == e.message
  {
    var s := Text(e);
    TextLayout(e);
    assert s[..|Head(e)|][..|e.errorString|] == e.errorString;
    assert s[|s| - |e.message| - 3..][3..] == e.message;
  }

  /** Digits and a minus sign never contain a space. */
  lemma DecimalHasNoSpace(n: int)
    ensures ' ' !in Decimal(n)
  {
  }

  /** The index of the first space in `s`, or `|s|` when there is none. */
  function SpaceIndex(s: string): (i: nat)
    ensures i <= |s|
  {
    if s == [] || s[0] == ' ' then 0 else 1 + SpaceIndex(s[1..])
  }

  lemma {:induction false} SpaceIndexAfter(a: string, rest: string)
    requires ' ' !in a && |rest| > 0 && rest[0] == ' '
    ensures SpaceIndex(a + rest) == |a|
  {
    if a != [] {
      assert (a + rest)[1..] == a[1..] + rest;
      SpaceIndexAfter(a[1..], rest);
    }
  }

  /** "<a> / ErrorCode: <b>" splits back into `a` and `b` when `a` has no space. */
  lemma SplitAtSpace(a: string, b: string, a': string, b': string)
    requires ' ' !in a && ' ' !in a'
    requires a + CodeLabel + b == a' + CodeLabel + b'
    ensures a == a' && b == b'
  {
    var s := a + CodeLabel + b;
    SpaceIndexAfter(a, CodeLabel + b);
    SpaceIndexAfter(a', CodeLabel + b');
    assert s == a + (CodeLabel + b) == a' + (CodeLabel + b');
    assert a == s[..|a|] && a' == s[..|a'|];
    assert b == s[|a| + |CodeLabel|..] && b' == s[|a'| + |CodeLabel|..];
  }

  /** The codes part reads back uniquely. */
  lemma CodesInjective(sc: int, code: int, sc': int, code': int)
    requires Codes(sc, code) == Codes(sc', code')
    ensures sc == sc' && code == code'
  {
    DecimalHasNoSpace(sc);
    DecimalHasNoSpace(sc');
    SplitAtSpace(Decimal(sc), Decimal(code), Decimal(sc'), Decimal(code'));
    DecimalInjective(sc, sc');
    DecimalInjective(code, code');
  }

  /** Where the codes part sits in the text. */
  lemma CodesPosition(e: Error)
    ensures |Text(e)| == |Head(e)| + |Codes(e.statusCode, e.code)| + 3 + |e.message|
    ensures Text(e)[|Head(e)|..|Head(e)| + |Codes(e.statusCode, e.code)|] == Codes(e.statusCode, e.code)
  {
  }

  /** Equal texts with equal heads and messages have equal codes parts. */
  lemma SameCodes(e: Error, e': Error)
    requires Head(e) == Head(e') && e.message == e'.message
    requires Text(e) == Text(e')
    ensures Codes(e.statusCode, e.code) == Codes(e'.statusCode, e'.code)
  {
    CodesPosition(e);
    CodesPosition(e');
  }

  /**
   * The text loses nothing: two errors about the same operation, type and
   * message that render alike carry the same status code and error code.
   */
  lemma TextDeterminesCodes(e: Error, e': Error)
    requires e.errorString == e'.errorString && e.errorType == e'.errorType && e.message == e'.message
    requires Text(e) == Text(e')
    ensures e == e'
  {
    SameCodes(e, e');
    CodesInjective(e.statusCode, e.code, e'.statusCode, e'.code);
  }

  lemma {:induction false} SmallDecimals()
    ensures Decimal(0) == "0" && Decimal(500) == "500"
  {
    assert Digits(5) == "5";
    assert Digits(50) == Digits(5) + "0" == "50";
    assert Digits(500) == Digits(50) + "0" == "500";
  }

  /** The rendering a zero `Code` and status 500 give. */
  lemma ZeroCodeExample()
    ensures Text(Error("TestError", "Test", "an error occured", 0, 500))
         == "TestError error: Test (StatusCode: 500 / ErrorCode: 0): an error occured"
  {
    var e := Error("TestError", "Test", "an error occured", 0, 500);
    SmallDecimals();
    HeadExample(e.errorString, e.errorType);
    assert Text(e) == Head(e) + Decimal(500) + CodeLabel + Decimal(0) + "): " + e.message;
    ConcatExample(Head(e), Decimal(500), Decimal(0), e.message);
  }

  lemma HeadExample(name: string, kind: string)
    requires name == "TestError" && kind == "Test"
    ensures name + " error: " + kind + " (StatusCode: " == "TestError error: Test (StatusCode: "
  {
  }

  lemma ConcatExample(h: string, sc: string, code: string, m: string)
    requires h == "TestError error: Test (StatusCode: " && sc == "500" && code == "0" && m == "an error occured"
    ensures h + sc + CodeLabel + code + "): " + m
         == "TestError error: Test (StatusCode: 500 / ErrorCode: 0): an error occured"
  {
  }
}
