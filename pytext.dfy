/** The small part of Python's `str` that the chat-history update relies on:
    the whitespace test behind `str.isspace` and the no-argument `str.strip()`. */
module PyText {

  /** The characters Python's `str.strip()` removes when called without
      arguments (the Unicode whitespace set of CPython's `Py_UNICODE_ISSPACE`). */
  predicate IsWhitespace(c: char) {
    var n := c as int;
    (0x09 <= n <= 0x0D) || (0x1C <= n <= 0x20) || n == 0x85 || n == 0xA0 ||
    n == 0x1680 || (0x2000 <= n <= 0x200A) || n == 0x2028 || n == 0x2029 ||
    n == 0x202F || n == 0x205F || n == 0x3000
  }

  /** Every character of `s` is whitespace (the empty string included). */
  predicate IsBlank(s: string) {
    forall i :: 0 <= i < |s| ==> IsWhitespace(s[i])
  }

  /** `s` without its leading whitespace. */
  function TrimLeft(s: string): (r: string)
    ensures |r| <= |s| && r == s[|s| - |r|..]
    ensures r != [] ==> !IsWhitespace(r[0])
    ensures IsBlank(s[..|s| - |r|])
    decreases |s|
  {
    if s != [] && IsWhitespace(s[0]) then
      var r := TrimLeft(s[1..]);
      assert s[..|s| - |r|] == [s[0]] + s[1..][..|s| - 1 - |r|];
      r
    else
      s
  }

  /** `s` without its trailing whitespace. */
  function TrimRight(s: string): (r: string)
    ensures |r| <= |s| && r == s[..|r|]
    ensures r != [] ==> !IsWhitespace(r[|r| - 1])
    ensures IsBlank(s[|r|..])
    decreases |s|
  {
    if s != [] && IsWhitespace(s[|s| - 1]) then
      var r := TrimRight(s[..|s| - 1]);
      assert s[|r|..] == s[..|s| - 1][|r|..] + [s[|s| - 1]];
      r
    else
      s
  }

  /** Python's `s.strip()`: `s` without whitespace at either end. It is empty
      exactly when `s` holds nothing but whitespace, which is what the truth
      test `if chunk.text.strip():` decides. */
  function Strip(s: string): (r: string)
    ensures r == [] <==> IsBlank(s)
    ensures r != [] ==> !IsWhitespace(r[0]) && !IsWhitespace(r[|r| - 1])
  {
    var left := TrimLeft(s);
    assert s == s[..|s| - |left|] + left;
    TrimRight(left)
  }

  /** The truth test `if s.strip():`, as the statement that evaluates it: true
      exactly when `s` holds a character that is not whitespace. */
  method StrippedIsTruthy(s: string) returns (b: bool)
    ensures b <==> !IsBlank(s)
  {
    b := Strip(s) != [];
  }

  /** `r` sits in `s` at offset `i`, with only whitespace before and after it. */
  predicate TrimmedAt(s: string, r: string, i: int) {
    0 <= i <= |s| - |r| && r == s[i..i + |r|] && IsBlank(s[..i]) && IsBlank(s[i + |r|..])
  }

  /** What `strip()` keeps is one contiguous piece of `s`, with only
      whitespace cut away on either side. */
  lemma StripInfix(s: string)
    ensures exists i :: TrimmedAt(s, Strip(s), i)
  {
    var left := TrimLeft(s);
    var r := TrimRight(left);
    var i := |s| - |left|;
    assert Strip(s) == r;
    assert r == s[i..i + |r|] by {
      assert left == s[i..] && r == left[..|r|];
    }
    assert IsBlank(s[i + |r|..]) by {
      assert s[i + |r|..] == left[|r|..];
    }
    assert TrimmedAt(s, r, i);
  }
}
