/**
 * The two JavaScript string operations the page relies on: `String.prototype.trim`
 * (used by `proceedToEdit`) and `String.prototype.length` (used by `getNameFontSize`).
 * A Dafny `string` is a sequence of Unicode scalar values; JavaScript counts UTF-16
 * code units.
 */
module JsString {

  /**
   * The code points `trim` strips: ECMAScript's WhiteSpace (TAB, VT, FF, ZWNBSP and
   * every Zs space separator) and LineTerminator (LF, CR, LS, PS).
   */
  predicate IsTrimmable(c: char) {
    var n := c as int;
    n == 0x09 || n == 0x0A || n == 0x0B || n == 0x0C || n == 0x0D || n == 0x20 ||
    n == 0xA0 || n == 0x1680 || (0x2000 <= n <= 0x200A) || n == 0x2028 || n == 0x2029 ||
    n == 0x202F || n == 0x205F || n == 0x3000 || n == 0xFEFF
  }

  /** Drops the leading trimmable characters. */
  function TrimStart(s: string): (r: string)
    ensures |r| <= |s| && r == s[|s| - |r|..]
    ensures r == [] || !IsTrimmable(r[0])
    ensures forall i :: 0 <= i < |s| - |r| ==> IsTrimmable(s[i])
  {
    if s != [] && IsTrimmable(s[0]) then
      var r := TrimStart(s[1..]);
      assert s[|s| - |r|..] == s[1..][|s| - 1 - |r|..];
      assert forall i :: 1 <= i < |s| - |r| ==> s[i] == s[1..][i - 1];
      r
    else s
  }

  /** Drops the trailing trimmable characters. */
  function TrimEnd(s: string): (r: string)
    ensures |r| <= |s| && r == s[..|r|]
    ensures r == [] || !IsTrimmable(r[|r| - 1])
    ensures forall i :: |r| <= i < |s| ==> IsTrimmable(s[i])
  {
    if s != [] && IsTrimmable(s[|s| - 1]) then
      var r := TrimEnd(s[..|s| - 1]);
      assert s[..|r|] == s[..|s| - 1][..|r|];
      assert forall i :: |r| <= i < |s| - 1 ==> s[i] == s[..|s| - 1][i];
      r
    else s
  }

  /** `r` occurs in `s` starting at position `i`, and every character of `s` around it is trimmable. */
  predicate TrimmedAt(r: string, s: string, i: int) {
    0 <= i <= |s| - |r| && r == s[i..i + |r|] &&
    forall j :: 0 <= j < |s| && !(i <= j < i + |r|) ==> IsTrimmable(s[j])
  }

  /**
   * `s.trim()`: the run of `s` left once the trimmable characters around it are gone,
   * neither starting nor ending with a trimmable character, and empty (falsy) exactly
   * when every character of `s` is trimmable.
   */
  function Trim(s: string): (r: string)
    ensures exists i :: TrimmedAt(r, s, i)
    ensures r == [] || (!IsTrimmable(r[0]) && !IsTrimmable(r[|r| - 1]))
    ensures r == [] <==> forall i :: 0 <= i < |s| ==> IsTrimmable(s[i])
  {
    var t := TrimStart(s);
    var r := TrimEnd(t);
    TrimmedAtStart(s, t, r);
    assert r != [] ==> s[|s| - |t|] == r[0];
    r
  }

  /**
   * A suffix `t` of `s` with only trimmable characters before it, cut to a prefix `r`
   * with only trimmable characters after it, leaves `r` trimmed at `t`'s offset.
   */
  lemma TrimmedAtStart(s: string, t: string, r: string)
    requires |t| <= |s| && t == s[|s| - |t|..]
    requires forall k :: 0 <= k < |s| - |t| ==> IsTrimmable(s[k])
    requires |r| <= |t| && r == t[..|r|]
    requires forall k :: |r| <= k < |t| ==> IsTrimmable(t[k])
    ensures TrimmedAt(r, s, |s| - |t|)
  {
    var i := |s| - |t|;
    assert forall k :: 0 <= k < |r| ==> r[k] == t[k] == s[i + k];
    assert r == s[i..i + |r|];
    forall j | 0 <= j < |s| && !(i <= j < i + |r|)
      ensures IsTrimmable(s[j])
    {
      if j >= i {
        assert s[j] == t[j - i];
      }
    }
  }

  /** `s.length`: a code point above U+FFFF is a surrogate pair and counts twice. */
  function Utf16Length(s: string): (n: nat)
    ensures |s| <= n <= 2 * |s|
    ensures n == |s| <==> forall i :: 0 <= i < |s| ==> s[i] as int <= 0xFFFF
  {
    if s == [] then 0
    else
      var rest := Utf16Length(s[1..]);
      assert forall i :: 1 <= i < |s| ==> s[i] == s[1..][i - 1];
      (if s[0] as int > 0xFFFF then 2 else 1) + rest
  }
}
