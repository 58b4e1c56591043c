/**
 * `String.prototype.trim` as the handlers use it: the guards of both
 * `handleSendMessage` and the input form, and the history filter, test
 * whether `s.trim()` is empty.
 */
module Text {

  /**
   * The characters ECMAScript's `trim` removes: WhiteSpace (tab, vertical
   * tab, form feed, space, no-break space, the byte-order mark and the
   * Unicode space separators) and LineTerminator (LF, CR, U+2028, U+2029).
   */
  predicate IsJsWhitespace(c: char)
  {
    var n := c as int;
    n == 0x09 || n == 0x0A || n == 0x0B || n == 0x0C || n == 0x0D || n == 0x20
    || n == 0xA0 || n == 0x1680 || (0x2000 <= n <= 0x200A)
    || n == 0x2028 || n == 0x2029 || n == 0x202F || n == 0x205F
    || n == 0x3000 || n == 0xFEFF
  }

  /** Drops leading whitespace. */
  function TrimStart(s: string): (r: string)
    ensures |r| <= |s| && r == s[|s| - |r|..]
    ensures forall i | 0 <= i < |s| - |r| :: IsJsWhitespace(s[i])
    ensures r != [] ==> !IsJsWhitespace(r[0])
  {
    if s != [] && IsJsWhitespace(s[0]) then TrimStart(s[1..]) else s
  }

  /** Drops trailing whitespace. */
  function TrimEnd(s: string): (r: string)
    ensures |r| <= |s| && r == s[..|r|]
    ensures forall i | |r| <= i < |s| :: IsJsWhitespace(s[i])
    ensures r != [] ==> !IsJsWhitespace(r[|r| - 1])
  {
    if s != [] && IsJsWhitespace(s[|s| - 1]) then TrimEnd(s[..|s| - 1]) else s
  }

  /** `s.trim()`: `s` without its leading and trailing whitespace, and nothing else removed. */
  function Trim(s: string): (r: string)
    ensures exists i, j | 0 <= i <= j <= |s| ::
      && r == s[i..j]
      && (forall k | 0 <= k < i :: IsJsWhitespace(s[k]))
      && (forall k | j <= k < |s| :: IsJsWhitespace(s[k]))
    ensures r != [] ==> !IsJsWhitespace(r[0]) && !IsJsWhitespace(r[|r| - 1])
  {
    var e := TrimEnd(s);
    var r := TrimStart(e);
    assert r == s[|e| - |r|..|e|];
    assert forall k | 0 <= k < |e| - |r| :: IsJsWhitespace(s[k]) by {
      forall k | 0 <= k < |e| - |r| ensures IsJsWhitespace(s[k]) {
        assert s[k] == e[k];
      }
    }
    r
  }

  /** Whether `s` is made of whitespace only, scanned from the front. */
  predicate IsBlank(s: string)
  {
    s == [] || (IsJsWhitespace(s[0]) && IsBlank(s[1..]))
  }

  /** A blank string is one whose every character is whitespace. */
  lemma {:induction false} BlankIffAllWhitespace(s: string)
    ensures IsBlank(s) <==> forall i | 0 <= i < |s| :: IsJsWhitespace(s[i])
  {
    if s != [] {
      BlankIffAllWhitespace(s[1..]);
      assert forall i | 1 <= i < |s| :: s[i] == s[1..][i - 1];
    }
  }

  /** `!s.trim()` holds exactly for blank strings: trimming leaves nothing of them and something of any other. */
  lemma BlankIffTrimmedEmpty(s: string)
    ensures IsBlank(s) <==> Trim(s) == []
  {
    BlankIffAllWhitespace(s);
    var e := TrimEnd(s);
    if Trim(s) == [] {
      assert e == [];
    } else {
      var r := Trim(s);
      assert r == e[|e| - |r|..];
      assert r[0] == s[|e| - |r|];
    }
  }
}
