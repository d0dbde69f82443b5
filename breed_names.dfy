/**
 * Breed-name normalisation (`normalizeBreedName` in src/public/script.js):
 * `name.trim().toLocaleLowerCase()`.
 */
module BreedNames {

  /** ECMAScript's WhiteSpace and LineTerminator code points, the set `String.prototype.trim` strips. */
  predicate IsWhitespace(c: char)
  {
    c in {'\t', '\n', '\U{000B}', '\U{000C}', '\r', ' ', '\U{00A0}', '\U{1680}',
          '\U{2000}', '\U{2001}', '\U{2002}', '\U{2003}', '\U{2004}', '\U{2005}',
          '\U{2006}', '\U{2007}', '\U{2008}', '\U{2009}', '\U{200A}', '\U{2028}',
          '\U{2029}', '\U{202F}', '\U{205F}', '\U{3000}', '\U{FEFF}'}
  }

  predicate IsUpper(c: char)
  {
    'A' <= c <= 'Z'
  }

  predicate AllWhitespace(s: string)
  {
    forall k :: 0 <= k < |s| ==> IsWhitespace(s[k])
  }

  /** Neither the first nor the last character is whitespace. */
  predicate NoOuterWhitespace(s: string)
  {
    s == [] || (!IsWhitespace(s[0]) && !IsWhitespace(s[|s| - 1]))
  }

  predicate NoUpper(s: string)
  {
    forall k :: 0 <= k < |s| ==> !IsUpper(s[k])
  }

  /** A name `normalizeBreedName` leaves as it is. */
  predicate IsNormalized(s: string)
  {
    NoOuterWhitespace(s) && NoUpper(s)
  }

  /** Strips the leading whitespace: the result is the suffix after an all-whitespace prefix. */
  function TrimStart(s: string): (r: string)
    ensures |r| <= |s| && r == s[|s| - |r|..]
    ensures AllWhitespace(s[..|s| - |r|])
    ensures r == [] || !IsWhitespace(r[0])
  {
    if s != [] && IsWhitespace(s[0]) then
      var r := TrimStart(s[1..]);
      assert s[..|s| - |r|] == [s[0]] + s[1..][..|s| - 1 - |r|];
      r
    else
      s
  }

  /** Strips the trailing whitespace: the result is the prefix before an all-whitespace suffix. */
  function TrimEnd(s: string): (r: string)
    ensures |r| <= |s| && r == s[..|r|]
    ensures AllWhitespace(s[|r|..])
    ensures r == [] || !IsWhitespace(r[|r| - 1])
  {
    if s != [] && IsWhitespace(s[|s| - 1]) then
      var r := TrimEnd(s[..|s| - 1]);
      assert s[|r|..] == s[..|s| - 1][|r|..] + [s[|s| - 1]];
      r
    else
      s
  }

  /**
   * `String.prototype.trim`: the result is the middle of `s` between an
   * all-whitespace prefix and an all-whitespace suffix, and has no whitespace at
   * either end; together these pin the result down.
   */
  function Trim(s: string): (r: string)
    ensures NoOuterWhitespace(r)
    ensures exists i :: 0 <= i <= |s| - |r| && s[i..i + |r|] == r
                        && AllWhitespace(s[..i]) && AllWhitespace(s[i + |r|..])
  {
    var t := TrimStart(s);
    var r := TrimEnd(t);
    var i := |s| - |t|;
    assert s[i..i + |r|] == r;
    assert s[i + |r|..] == t[|r|..];
    r
  }

  /** Lower-cases one character; only the ASCII letters A-Z change. */
  function LowerChar(c: char): (d: char)
    ensures !IsUpper(d)
    ensures IsUpper(c) ==> 'a' <= d <= 'z' && d as int - c as int == 'a' as int - 'A' as int
    ensures !IsUpper(c) ==> d == c
  {
    if IsUpper(c) then (c as int - 'A' as int + 'a' as int) as char else c
  }

  /** `toLocaleLowerCase` over ASCII letters: position by position, the lower-cased character. */
  function ToLower(s: string): (r: string)
    ensures |r| == |s|
    ensures forall k :: 0 <= k < |s| ==> r[k] == LowerChar(s[k])
  {
    if s == [] then [] else [LowerChar(s[0])] + ToLower(s[1..])
  }

  /**
   * `normalizeBreedName`: the trimmed, lower-cased name. The result has no
   * whitespace at either end and no upper-case letter.
   */
  function NormalizeBreedName(name: string): (r: string)
    ensures IsNormalized(r)
    ensures |r| <= |name|
  {
    var t := Trim(name);
    var r := ToLower(t);
    assert r != [] ==> r[0] == LowerChar(t[0]) && r[|r| - 1] == LowerChar(t[|t| - 1]);
    assert forall c :: IsWhitespace(c) ==> !IsUpper(c);
    r
  }

  /** Lower-casing a string that has no upper-case letter changes nothing. */
  lemma {:induction false} ToLowerFixesNoUpper(s: string)
    requires NoUpper(s)
    ensures ToLower(s) == s
  {
    if s != [] {
      ToLowerFixesNoUpper(s[1..]);
    }
  }

  /** Trimming a string with no whitespace at either end changes nothing. */
  lemma TrimFixesNoOuterWhitespace(s: string)
    requires NoOuterWhitespace(s)
    ensures Trim(s) == s
  {
    assert TrimStart(s) == s;
    assert TrimEnd(s) == s;
  }

  /** A normalised name is its own normalisation. */
  lemma NormalizeFixesNormalized(s: string)
    requires IsNormalized(s)
    ensures NormalizeBreedName(s) == s
  {
    TrimFixesNoOuterWhitespace(s);
    ToLowerFixesNoUpper(s);
  }

  /** Normalisation is idempotent. */
  lemma NormalizeIdempotent(name: string)
    ensures NormalizeBreedName(NormalizeBreedName(name)) == NormalizeBreedName(name)
  {
    NormalizeFixesNormalized(NormalizeBreedName(name));
  }
}
