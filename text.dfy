/** str::trim: removal of leading and trailing Unicode white space. */
module Text {
  /** char::is_whitespace: the Unicode White_Space property. */
  predicate IsWhitespace(c: char) {
    var n := c as int;
    (0x09 <= n <= 0x0D) || n == 0x20 || n == 0x85 || n == 0xA0 || n == 0x1680 ||
    (0x2000 <= n <= 0x200A) || n == 0x2028 || n == 0x2029 || n == 0x202F ||
    n == 0x205F || n == 0x3000
  }

  /** Every character is white space (this includes the empty string). */
  predicate IsBlank(s: string) {
    forall i :: 0 <= i < |s| ==> IsWhitespace(s[i])
  }

  /** s without its leading white space. */
  function TrimStart(s: string): (r: string)
  {
    if s != [] && IsWhitespace(s[0]) then TrimStart(s[1..]) else s
  }

  /** s without its trailing white space. */
  function TrimEnd(s: string): (r: string)
  {
    if s != [] && IsWhitespace(s[|s| - 1]) then TrimEnd(s[..|s| - 1]) else s
  }

  /** str::trim: the middle part left after removing white space on both ends. */
  function Trim(s: string): (r: string)
  {
    TrimEnd(TrimStart(s))
  }

  /** TrimStart keeps the longest suffix that does not start with white space. */
  lemma {:induction false} TrimStartIsLongestSuffix(s: string)
    ensures |TrimStart(s)| <= |s| && TrimStart(s) == s[|s| - |TrimStart(s)|..]
    ensures TrimStart(s) == [] || !IsWhitespace(TrimStart(s)[0])
    ensures IsBlank(s[..|s| - |TrimStart(s)|])
  {
    if s != [] && IsWhitespace(s[0]) {
      var t := s[1..];
      TrimStartIsLongestSuffix(t);
      var r := TrimStart(t);
      var removed, removed' := s[..|s| - |r|], t[..|t| - |r|];
      forall i | 0 <= i < |removed| ensures IsWhitespace(removed[i]) {
        if i > 0 { assert removed[i] == removed'[i - 1]; }
      }
    }
  }

  /** TrimEnd keeps the longest prefix that does not end with white space. */
  lemma {:induction false} TrimEndIsLongestPrefix(s: string)
    ensures |TrimEnd(s)| <= |s| && TrimEnd(s) == s[..|TrimEnd(s)|]
    ensures TrimEnd(s) == [] || !IsWhitespace(TrimEnd(s)[|TrimEnd(s)| - 1])
    ensures IsBlank(s[|TrimEnd(s)|..])
  {
    if s != [] && IsWhitespace(s[|s| - 1]) {
      var t := s[..|s| - 1];
      TrimEndIsLongestPrefix(t);
      var r := TrimEnd(t);
      var removed, removed' := s[|r|..], t[|r|..];
      forall i | 0 <= i < |removed| ensures IsWhitespace(removed[i]) {
        if i < |removed'| { assert removed[i] == removed'[i]; }
      }
    }
  }

  /** A string trims to nothing exactly when it is blank. */
  lemma TrimIsEmptyIffBlank(s: string)
    ensures TrimEnd(TrimStart(s)) == [] <==> IsBlank(s)
  {
    TrimStartIsLongestSuffix(s);
    var t := TrimStart(s);
    TrimEndIsLongestPrefix(t);
    if TrimEnd(TrimStart(s)) == [] {
      assert IsBlank(t[0..]);
      assert t == [];
      forall i | 0 <= i < |s| ensures IsWhitespace(s[i]) {
        assert s[i] == s[..|s| - |t|][i];
      }
    } else if t != [] {
      assert t[0] == s[|s| - |t|];
    }
  }
}
