/**
 * The string operations the source relies on: `trim()` and `toLowerCase()`.
 * Both are modelled over ASCII: the whitespace set is space, tab, line feed,
 * vertical tab, form feed and carriage return, and only 'A'..'Z' are lowered.
 */
module Text {

  predicate IsSpace(c: char) {
    c == ' ' || c == '\t' || c == '\n' || c == '\r' || c == '\U{B}' || c == '\U{C}'
  }

  function ToLowerChar(c: char): char {
    if 'A' <= c <= 'Z' then (c as int + 32) as char else c
  }

  /** `s.toLowerCase()` */
  function Lower(s: seq<char>): (r: seq<char>)
    ensures |r| == |s|
    ensures forall i :: 0 <= i < |s| ==> r[i] == ToLowerChar(s[i])
  {
    if s == [] then [] else [ToLowerChar(s[0])] + Lower(s[1..])
  }

  function TrimStart(s: seq<char>): (r: seq<char>)
    ensures |r| <= |s|
    ensures r != [] ==> !IsSpace(r[0])
    ensures forall i :: 0 <= i < |s| - |r| ==> IsSpace(s[i])
  {
    if s != [] && IsSpace(s[0]) then TrimStart(s[1..]) else s
  }

  function TrimEnd(s: seq<char>): (r: seq<char>)
    ensures |r| <= |s|
    ensures r != [] ==> !IsSpace(r[|r| - 1])
    ensures forall i :: |r| <= i < |s| ==> IsSpace(s[i])
  {
    if s != [] && IsSpace(s[|s| - 1]) then TrimEnd(s[..|s| - 1]) else s
  }

  /** `s.trim()`: the longest middle part of `s` with no whitespace at either end. */
  function Trim(s: seq<char>): seq<char> {
    TrimEnd(TrimStart(s))
  }

  /** `!s.trim()` / `s.trim().length === 0` */
  predicate IsBlank(s: seq<char>) {
    Trim(s) == []
  }

  /** The lookup key of the category mappings: `name.toLowerCase().trim()`. */
  function Normalize(name: seq<char>): seq<char> {
    Trim(Lower(name))
  }

  /** Trimming the start drops a prefix: what is left is a suffix of the input. */
  lemma {:induction false} TrimStartIsSuffix(s: seq<char>)
    ensures TrimStart(s) == s[|s| - |TrimStart(s)|..]
  {
    if s != [] && IsSpace(s[0]) {
      TrimStartIsSuffix(s[1..]);
      assert s[1..][|s| - 1 - |TrimStart(s)|..] == s[|s| - |TrimStart(s)|..];
    }
  }

  /** Trimming the end drops a suffix: what is left is a prefix of the input. */
  lemma {:induction false} TrimEndIsPrefix(s: seq<char>)
    ensures TrimEnd(s) == s[..|TrimEnd(s)|]
  {
    if s != [] && IsSpace(s[|s| - 1]) {
      TrimEndIsPrefix(s[..|s| - 1]);
      assert s[..|s| - 1][..|TrimEnd(s)|] == s[..|TrimEnd(s)|];
    }
  }

  /** Trimming removes whitespace at the ends only: the result is a contiguous slice of the input. */
  lemma TrimIsSlice(s: seq<char>)
    ensures exists i, j :: 0 <= i <= j <= |s| && Trim(s) == s[i..j]
  {
    var t := TrimStart(s);
    var i := |s| - |t|;
    TrimStartIsSuffix(s);
    TrimEndIsPrefix(t);
    assert Trim(s) == t[..|TrimEnd(t)|] == s[i..i + |TrimEnd(t)|];
  }

  /** A trimmed string starts and ends with a non-space character. */
  lemma TrimEnds(s: seq<char>)
    ensures Trim(s) != [] ==> !IsSpace(Trim(s)[0]) && !IsSpace(Trim(s)[|Trim(s)| - 1])
  {
    var t := TrimStart(s);
    TrimEndIsPrefix(t);
    if TrimEnd(t) != [] {
      assert TrimEnd(t)[0] == t[0];
    }
  }

  lemma TrimStartOfNonSpace(s: seq<char>)
    requires s == [] || !IsSpace(s[0])
    ensures TrimStart(s) == s
  {
  }

  lemma {:induction false} TrimEndKeepsFirst(s: seq<char>)
    requires s != [] && !IsSpace(s[0])
    ensures TrimEnd(s) != [] && TrimEnd(s)[0] == s[0]
  {
    TrimEndIsPrefix(s);
    if IsSpace(s[|s| - 1]) {
      TrimEndKeepsFirst(s[..|s| - 1]);
    }
  }

  /** Trimming twice is the same as trimming once. */
  lemma TrimIdempotent(s: seq<char>)
    ensures Trim(Trim(s)) == Trim(s)
  {
    var t := Trim(s);
    TrimEnds(s);
    TrimStartOfNonSpace(t);
  }

  /** A string is blank exactly when every character of it is whitespace. */
  lemma BlankIffAllSpace(s: seq<char>)
    ensures IsBlank(s) <==> forall i :: 0 <= i < |s| ==> IsSpace(s[i])
  {
    var t := TrimStart(s);
    TrimStartIsSuffix(s);
    if IsBlank(s) {
      if t != [] {
        TrimEndKeepsFirst(t);
      }
    }
  }

  lemma LowerKeepsSpace(c: char)
    ensures IsSpace(ToLowerChar(c)) <==> IsSpace(c)
  {
  }

  lemma {:induction false} LowerTrimStart(s: seq<char>)
    ensures Lower(TrimStart(s)) == TrimStart(Lower(s))
  {
    if s != [] {
      LowerKeepsSpace(s[0]);
      assert Lower(s)[1..] == Lower(s[1..]);
      if IsSpace(s[0]) {
        LowerTrimStart(s[1..]);
      }
    }
  }

  lemma {:induction false} LowerTrimEnd(s: seq<char>)
    ensures Lower(TrimEnd(s)) == TrimEnd(Lower(s))
  {
    if s != [] {
      var n := |s| - 1;
      LowerKeepsSpace(s[n]);
      assert Lower(s)[..n] == Lower(s[..n]);
      if IsSpace(s[n]) {
        LowerTrimEnd(s[..n]);
      }
    }
  }

  /** Lower-casing does not touch whitespace, so it commutes with trimming. */
  lemma LowerTrim(s: seq<char>)
    ensures Lower(Trim(s)) == Trim(Lower(s))
  {
    LowerTrimStart(s);
    LowerTrimEnd(TrimStart(s));
  }

  lemma {:induction false} LowerIdempotent(s: seq<char>)
    ensures Lower(Lower(s)) == Lower(s)
  {
    if s != [] {
      LowerIdempotent(s[1..]);
    }
  }

  /**
   * Names that differ only in letter case or in surrounding whitespace have the same
   * mapping key, and the key is its own key.
   */
  lemma NormalizeIgnoresCaseAndOuterSpace(s: seq<char>)
    ensures Normalize(Trim(s)) == Normalize(s)
    ensures Normalize(Lower(s)) == Normalize(s)
    ensures Normalize(Normalize(s)) == Normalize(s)
  {
    LowerTrim(s);
    TrimIdempotent(Lower(s));
    LowerIdempotent(s);
    LowerTrim(Trim(Lower(s)));
    LowerIdempotent(Trim(Lower(s)));
    LowerTrim(Lower(s));
  }
}
