/**
 * The string normalisation shared by the vendor blocklist and the ledger's
 * merchant test: `s.toLowerCase().trim()`, over ASCII.
 */
module Text {

  predicate IsUpper(c: char)
  {
    'A' <= c <= 'Z'
  }

  /** The whitespace that `trim` strips, restricted to ASCII. */
  predicate IsWhitespace(c: char)
  {
    c == ' ' || c == '\t' || c == '\n' || c == '\r' || c as int == 11 || c as int == 12
  }

  function LowerChar(c: char): (r: char)
    ensures !IsUpper(r)
    ensures !IsUpper(c) ==> r == c
    ensures IsWhitespace(r) <==> IsWhitespace(c)
  {
    if IsUpper(c) then (c as int + 32) as char else c
  }

  /** No upper-case letter occurs in `s`. */
  predicate NoUpper(s: string)
  {
    forall i :: 0 <= i < |s| ==> !IsUpper(s[i])
  }

  /** `toLowerCase`: every character lowered, one for one. */
  function ToLower(s: string): (r: string)
    ensures |r| == |s|
    ensures forall i :: 0 <= i < |s| ==> r[i] == LowerChar(s[i])
    ensures NoUpper(r)
  {
    if s == [] then [] else [LowerChar(s[0])] + ToLower(s[1..])
  }

  /** Lowering a string that has no upper-case letter leaves it as it is. */
  lemma ToLowerOfLower(s: string)
    requires NoUpper(s)
    ensures ToLower(s) == s
  {
  }

  /** `trimStart`: drops leading whitespace, keeping a suffix that starts with a non-blank. */
  function TrimStart(s: string): (r: string)
    ensures |r| <= |s| && r == s[|s| - |r|..]
    ensures forall i :: 0 <= i < |s| - |r| ==> IsWhitespace(s[i])
    ensures r == [] || !IsWhitespace(r[0])
  {
    if s != [] && IsWhitespace(s[0]) then TrimStart(s[1..]) else s
  }

  /** `trimEnd`: drops trailing whitespace, keeping a prefix that ends with a non-blank. */
  function TrimEnd(s: string): (r: string)
    ensures |r| <= |s| && r == s[..|r|]
    ensures forall i :: |r| <= i < |s| ==> IsWhitespace(s[i])
    ensures r == [] || !IsWhitespace(r[|r| - 1])
  {
    if s != [] && IsWhitespace(s[|s| - 1]) then TrimEnd(s[..|s| - 1]) else s
  }

  /** `trim`: whitespace removed at both ends; what is left is a contiguous piece of `s`. */
  function Trim(s: string): (r: string)
    ensures exists i, j :: 0 <= i <= j <= |s| && r == s[i..j]
    ensures r == [] || (!IsWhitespace(r[0]) && !IsWhitespace(r[|r| - 1]))
  {
    var t := TrimStart(s);
    var r := TrimEnd(t);
    assert r == s[|s| - |t|..|s| - |t| + |r|];
    r
  }

  /** What `trimStart` drops is a blank prefix, in front of the result. */
  lemma {:induction false} LeadingBlanks(s: string)
    ensures s == s[..|s| - |TrimStart(s)|] + TrimStart(s)
    ensures AllWhitespace(s[..|s| - |TrimStart(s)|])
  {
    var pre := s[..|s| - |TrimStart(s)|];
    assert s == pre + s[|pre|..];
  }

  /** What `trimEnd` drops is a blank suffix, after the result. */
  lemma {:induction false} TrailingBlanks(t: string)
    ensures t == TrimEnd(t) + t[|TrimEnd(t)|..]
    ensures AllWhitespace(t[|TrimEnd(t)|..])
  {
    var r := TrimEnd(t);
    assert t == t[..|r|] + t[|r|..];
  }

  /** `trim` drops exactly a blank prefix and a blank suffix: nothing else of `s` is lost. */
  lemma TrimDropsOnlyBlanks(s: string)
    ensures exists pre, suf :: s == pre + Trim(s) + suf && AllWhitespace(pre) && AllWhitespace(suf)
  {
    var t := TrimStart(s);
    var r := TrimEnd(t);
    LeadingBlanks(s);
    TrailingBlanks(t);
    var pre, suf := s[..|s| - |t|], t[|r|..];
    Sandwich(s, pre, t, r, suf);
    BetweenBlanks(s, Trim(s), pre, suf);
  }

  /** Splitting the tail of a split string splits the string in three. */
  lemma Sandwich(s: string, pre: string, t: string, r: string, suf: string)
    requires s == pre + t && t == r + suf
    ensures s == pre + r + suf
  {
  }

  /** A string made of `r` between two blank strings has `r` between blanks. */
  lemma BetweenBlanks(s: string, r: string, pre: string, suf: string)
    requires s == pre + r + suf && AllWhitespace(pre) && AllWhitespace(suf)
    ensures exists pre', suf' :: s == pre' + r + suf' && AllWhitespace(pre') && AllWhitespace(suf')
  {
  }

  /** Lowering distributes over concatenation. */
  lemma ToLowerAppend(a: string, b: string)
    ensures ToLower(a + b) == ToLower(a) + ToLower(b)
  {
    var l, r := ToLower(a + b), ToLower(a) + ToLower(b);
    forall i | 0 <= i < |l| ensures l[i] == r[i] {
      if i < |a| {
        assert (a + b)[i] == a[i];
      } else {
        assert (a + b)[i] == b[i - |a|];
      }
    }
  }

  predicate AllWhitespace(s: string)
  {
    forall i :: 0 <= i < |s| ==> IsWhitespace(s[i])
  }

  /** Leading whitespace in front of a string is dropped by `trimStart` whatever follows. */
  lemma {:induction false} TrimStartSkipsBlanks(a: string, y: string)
    requires AllWhitespace(a)
    ensures TrimStart(a + y) == TrimStart(y)
  {
    if a != [] {
      assert (a + y)[1..] == a[1..] + y;
      TrimStartSkipsBlanks(a[1..], y);
    } else {
      assert a + y == y;
    }
  }

  /** `trimStart` of a concatenation: once a non-blank is met, the rest is kept. */
  lemma {:induction false} TrimStartAppend(y: string, b: string)
    ensures TrimStart(y + b) == if TrimStart(y) == [] then TrimStart(b) else TrimStart(y) + b
  {
    if y == [] {
      assert y + b == b;
    } else if IsWhitespace(y[0]) {
      assert (y + b)[1..] == y[1..] + b;
      TrimStartAppend(y[1..], b);
    }
  }

  /** Trailing whitespace after a string is dropped by `trimEnd` whatever precedes it. */
  lemma {:induction false} TrimEndSkipsBlanks(y: string, b: string)
    requires AllWhitespace(b)
    ensures TrimEnd(y + b) == TrimEnd(y)
  {
    if b != [] {
      assert (y + b)[..|y + b| - 1] == y + b[..|b| - 1];
      TrimEndSkipsBlanks(y, b[..|b| - 1]);
    } else {
      assert y + b == y;
    }
  }

  /** `trim` ignores whitespace added around a string. */
  lemma TrimIgnoresPadding(a: string, y: string, b: string)
    requires AllWhitespace(a) && AllWhitespace(b)
    ensures Trim(a + y + b) == Trim(y)
  {
    assert a + y + b == a + (y + b);
    TrimStartSkipsBlanks(a, y + b);
    TrimStartAppend(y, b);
    if TrimStart(y) != [] {
      TrimEndSkipsBlanks(TrimStart(y), b);
    }
  }

  /** Lowering a blank string leaves it as it is. */
  lemma ToLowerOfBlanks(a: string)
    requires AllWhitespace(a)
    ensures ToLower(a) == a
  {
  }

  /** A string already without surrounding whitespace is its own trim. */
  lemma TrimOfTrimmed(s: string)
    requires s == [] || (!IsWhitespace(s[0]) && !IsWhitespace(s[|s| - 1]))
    ensures Trim(s) == s
  {
  }

  /** Trimming a string without upper-case letters yields one without upper-case letters. */
  lemma TrimKeepsNoUpper(s: string)
    requires NoUpper(s)
    ensures NoUpper(Trim(s))
  {
    var i, j :| 0 <= i <= j <= |s| && Trim(s) == s[i..j];
    NoUpperSlice(s, i, j);
  }

  /** A piece of a string without upper-case letters has none either. */
  lemma NoUpperSlice(s: string, i: nat, j: nat)
    requires NoUpper(s) && i <= j <= |s|
    ensures NoUpper(s[i..j])
  {
    forall k | 0 <= k < j - i ensures !IsUpper(s[i..j][k]) {
      assert s[i..j][k] == s[i + k];
    }
  }

  /** The normalisation of `checkVendorBlocklist` and `isBlockedMerchant`. */
  function Normalize(s: string): (r: string)
    ensures NoUpper(r)
    ensures r == [] || (!IsWhitespace(r[0]) && !IsWhitespace(r[|r| - 1]))
  {
    TrimKeepsNoUpper(ToLower(s));
    Trim(ToLower(s))
  }

  /** Normalising twice is normalising once. */
  lemma NormalizeIdempotent(s: string)
    ensures Normalize(Normalize(s)) == Normalize(s)
  {
    var n := Normalize(s);
    ToLowerOfLower(n);
    TrimOfTrimmed(n);
  }

  /** A string with an upper-case letter is never the normalisation of anything. */
  lemma UpperNeverNormalized(entry: string, s: string)
    requires !NoUpper(entry)
    ensures Normalize(s) != entry
  {
  }

  /** A string that is already lower-case and trimmed normalises to itself. */
  lemma NormalizeOfNormalized(s: string)
    requires NoUpper(s)
    requires s == [] || (!IsWhitespace(s[0]) && !IsWhitespace(s[|s| - 1]))
    ensures Normalize(s) == s
  {
    ToLowerOfLower(s);
    TrimOfTrimmed(s);
  }

  /** The normalisation ignores whitespace placed around the id. */
  lemma NormalizeIgnoresPadding(a: string, y: string, b: string)
    requires AllWhitespace(a) && AllWhitespace(b)
    ensures Normalize(a + y + b) == Normalize(y)
  {
    ToLowerAppend(a + y, b);
    ToLowerAppend(a, y);
    ToLowerOfBlanks(a);
    ToLowerOfBlanks(b);
    TrimIgnoresPadding(a, ToLower(y), b);
  }

  /** The normalisation ignores case: lowering first changes nothing. */
  lemma NormalizeIgnoresCase(s: string)
    ensures Normalize(ToLower(s)) == Normalize(s)
  {
    ToLowerOfLower(ToLower(s));
  }
}
