/** The string operations of the source that the model relies on. */
module Texts {
  /** The characters that `str.strip` and `str.split` treat as white space. */
  predicate IsSpace(c: char) {
    || ('\t' <= c <= '\r') || ('\U{1C}' <= c <= ' ') || c == '\U{85}' || c == '\U{A0}' || c == '\U{1680}'
    || ('\U{2000}' <= c <= '\U{200A}') || c == '\U{2028}' || c == '\U{2029}' || c == '\U{202F}'
    || c == '\U{205F}' || c == '\U{3000}'
  }

  function StripLeft(s: string): (r: string)
    ensures |r| <= |s|
    ensures r != "" ==> !IsSpace(r[0])
    ensures s != "" && !IsSpace(s[|s| - 1]) ==> r != "" && r[|r| - 1] == s[|s| - 1]
  {
    if s != "" && IsSpace(s[0]) then StripLeft(s[1..]) else s
  }

  function StripRight(s: string): (r: string)
    ensures |r| <= |s| && r == s[..|r|]
    ensures r != "" ==> !IsSpace(r[|r| - 1])
  {
    if s != "" && IsSpace(s[|s| - 1]) then StripRight(s[..|s| - 1]) else s
  }

  /** `str.strip`. */
  function Strip(s: string): (r: string)
    ensures r != "" ==> !IsSpace(r[0]) && !IsSpace(r[|r| - 1])
    ensures s != "" && !IsSpace(s[0]) && !IsSpace(s[|s| - 1]) ==> r == s
    ensures r == "" <==> forall c :: c in s ==> IsSpace(c)
  {
    BlankLeft(s);
    BlankRight(StripLeft(s));
    StripRight(StripLeft(s))
  }

  lemma {:induction false} BlankLeft(s: string)
    ensures forall c :: c in s && !IsSpace(c) ==> c in StripLeft(s)
    ensures forall c :: c in StripLeft(s) ==> c in s
  {
    if s != "" && IsSpace(s[0]) {
      assert s == [s[0]] + s[1..];
      BlankLeft(s[1..]);
    }
  }

  lemma {:induction false} BlankRight(s: string)
    ensures forall c :: c in s && !IsSpace(c) ==> c in StripRight(s)
    ensures forall c :: c in StripRight(s) ==> c in s
  {
    if s != "" && IsSpace(s[|s| - 1]) {
      assert s == s[..|s| - 1] + [s[|s| - 1]];
      BlankRight(s[..|s| - 1]);
    }
  }

  /** The digits of a natural number. */
  function Decimal(n: nat): (s: string)
    ensures s != "" && forall c :: c in s ==> '0' <= c <= '9'
  {
    var digit := ['0' + (n % 10) as char];
    if n < 10 then digit else Decimal(n / 10) + digit
  }

  // ----- Words -----

  /** `str.split` without a separator. */
  function Words(s: string): (words: seq<string>)
    ensures forall w :: w in words ==> w != ""
  {
    WordsAfter("", s)
  }

  function WordsAfter(word: string, s: string): (words: seq<string>)
    ensures forall w :: w in words ==> w != ""
    ensures word != "" ==> words != []
    decreases |s|
  {
    var done := if word == "" then [] else [word];
    if s == "" then done
    else if IsSpace(s[0]) then done + WordsAfter("", s[1..])
    else WordsAfter(word + [s[0]], s[1..])
  }

  lemma {:induction false} SomeWord(word: string, s: string)
    requires exists c :: c in s && !IsSpace(c)
    ensures WordsAfter(word, s) != []
    decreases |s|
  {
    assert s == [s[0]] + s[1..];
    if IsSpace(s[0]) {
      SomeWord("", s[1..]);
    }
  }

  lemma {:induction false} OneWord(word: string, s: string)
    requires word + s != "" && forall c :: c in s ==> !IsSpace(c)
    ensures WordsAfter(word, s) == [word + s]
    decreases |s|
  {
    if s != "" {
      OneWord(word + [s[0]], s[1..]);
      assert word + [s[0]] + s[1..] == word + s;
    } else {
      assert word + s == word;
    }
  }

  /** White space separates words. */
  lemma {:induction false} SpaceSeparates(word: string, s: string, space: char, t: string)
    requires IsSpace(space)
    ensures WordsAfter(word, s + [space] + t) == WordsAfter(word, s) + WordsAfter("", t)
    decreases |s|
  {
    var all := s + [space] + t;
    if s == "" {
      assert all[1..] == t;
    } else {
      assert all[1..] == s[1..] + [space] + t;
      if IsSpace(s[0]) {
        SpaceSeparates("", s[1..], space, t);
      } else {
        SpaceSeparates(word + [s[0]], s[1..], space, t);
      }
    }
  }

  /** The words of a text, completely: none in the empty text, one in a text without
      white space, and those of either side where white space stands between. */
  lemma WordsAreSplit(s: string, space: char, t: string)
    requires IsSpace(space)
    ensures Words("") == []
    ensures s != "" && (forall c :: c in s ==> !IsSpace(c)) ==> Words(s) == [s]
    ensures Words(s + [space] + t) == Words(s) + Words(t)
  {
    SpaceSeparates("", s, space, t);
    if s != "" && forall c :: c in s ==> !IsSpace(c) {
      OneWord("", s);
      assert "" + s == s;
    }
  }

  /** Stripping cuts white space off both ends and nothing else. */
  lemma StripCutsSpace(s: string) returns (i: nat, j: nat)
    ensures i <= j <= |s| && Strip(s) == s[i..j]
    ensures forall k :: 0 <= k < i || j <= k < |s| ==> IsSpace(s[k])
  {
    i := LeftCut(s);
    var rest := s[i..];
    var n := RightCut(rest);
    j := i + n;
    assert rest[..n] == s[i..j];
    forall k | j <= k < |s| ensures IsSpace(s[k]) {
      assert s[k] == rest[k - i];
    }
  }

  lemma {:induction false} LeftCut(s: string) returns (i: nat)
    ensures i <= |s| && StripLeft(s) == s[i..] && forall k :: 0 <= k < i ==> IsSpace(s[k])
  {
    i := 0;
    if s != "" && IsSpace(s[0]) {
      var n := LeftCut(s[1..]);
      i := n + 1;
      assert s[1..][n..] == s[i..];
      forall k | 0 <= k < i ensures IsSpace(s[k]) {
        assert k > 0 ==> s[k] == s[1..][k - 1];
      }
    }
  }

  lemma {:induction false} RightCut(s: string) returns (n: nat)
    ensures n <= |s| && StripRight(s) == s[..n] && forall k :: n <= k < |s| ==> IsSpace(s[k])
  {
    n := |s|;
    if s != "" && IsSpace(s[|s| - 1]) {
      n := RightCut(s[..|s| - 1]);
      assert s[..|s| - 1][..n] == s[..n];
    }
  }

  // ----- Order -----

  /** The order of strings by code points. */
  predicate Before(a: string, b: string) {
    if b == "" then false
    else if a == "" then true
    else a[0] < b[0] || (a[0] == b[0] && Before(a[1..], b[1..]))
  }

  lemma {:induction false} BeforeTotal(a: string, b: string)
    ensures a == b || Before(a, b) || Before(b, a)
    ensures !(Before(a, b) && Before(b, a)) && !Before(a, a)
  {
    if a != "" && b != "" {
      BeforeTotal(a[1..], b[1..]);
      assert a == [a[0]] + a[1..] && b == [b[0]] + b[1..];
      BeforeTotal(a[1..], a[1..]);
    } else if a != "" {
      BeforeTotal(a[1..], a[1..]);
    }
  }

  lemma {:induction false} BeforeTransitive(a: string, b: string, c: string)
    requires Before(a, b) && Before(b, c)
    ensures Before(a, c)
  {
    if a != "" && b != "" && c != "" && a[0] == b[0] == c[0] {
      BeforeTransitive(a[1..], b[1..], c[1..]);
    }
  }
}
