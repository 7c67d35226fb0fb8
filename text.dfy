/** String helpers with Python's meaning: `str.isspace`, `split()`, `strip()`,
    `" ".join`, `lower()` (ASCII letters only), `in` on strings, `int()` of a digit
    string and `repr` of a non-negative int. */
module Text {

  /** The code points Python's `str.isspace` accepts. */
  predicate IsSpace(c: char) {
    var n := c as int;
    (9 <= n <= 13) || (28 <= n <= 32) || n == 0x85 || n == 0xA0 || n == 0x1680
    || (0x2000 <= n <= 0x200A) || n == 0x2028 || n == 0x2029 || n == 0x202F
    || n == 0x205F || n == 0x3000
  }

  predicate NoSpace(s: string) {
    forall i :: 0 <= i < |s| ==> !IsSpace(s[i])
  }

  predicate AllSpace(s: string) {
    forall i :: 0 <= i < |s| ==> IsSpace(s[i])
  }

  /** What `split()` can return: non-empty words without whitespace. */
  predicate ValidWords(ws: seq<string>) {
    forall i :: 0 <= i < |ws| ==> |ws[i]| > 0 && NoSpace(ws[i])
  }

  /** The length of the leading run of non-whitespace characters. */
  function WordLen(s: string): (n: nat)
    ensures n <= |s|
    ensures NoSpace(s[..n])
    ensures n < |s| ==> IsSpace(s[n])
  {
    if |s| == 0 || IsSpace(s[0]) then 0 else 1 + WordLen(s[1..])
  }

  /** `s.split()`: the maximal runs of non-whitespace characters, in order. */
  function Words(s: string): (ws: seq<string>)
    ensures ValidWords(ws)
    decreases |s|
  {
    if |s| == 0 then []
    else if IsSpace(s[0]) then Words(s[1..])
    else
      var n := WordLen(s);
      [s[..n]] + Words(s[n..])
  }

  /** `" ".join(ws)`: the first word leads and the last word ends it. */
  function Join(ws: seq<string>): (r: string)
    ensures |ws| == 0 ==> r == ""
    ensures |ws| >= 1 ==> ws[0] <= r
    ensures |ws| >= 1 ==> |ws[|ws| - 1]| <= |r| && r[|r| - |ws[|ws| - 1]|..] == ws[|ws| - 1]
  {
    if |ws| == 0 then ""
    else if |ws| == 1 then ws[0]
    else
      var rest := Join(ws[1..]);
      var r := ws[0] + " " + rest;
      assert r[..|ws[0]|] == ws[0];
      assert r[|r| - |rest|..] == rest;
      r
  }

  /** `s.lstrip()`. */
  function LStrip(s: string): (r: string)
    ensures r == "" || !IsSpace(r[0])
    ensures |r| <= |s| && r == s[|s| - |r|..]
  {
    if |s| > 0 && IsSpace(s[0]) then LStrip(s[1..]) else s
  }

  /** What `lstrip` removes is whitespace. */
  lemma {:induction false} LStripRemovesSpace(s: string)
    ensures AllSpace(s[..|s| - |LStrip(s)|])
    decreases |s|
  {
    if |s| > 0 && IsSpace(s[0]) {
      LStripRemovesSpace(s[1..]);
      var n := |s| - |LStrip(s)|;
      assert s[..n] == [s[0]] + s[1..][..n - 1];
    }
  }

  /** `s.rstrip()`. */
  function RStrip(s: string): (r: string)
    ensures r == "" || !IsSpace(r[|r| - 1])
    ensures |r| <= |s| && r == s[..|r|]
    ensures AllSpace(s[|r|..])
  {
    if |s| > 0 && IsSpace(s[|s| - 1]) then RStrip(s[..|s| - 1]) else s
  }

  /** `s.strip()`: the slice of s that starts where `lstrip` stops, with nothing
      left to strip (what `lstrip` removes is `LStripRemovesSpace`, what `rstrip`
      removes is in `RStrip`'s contract). */
  function Strip(s: string): (r: string)
    ensures Trimmed(r)
    ensures var i := |s| - |LStrip(s)|; i + |r| <= |s| && r == s[i..i + |r|]
  {
    var l := LStrip(s);
    var r := RStrip(l);
    assert r != "" ==> r[0] == l[0];
    StripSlices(s, l, r);
    r
  }

  /** A prefix r of a suffix l of s is the slice of s where l starts. */
  lemma StripSlices(s: string, l: string, r: string)
    requires |l| <= |s| && l == s[|s| - |l|..]
    requires |r| <= |l| && r == l[..|r|]
    ensures var i := |s| - |l|; i + |r| <= |s| && r == s[i..i + |r|]
  {
    var i := |s| - |l|;
    assert s[i..][..|r|] == s[i..i + |r|];
  }

  /** A string with no whitespace at either end. */
  predicate Trimmed(s: string) {
    s == "" || (!IsSpace(s[0]) && !IsSpace(s[|s| - 1]))
  }

  // ---- split / strip / join lemmas ----

  lemma {:induction false} WordsOfSpaces(s: string)
    requires AllSpace(s)
    ensures Words(s) == []
    decreases |s|
  {
    if |s| > 0 {
      WordsOfSpaces(s[1..]);
    }
  }

  /** A word that ends before s does, or at a whitespace start of t, is unchanged by appending t. */
  lemma {:induction false} WordLenAppend(s: string, t: string)
    requires WordLen(s) < |s| || |t| == 0 || IsSpace(t[0])
    ensures WordLen(s + t) == WordLen(s)
    decreases |s|
  {
    if |s| == 0 {
      assert s + t == t;
    } else if !IsSpace(s[0]) {
      assert (s + t)[0] == s[0];
      assert (s + t)[1..] == s[1..] + t;
      assert WordLen(s) == 1 + WordLen(s[1..]);
      WordLenAppend(s[1..], t);
    } else {
      assert (s + t)[0] == s[0];
    }
  }

  /** Trailing whitespace adds no word. */
  lemma {:induction false} WordsAppendSpaces(s: string, t: string)
    requires AllSpace(t)
    ensures Words(s + t) == Words(s)
    decreases |s|
  {
    if |s| == 0 {
      assert s + t == t;
      WordsOfSpaces(t);
    } else if IsSpace(s[0]) {
      assert (s + t)[1..] == s[1..] + t;
      WordsAppendSpaces(s[1..], t);
    } else {
      var n := WordLen(s);
      WordLenAppend(s, t);
      assert (s + t)[..n] == s[..n];
      assert (s + t)[n..] == s[n..] + t;
      WordsAppendSpaces(s[n..], t);
    }
  }

  /** Leading whitespace adds no word. */
  lemma {:induction false} WordsLStrip(s: string)
    ensures Words(LStrip(s)) == Words(s)
    decreases |s|
  {
    if |s| > 0 && IsSpace(s[0]) {
      WordsLStrip(s[1..]);
    }
  }

  /** Stripping keeps the words. */
  lemma WordsStrip(s: string)
    ensures Words(Strip(s)) == Words(s)
  {
    var l := LStrip(s);
    var r := RStrip(l);
    assert l == r + l[|r|..];
    WordsAppendSpaces(r, l[|r|..]);
    WordsLStrip(s);
  }

  /** A string with nothing to strip is left unchanged. */
  lemma StripOfTrimmed(s: string)
    requires Trimmed(s)
    ensures Strip(s) == s
  {
  }

  /** One word with no whitespace is its own split. */
  lemma WordsOfToken(w: string)
    requires |w| > 0 && NoSpace(w)
    ensures WordLen(w) == |w|
    ensures Words(w) == [w]
    decreases |w|
  {
    if |w| > 1 {
      assert NoSpace(w[1..]);
      WordsOfToken(w[1..]);
    }
    assert w[..|w|] == w;
    assert w[|w|..] == "";
  }

  lemma NoSpaceConcat(a: string, b: string)
    requires NoSpace(a) && NoSpace(b)
    ensures NoSpace(a + b)
  {
    forall i | 0 <= i < |a + b| ensures !IsSpace((a + b)[i]) {
      if i >= |a| { assert (a + b)[i] == b[i - |a|]; }
    }
  }

  /** A word followed by a space splits off as the first word. */
  lemma WordsConsWord(w: string, rest: string)
    requires |w| > 0 && NoSpace(w)
    ensures Words(w + (" " + rest)) == [w] + Words(rest)
  {
    var s := w + (" " + rest);
    WordsOfToken(w);
    WordLenAppend(w, " " + rest);
    assert s[0] == w[0];
    assert s[..|w|] == w;
    assert s[|w|..] == " " + rest;
    assert (" " + rest)[1..] == rest;
  }

  /** Joining at least two words, then appending, regrouped around the first word. */
  lemma JoinConsSuffix(ws: seq<string>, t: string)
    requires |ws| >= 2
    ensures Join(ws) + t == ws[0] + (" " + (Join(ws[1..]) + t))
  {
    var j := Join(ws[1..]);
    assert Join(ws) == ws[0] + " " + j;
    Regroup(ws[0], " ", j, t);
  }

  lemma Regroup<T>(a: seq<T>, b: seq<T>, c: seq<T>, d: seq<T>)
    ensures (a + b + c) + d == a + (b + (c + d))
  {
  }

  /** One step of WordsJoinSuffix: a first word in front of the rest. */
  lemma WordsJoinSuffixStep(ws: seq<string>, t: string)
    requires |ws| >= 2 && ValidWords(ws) && NoSpace(t)
    requires Words(Join(ws[1..]) + t) == ws[1..][..|ws| - 2] + [ws[|ws| - 1] + t]
    ensures Words(Join(ws) + t) == ws[..|ws| - 1] + [ws[|ws| - 1] + t]
  {
    var rest := Join(ws[1..]) + t;
    JoinConsSuffix(ws, t);
    assert |ws[0]| > 0 && NoSpace(ws[0]);
    WordsConsWord(ws[0], rest);
    ConsInitLast(ws, ws[|ws| - 1] + t);
  }

  /** Putting the head back in front of the tail's init-plus-x gives the init plus x. */
  lemma ConsInitLast<T>(xs: seq<T>, x: T)
    requires |xs| >= 2
    ensures [xs[0]] + (xs[1..][..|xs| - 2] + [x]) == xs[..|xs| - 1] + [x]
  {
    assert [xs[0]] + xs[1..][..|xs| - 2] == xs[..|xs| - 1];
  }

  /** Splitting words joined by single spaces, with a whitespace-free suffix glued
      to the last one, gives the words back with that suffix on the last. */
  lemma {:induction false} WordsJoinSuffix(ws: seq<string>, t: string)
    requires |ws| >= 1 && ValidWords(ws) && NoSpace(t)
    ensures Words(Join(ws) + t) == ws[..|ws| - 1] + [ws[|ws| - 1] + t]
    decreases |ws|
  {
    if |ws| == 1 {
      NoSpaceConcat(ws[0], t);
      WordsOfToken(ws[0] + t);
      assert Join(ws) == ws[0];
      assert ws[..0] + [ws[0] + t] == [ws[0] + t];
    } else {
      assert ValidWords(ws[1..]);
      WordsJoinSuffix(ws[1..], t);
      WordsJoinSuffixStep(ws, t);
    }
  }

  /** Joined words, when there are any, start with the first word's first
      character and end with the last word's last character. */
  lemma {:induction false} JoinEnds(ws: seq<string>)
    requires ValidWords(ws)
    ensures |ws| >= 1 ==> |Join(ws)| > 0
    ensures |ws| >= 1 ==> Join(ws)[0] == ws[0][0]
    ensures |ws| >= 1 ==> Join(ws)[|Join(ws)| - 1] == ws[|ws| - 1][|ws[|ws| - 1]| - 1]
    decreases |ws|
  {
    if |ws| > 1 {
      assert ValidWords(ws[1..]);
      JoinEnds(ws[1..]);
    }
  }

  // ---- lower-casing ----

  /** Python's `lower()` on one character, for ASCII letters. */
  function LowerChar(c: char): char {
    if 'A' <= c <= 'Z' then (c as int + 32) as char else c
  }

  /** `s.lower()` (ASCII letters only). */
  function Lower(s: string): (r: string)
    ensures |r| == |s|
    ensures forall i :: 0 <= i < |s| ==> r[i] == LowerChar(s[i])
  {
    seq(|s|, i requires 0 <= i < |s| => LowerChar(s[i]))
  }

  /** Lower-casing twice is lower-casing once. */
  lemma LowerIdempotent(s: string)
    ensures Lower(Lower(s)) == Lower(s)
  {
  }

  // ---- substring search ----

  /** Python's `k in s` for strings, by scanning start positions. A prefix is
      contained, and nothing longer than s is. */
  function Contains(s: string, k: string): (r: bool)
    ensures k <= s ==> r
    ensures |s| < |k| ==> !r
    decreases |s|
  {
    if k <= s then true
    else if |s| == 0 then false
    else Contains(s[1..], k)
  }

  /** `Contains` finds exactly the positions at which k occurs. */
  lemma {:induction false} ContainsSpec(s: string, k: string)
    ensures Contains(s, k) <==> exists i :: 0 <= i <= |s| && k <= s[i..]
    decreases |s|
  {
    if k <= s {
      assert s[0..] == s;
    } else if |s| > 0 {
      ContainsSpec(s[1..], k);
      if Contains(s[1..], k) {
        var i :| 0 <= i <= |s[1..]| && k <= s[1..][i..];
        assert s[1..][i..] == s[i + 1..];
      } else {
        forall i | 0 <= i <= |s| ensures !(k <= s[i..]) {
          if i > 0 {
            assert s[1..][i - 1..] == s[i..];
          }
        }
      }
    }
  }

  /** Every character of a contained string occurs in the containing one. */
  lemma {:induction false} ContainsHasChar(s: string, k: string, j: nat)
    requires Contains(s, k) && j < |k|
    ensures k[j] in s
    decreases |s|
  {
    if k <= s {
      assert s[j] == k[j];
    } else {
      ContainsHasChar(s[1..], k, j);
      assert k[j] in s[1..];
    }
  }

  // ---- digits ----

  predicate IsDigit(c: char) { '0' <= c <= '9' }

  predicate AllDigits(s: string) {
    forall i :: 0 <= i < |s| ==> IsDigit(s[i])
  }

  /** `int(s)` for a string of decimal digits. */
  function DigitsValue(s: string): (n: nat)
    requires AllDigits(s)
  {
    if |s| == 0 then 0 else DigitsValue(s[..|s| - 1]) * 10 + (s[|s| - 1] as int - '0' as int)
  }

  /** `repr(n)` for a non-negative int. */
  function NatToString(n: nat): (s: string)
    ensures |s| > 0 && AllDigits(s)
  {
    if n < 10 then [('0' as int + n) as char]
    else NatToString(n / 10) + [('0' as int + n % 10) as char]
  }

  /** Reading back a rendered number gives the number. */
  lemma {:induction false} NatToStringRoundTrip(n: nat)
    ensures DigitsValue(NatToString(n)) == n
  {
    var s := NatToString(n);
    if n >= 10 {
      NatToStringRoundTrip(n / 10);
      assert s[..|s| - 1] == NatToString(n / 10);
    }
  }
}
