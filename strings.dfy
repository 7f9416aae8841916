/**
 * The handful of Python `str` operations the agent loop relies on:
 * `strip()`, `split(sep)`, `split(sep, 1)`, `split()`, `sep.join(...)`,
 * `lower()`, `in` on strings, `startswith` and `endswith`.
 */
module Strings {

  /** Python's `str.isspace()` for one character: the set `strip()` and `split()` remove. */
  predicate IsSpace(c: char) {
    c == ' ' || ('\t' <= c <= '\r') || ('\U{1C}' <= c <= '\U{1F}')
    || c == '\U{85}' || c == '\U{A0}' || c == '\U{1680}'
    || ('\U{2000}' <= c <= '\U{200A}') || c == '\U{2028}' || c == '\U{2029}'
    || c == '\U{202F}' || c == '\U{205F}' || c == '\U{3000}'
  }

  /** `w` is one word of `split()`: non-empty, with no whitespace in it. */
  predicate IsWord(w: string) {
    |w| > 0 && forall i :: 0 <= i < |w| ==> !IsSpace(w[i])
  }

  predicate StartsWith(s: string, prefix: string) {
    |prefix| <= |s| && s[..|prefix|] == prefix
  }

  predicate EndsWith(s: string, suffix: string) {
    |suffix| <= |s| && s[|s| - |suffix|..] == suffix
  }

  /** Python's `sub in s`. */
  predicate Contains(s: string, sub: string)
    decreases |s|
  {
    StartsWith(s, sub) || (|s| > 0 && Contains(s[1..], sub))
  }

  /** `sub` occurs in `s` at position `i`, so `sub in s` holds. */
  lemma {:induction false} ContainsAt(s: string, sub: string, i: nat)
    requires i + |sub| <= |s| && s[i..i + |sub|] == sub
    ensures Contains(s, sub)
    decreases i
  {
    if i == 0 {
      assert s[..|sub|] == sub;
    } else {
      assert s[1..][i - 1..i - 1 + |sub|] == s[i..i + |sub|];
      ContainsAt(s[1..], sub, i - 1);
    }
  }

  /** Conversely, `sub in s` means some position of `s` starts `sub`. */
  lemma {:induction false} ContainsWitness(s: string, sub: string) returns (i: nat)
    requires Contains(s, sub)
    ensures i + |sub| <= |s| && s[i..i + |sub|] == sub
    decreases |s|
  {
    if StartsWith(s, sub) {
      i := 0;
    } else {
      var j := ContainsWitness(s[1..], sub);
      assert s[1..][j..j + |sub|] == s[j + 1..j + 1 + |sub|];
      i := j + 1;
    }
  }

  /** Python's `any(p in s for p in phrases)`. */
  predicate ContainsAny(s: string, phrases: seq<string>)
    decreases |phrases|
  {
    |phrases| > 0 && (Contains(s, phrases[0]) || ContainsAny(s, phrases[1..]))
  }

  lemma {:induction false} ContainsAnyMeans(s: string, phrases: seq<string>)
    ensures ContainsAny(s, phrases) <==> exists k :: 0 <= k < |phrases| && Contains(s, phrases[k])
    decreases |phrases|
  {
    if |phrases| > 0 {
      ContainsAnyMeans(s, phrases[1..]);
      if ContainsAny(s, phrases[1..]) {
        var k :| 0 <= k < |phrases[1..]| && Contains(s, phrases[1..][k]);
        assert Contains(s, phrases[k + 1]);
      }
      if exists k :: 0 <= k < |phrases| && Contains(s, phrases[k]) {
        var k :| 0 <= k < |phrases| && Contains(s, phrases[k]);
        if k > 0 {
          assert phrases[1..][k - 1] == phrases[k];
        }
      }
    }
  }

  function LowerChar(c: char): char {
    if 'A' <= c <= 'Z' then (c as int + 32) as char else c
  }

  /** Python's `str.lower()`, restricted to the ASCII letters. */
  function Lower(s: string): (r: string)
    ensures |r| == |s|
    ensures forall i :: 0 <= i < |s| ==> r[i] == LowerChar(s[i])
  {
    seq(|s|, i requires 0 <= i < |s| => LowerChar(s[i]))
  }

  /** Position of the first `x` in `s` (Python's `s.index(x)`). */
  function FirstIndex<T(==)>(s: seq<T>, x: T): (i: nat)
    requires x in s
    ensures i < |s| && s[i] == x && x !in s[..i]
  {
    if s[0] == x then 0 else 1 + FirstIndex(s[1..], x)
  }

  /** The first occurrence is the only position holding `x` with no `x` before it. */
  lemma {:induction false} FirstIndexUnique<T>(s: seq<T>, x: T, k: nat)
    requires k < |s| && s[k] == x && x !in s[..k]
    ensures FirstIndex(s, x) == k
    decreases k
  {
    if k > 0 {
      assert s[..k][0] == s[0];
      assert s[1..][..k - 1] == s[1..k];
      assert forall y :: y in s[1..k] ==> y in s[..k];
      FirstIndexUnique(s[1..], x, k - 1);
    }
  }

  /** Appending to a sequence does not move the first occurrence of what it already holds. */
  lemma FirstIndexOfPrefix<T>(a: seq<T>, b: seq<T>, x: T)
    requires x in a
    ensures FirstIndex(a + b, x) == FirstIndex(a, x)
  {
    var j := FirstIndex(a, x);
    assert (a + b)[..j] == a[..j];
    FirstIndexUnique(a + b, x, j);
  }

  /** The leading whitespace of `s` removed (Python's `lstrip()`). */
  function TrimStart(s: string): (r: string)
    ensures |r| <= |s| && r == s[|s| - |r|..]
    ensures r == [] || !IsSpace(r[0])
    decreases |s|
  {
    if |s| > 0 && IsSpace(s[0]) then TrimStart(s[1..]) else s
  }

  /** The trailing whitespace of `s` removed (Python's `rstrip()`). */
  function TrimEnd(s: string): (r: string)
    ensures |r| <= |s| && r == s[..|r|]
    ensures r == [] || !IsSpace(r[|r| - 1])
    decreases |s|
  {
    if |s| > 0 && IsSpace(s[|s| - 1]) then TrimEnd(s[..|s| - 1]) else s
  }

  /** Every character of `s` is whitespace. */
  predicate AllSpace(s: string) {
    forall i :: 0 <= i < |s| ==> IsSpace(s[i])
  }

  lemma {:induction false} TrimStartEmpty(s: string)
    ensures TrimStart(s) == [] <==> AllSpace(s)
    decreases |s|
  {
    if |s| > 0 && IsSpace(s[0]) {
      TrimStartEmpty(s[1..]);
      assert forall i :: 1 <= i < |s| ==> s[i] == s[1..][i - 1];
    }
  }

  lemma {:induction false} TrimEndEmpty(s: string)
    ensures TrimEnd(s) == [] <==> AllSpace(s)
    decreases |s|
  {
    if |s| > 0 && IsSpace(s[|s| - 1]) {
      TrimEndEmpty(s[..|s| - 1]);
      assert forall i :: 0 <= i < |s| - 1 ==> s[i] == s[..|s| - 1][i];
    }
  }

  /** Python's `strip()` with no argument. */
  function Strip(s: string): string {
    TrimEnd(TrimStart(s))
  }

  /** What `lstrip()` drops is whitespace. */
  lemma {:induction false} TrimStartDrops(s: string)
    ensures AllSpace(s[..|s| - |TrimStart(s)|])
    decreases |s|
  {
    if |s| > 0 && IsSpace(s[0]) {
      TrimStartDrops(s[1..]);
      var k := |s| - |TrimStart(s)|;
      assert forall i :: 1 <= i < k ==> s[..k][i] == s[1..][..k - 1][i - 1];
    }
  }

  /** What `rstrip()` drops is whitespace. */
  lemma {:induction false} TrimEndDrops(s: string)
    ensures AllSpace(s[|TrimEnd(s)|..])
    decreases |s|
  {
    if |s| > 0 && IsSpace(s[|s| - 1]) {
      var s' := s[..|s| - 1];
      TrimEndDrops(s');
      var k := |TrimEnd(s)|;
      assert forall i :: 0 <= i < |s| - 1 - k ==> s[k..][i] == s'[k..][i];
    }
  }

  /**
   * What `strip()` leaves: the slice of `s` between its leading and its
   * trailing whitespace. It is empty when `s` is all whitespace, and otherwise
   * neither starts nor ends with whitespace.
   */
  lemma StripSpec(s: string)
    ensures |Strip(s)| <= |s|
    ensures exists i, j :: 0 <= i <= j <= |s| && Strip(s) == s[i..j] && AllSpace(s[..i]) && AllSpace(s[j..])
    ensures Strip(s) == [] <==> AllSpace(s)
    ensures Strip(s) == [] || (!IsSpace(Strip(s)[0]) && !IsSpace(Strip(s)[|Strip(s)| - 1]))
  {
    var t := TrimStart(s);
    var r := TrimEnd(t);
    TrimStartEmpty(s);
    TrimEndEmpty(t);
    var i, j := StripBounds(s);
    assert t != [] ==> !AllSpace(t);
    assert r != [] ==> r[0] == t[0];
  }

  /** The positions `strip()` cuts `s` at. */
  lemma StripBounds(s: string) returns (i: nat, j: nat)
    ensures i <= j <= |s| && Strip(s) == s[i..j] && AllSpace(s[..i]) && AllSpace(s[j..])
  {
    var t := TrimStart(s);
    var r := TrimEnd(t);
    TrimStartDrops(s);
    TrimEndDrops(t);
    i := |s| - |t|;
    j := i + |r|;
    assert t == s[i..];
    assert r == t[..|r|];
    assert s[j..] == t[|r|..];
  }

  /** `sep.join(parts)`. */
  function Join(parts: seq<string>, sep: string): string
    decreases |parts|
  {
    if |parts| == 0 then ""
    else if |parts| == 1 then parts[0]
    else parts[0] + sep + Join(parts[1..], sep)
  }

  /** Python's `s.split(d)` for a one-character separator `d`. */
  function SplitOn(s: string, d: char): (parts: seq<string>)
    ensures |parts| >= 1
    ensures forall i :: 0 <= i < |parts| ==> d !in parts[i]
    ensures Join(parts, [d]) == s
    decreases |s|
  {
    if d !in s then [s]
    else
      var i := FirstIndex(s, d);
      var rest := SplitOn(s[i + 1..], d);
      assert s == s[..i] + [d] + s[i + 1..];
      [s[..i]] + rest
  }

  /** Python's `s.split(d, 1)` when `d in s`: the text before the first `d` and the text after it. */
  function SplitFirst(s: string, d: char): (r: (string, string))
    requires d in s
    ensures d !in r.0
    ensures r.0 + [d] + r.1 == s
  {
    var i := FirstIndex(s, d);
    assert s == s[..i] + [d] + s[i + 1..];
    (s[..i], s[i + 1..])
  }

  /** Length of the run of non-whitespace characters that starts `t`. */
  function WordLength(t: string): (n: nat)
    ensures n <= |t|
    ensures forall i :: 0 <= i < n ==> !IsSpace(t[i])
    ensures n == |t| || IsSpace(t[n])
    decreases |t|
  {
    if |t| == 0 || IsSpace(t[0]) then 0 else 1 + WordLength(t[1..])
  }

  /** Python's `s.split()`: the maximal runs of non-whitespace characters, in order. */
  function Words(s: string): seq<string>
    decreases |s|
  {
    var t := TrimStart(s);
    if t == [] then []
    else
      var n := WordLength(t);
      [t[..n]] + Words(t[n..])
  }

  lemma FirstWordIsWord(t: string)
    requires t != [] && !IsSpace(t[0])
    ensures IsWord(t[..WordLength(t)])
  {
    var n := WordLength(t);
    forall i | 0 <= i < n ensures !IsSpace(t[..n][i]) {
      assert t[..n][i] == t[i];
    }
  }

  /** Every piece `split()` returns is a word. */
  lemma {:induction false} WordsAreWords(s: string)
    ensures forall i :: 0 <= i < |Words(s)| ==> IsWord(Words(s)[i])
    decreases |s|
  {
    var t := TrimStart(s);
    if t != [] {
      var n := WordLength(t);
      FirstWordIsWord(t);
      WordsAreWords(t[n..]);
      var ws, rest := Words(s), Words(t[n..]);
      assert ws == [t[..n]] + rest;
      forall i | 0 <= i < |ws| ensures IsWord(ws[i]) {
        if i > 0 {
          assert ws[i] == rest[i - 1];
        }
      }
    }
  }

  lemma {:induction false} WordLengthOfWord(w: string, rest: string)
    requires forall i :: 0 <= i < |w| ==> !IsSpace(w[i])
    requires rest == [] || IsSpace(rest[0])
    ensures WordLength(w + rest) == |w|
    decreases |w|
  {
    if |w| > 0 {
      assert (w + rest)[1..] == w[1..] + rest;
      WordLengthOfWord(w[1..], rest);
    } else {
      assert w + rest == rest;
    }
  }

  lemma WordsOfWord(w: string)
    requires IsWord(w)
    ensures Words(w) == [w]
  {
    assert TrimStart(w) == w;
    WordLengthOfWord(w, "");
    assert w + "" == w;
    assert w[|w|..] == "";
  }

  lemma WordsSkipsSpace(tail: string)
    ensures Words(" " + tail) == Words(tail)
  {
    assert (" " + tail)[1..] == tail;
    assert TrimStart(" " + tail) == TrimStart(tail);
  }

  lemma WordsOfCons(w: string, tail: string)
    requires IsWord(w)
    ensures Words(w + " " + tail) == [w] + Words(tail)
  {
    var s := w + " " + tail;
    assert s[0] == w[0];
    assert TrimStart(s) == s;
    assert w + (" " + tail) == s;
    WordLengthOfWord(w, " " + tail);
    assert s[..|w|] == w;
    assert s[|w|..] == " " + tail;
    WordsSkipsSpace(tail);
  }

  /**
   * Splitting the words re-joined with single spaces gives back the same words:
   * `" ".join(s.split()).split() == s.split()`.
   */
  lemma {:induction false} WordsOfJoined(ws: seq<string>)
    requires forall i :: 0 <= i < |ws| ==> IsWord(ws[i])
    ensures Words(Join(ws, " ")) == ws
    decreases |ws|
  {
    if |ws| == 1 {
      WordsOfWord(ws[0]);
    } else if |ws| > 1 {
      WordsOfJoined(ws[1..]);
      WordsOfCons(ws[0], Join(ws[1..], " "));
      assert ws == [ws[0]] + ws[1..];
    }
  }

  /** Leading whitespace does not change `split()`. */
  lemma WordsOfSpaceCons(c: char, s: string)
    requires IsSpace(c)
    ensures Words([c] + s) == Words(s)
  {
    assert ([c] + s)[1..] == s;
    assert TrimStart([c] + s) == TrimStart(s);
  }

  /** A word that starts the text, followed by whitespace or nothing, is the first field of `split()`. */
  lemma WordsOfWordCons(w: string, rest: string)
    requires IsWord(w) && (rest == [] || IsSpace(rest[0]))
    ensures Words(w + rest) == [w] + Words(rest)
  {
    var s := w + rest;
    assert s[0] == w[0];
    assert TrimStart(s) == s;
    WordLengthOfWord(w, rest);
    assert s[..|w|] == w && s[|w|..] == rest;
  }

  /** A whitespace character splits the text around it: `(a + c + b).split() == a.split() + b.split()`. */
  lemma {:induction false} WordsAtSpace(a: string, c: char, b: string)
    requires IsSpace(c)
    ensures Words(a + [c] + b) == Words(a) + Words(b)
    decreases |a|, 1
  {
    if a == [] {
      assert a + [c] + b == [c] + b;
      WordsOfSpaceCons(c, b);
    } else if IsSpace(a[0]) {
      var a' := a[1..];
      assert a + [c] + b == [a[0]] + (a' + [c] + b);
      assert a == [a[0]] + a';
      WordsOfSpaceCons(a[0], a' + [c] + b);
      WordsOfSpaceCons(a[0], a');
      WordsAtSpace(a', c, b);
    } else {
      var m := WordLength(a);
      FirstWordIsWord(a);
      assert a == a[..m] + a[m..];
      assert a + [c] + b == a[..m] + a[m..] + [c] + b;
      WordsAtWord(a[..m], a[m..], c, b);
    }
  }

  /** The case of `WordsAtSpace` where the text before `c` starts with the word `w`. */
  lemma {:induction false} WordsAtWord(w: string, a: string, c: char, b: string)
    requires IsSpace(c) && IsWord(w) && (a == [] || IsSpace(a[0]))
    ensures Words(w + a + [c] + b) == Words(w + a) + Words(b)
    decreases |w| + |a|, 0
  {
    var rest := a + [c] + b;
    calc {
      Words(w + a + [c] + b);
      { assert w + a + [c] + b == w + rest; }
      Words(w + rest);
      { assert rest[0] == if a == [] then c else a[0];
        WordsOfWordCons(w, rest); }
      [w] + Words(rest);
      { WordsAtSpace(a, c, b); }
      [w] + (Words(a) + Words(b));
      { Associative([w], Words(a), Words(b)); }
      ([w] + Words(a)) + Words(b);
      { WordsOfWordCons(w, a); }
      Words(w + a) + Words(b);
    }
  }

  /** Concatenation is associative. */
  lemma Associative<T>(x: seq<T>, y: seq<T>, z: seq<T>)
    ensures x + (y + z) == (x + y) + z
  {
  }

  /**
   * `s` holds whitespace only as single spaces between two words: no leading
   * or trailing whitespace and no run of two.
   */
  predicate SingleSpaced(s: string) {
    forall i :: 0 <= i < |s| && IsSpace(s[i]) ==>
      s[i] == ' ' && 0 < i < |s| - 1 && !IsSpace(s[i - 1]) && !IsSpace(s[i + 1])
  }

  lemma {:induction false} JoinedWordsSingleSpaced(ws: seq<string>)
    requires forall i :: 0 <= i < |ws| ==> IsWord(ws[i])
    ensures ws != [] ==> Join(ws, " ") != []
    ensures SingleSpaced(Join(ws, " "))
    decreases |ws|
  {
    if |ws| > 1 {
      var w, r' := ws[0], Join(ws[1..], " ");
      JoinedWordsSingleSpaced(ws[1..]);
      var r := Join(ws, " ");
      assert r == w + " " + r';
      forall i | 0 <= i < |r| && IsSpace(r[i])
        ensures r[i] == ' ' && 0 < i < |r| - 1 && !IsSpace(r[i - 1]) && !IsSpace(r[i + 1])
      {
        if i == |w| {
          assert r[i - 1] == w[|w| - 1] && r[i + 1] == r'[0];
        } else if i > |w| {
          var k := i - |w| - 1;
          assert r[i] == r'[k];
          assert k > 0 ==> r[i - 1] == r'[k - 1];
          assert r[i + 1] == r'[k + 1];
        }
      }
    }
  }

  /**
   * `" ".join(s.split())`: the same words as `s`, with the ends trimmed; that
   * every whitespace run between two words became one space is
   * `CollapseSpacesSingleSpaced`.
   */
  function CollapseSpaces(s: string): (r: string)
    ensures Words(r) == Words(s)
    ensures r == [] || (!IsSpace(r[0]) && !IsSpace(r[|r| - 1]))
  {
    WordsAreWords(s);
    WordsOfJoined(Words(s));
    JoinedWordsSingleSpaced(Words(s));
    Join(Words(s), " ")
  }

  /** The whitespace left in `" ".join(s.split())` is single spaces between words. */
  lemma CollapseSpacesSingleSpaced(s: string)
    ensures SingleSpaced(CollapseSpaces(s))
  {
    WordsAreWords(s);
    JoinedWordsSingleSpaced(Words(s));
  }
}
