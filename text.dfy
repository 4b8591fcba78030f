/** Python string primitives the core relies on: whitespace, str.strip(),
    str.lower(), str.split(), str.join, substring search and str(int). */
module Text {

  /** Python's str.isspace() for a single character. */
  predicate IsSpace(c: char) {
    c == ' ' || ('\t' <= c <= '\r') || ('\U{1C}' <= c <= '\U{1F}')
    || c == '\U{85}' || c == '\U{A0}' || c == '\U{1680}'
    || ('\U{2000}' <= c <= '\U{200A}') || c == '\U{2028}' || c == '\U{2029}'
    || c == '\U{202F}' || c == '\U{205F}' || c == '\U{3000}'
  }

  predicate IsPrefix(p: string, s: string) {
    |p| <= |s| && s[..|p|] == p
  }

  predicate IsSuffix(p: string, s: string) {
    |p| <= |s| && s[|s| - |p|..] == p
  }

  /** `sub` occurs in `s` starting at index `i`. */
  predicate OccursAt(s: string, sub: string, i: nat) {
    i + |sub| <= |s| && s[i..i + |sub|] == sub
  }

  // ---------------------------------------------------------------- strip

  /** Removes leading whitespace (str.lstrip()). */
  function TrimStart(s: string): (r: string)
    ensures IsSuffix(r, s)
    ensures r == [] || !IsSpace(r[0])
    ensures forall i :: 0 <= i < |s| - |r| ==> IsSpace(s[i])
  {
    if s != [] && IsSpace(s[0]) then TrimStart(s[1..]) else s
  }

  /** Removes trailing whitespace (str.rstrip()). */
  function TrimEnd(s: string): (r: string)
    ensures IsPrefix(r, s)
    ensures r == [] || !IsSpace(r[|r| - 1])
    ensures forall i :: |r| <= i < |s| ==> IsSpace(s[i])
  {
    if s != [] && IsSpace(s[|s| - 1]) then TrimEnd(s[..|s| - 1]) else s
  }

  /** Python's str.strip() with no argument. */
  function Strip(s: string): string {
    TrimEnd(TrimStart(s))
  }

  /** Leading whitespace only, cut from the front. */
  lemma {:induction false} TrimStartOfSpaces(w: string, s: string)
    requires forall i :: 0 <= i < |w| ==> IsSpace(w[i])
    ensures TrimStart(w + s) == TrimStart(s)
  {
    if w != [] {
      assert (w + s)[0] == w[0];
      assert (w + s)[1..] == w[1..] + s;
      TrimStartOfSpaces(w[1..], s);
    } else {
      assert w + s == s;
    }
  }

  lemma {:induction false} TrimEndOfSpaces(s: string, w: string)
    requires forall i :: 0 <= i < |w| ==> IsSpace(w[i])
    ensures TrimEnd(s + w) == TrimEnd(s)
  {
    if w != [] {
      assert (s + w)[|s + w| - 1] == w[|w| - 1];
      assert (s + w)[..|s + w| - 1] == s + w[..|w| - 1];
      TrimEndOfSpaces(s, w[..|w| - 1]);
    } else {
      assert s + w == s;
    }
  }

  lemma {:induction false} TrimStartAppendSpaces(s: string, w: string)
    requires forall i :: 0 <= i < |w| ==> IsSpace(w[i])
    ensures TrimStart(s + w) == if TrimStart(s) == [] then [] else TrimStart(s) + w
  {
    if s == [] {
      assert s + w == w + [];
      TrimStartOfSpaces(w, []);
    } else if IsSpace(s[0]) {
      assert (s + w)[0] == s[0];
      assert (s + w)[1..] == s[1..] + w;
      TrimStartAppendSpaces(s[1..], w);
    } else {
      assert (s + w)[0] == s[0];
    }
  }

  /** Stripping ignores whitespace that surrounds the text. */
  lemma {:induction false} StripIgnoresSurroundingSpace(w1: string, s: string, w2: string)
    requires forall i :: 0 <= i < |w1| ==> IsSpace(w1[i])
    requires forall i :: 0 <= i < |w2| ==> IsSpace(w2[i])
    ensures Strip(w1 + s + w2) == Strip(s)
  {
    assert w1 + s + w2 == w1 + (s + w2);
    TrimStartOfSpaces(w1, s + w2);
    TrimStartAppendSpaces(s, w2);
    if TrimStart(s) != [] {
      TrimEndOfSpaces(TrimStart(s), w2);
    }
  }

  lemma {:induction false} TrimStartIdempotent(s: string)
    ensures TrimStart(TrimStart(s)) == TrimStart(s)
  {
  }

  lemma {:induction false} TrimEndKeepsStart(s: string)
    requires s == [] || !IsSpace(s[0])
    ensures TrimEnd(s) == [] || !IsSpace(TrimEnd(s)[0])
  {
  }

  /** Stripping twice is stripping once. */
  lemma {:induction false} StripIdempotent(s: string)
    ensures Strip(Strip(s)) == Strip(s)
  {
    var r := Strip(s);
    TrimEndKeepsStart(TrimStart(s));
    assert r == [] || !IsSpace(r[0]);
    assert TrimStart(r) == r;
    assert r == [] || !IsSpace(r[|r| - 1]);
    assert TrimEnd(r) == r;
  }

  // ---------------------------------------------------------------- lower

  /** Python's str.lower() on one code point, for the Basic Latin, Latin-1,
      Latin Extended-A and Vietnamese (Latin Extended Additional) letters,
      except U+0130, which Python lowers to two code points ("i" and U+0307)
      and which is returned unchanged here. */
  function LowerChar(c: char): (d: char)
    ensures IsSpace(d) <==> IsSpace(c)
  {
    if 'A' <= c <= 'Z' then (c as int + 32) as char
    else if '\U{C0}' <= c <= '\U{DE}' && c != '\U{D7}' then (c as int + 32) as char
    else if (('\U{100}' <= c <= '\U{12F}') || ('\U{132}' <= c <= '\U{137}') || ('\U{14A}' <= c <= '\U{177}'))
      && c as int % 2 == 0 then (c as int + 1) as char
    else if (('\U{139}' <= c <= '\U{148}') || ('\U{179}' <= c <= '\U{17E}'))
      && c as int % 2 == 1 then (c as int + 1) as char
    else if c == '\U{178}' then '\U{FF}'
    else if c == '\U{1A0}' || c == '\U{1AF}' then (c as int + 1) as char
    else if '\U{1EA0}' <= c <= '\U{1EF9}' && c as int % 2 == 0 then (c as int + 1) as char
    else c
  }

  function Lower(s: string): (r: string)
    ensures |r| == |s|
    ensures forall i :: 0 <= i < |s| ==> r[i] == LowerChar(s[i])
  {
    seq(|s|, i requires 0 <= i < |s| => LowerChar(s[i]))
  }

  lemma {:induction false} LowerAppend(a: string, b: string)
    ensures Lower(a + b) == Lower(a) + Lower(b)
  {
    assert forall i :: 0 <= i < |a + b| ==> Lower(a + b)[i] == (Lower(a) + Lower(b))[i];
  }

  lemma LowerCharIdempotent(c: char)
    ensures LowerChar(LowerChar(c)) == LowerChar(c)
  {
  }

  /** Lower-casing twice is lower-casing once. */
  lemma LowerIdempotent(s: string)
    ensures Lower(Lower(s)) == Lower(s)
  {
    forall i | 0 <= i < |s| ensures Lower(Lower(s))[i] == Lower(s)[i] {
      LowerCharIdempotent(s[i]);
    }
  }

  /** Lower-casing keeps whitespace whitespace. */
  lemma LowerOfSpaces(w: string)
    requires forall i :: 0 <= i < |w| ==> IsSpace(w[i])
    ensures forall i :: 0 <= i < |Lower(w)| ==> IsSpace(Lower(w)[i])
  {
  }

  /** A slice of lower-cased text is already in lower case. */
  lemma LowerOfLowerSlice(s: string, a: nat, b: nat)
    requires a <= b <= |s|
    ensures Lower(Lower(s)[a..b]) == Lower(s)[a..b]
  {
    forall i | 0 <= i < b - a ensures Lower(Lower(s)[a..b])[i] == Lower(s)[a..b][i] {
      LowerCharIdempotent(s[a + i]);
    }
  }

  // ---------------------------------------------------------------- split

  /** The longest prefix of `s` that holds no whitespace. */
  function WordPrefix(s: string): (w: string)
    ensures IsPrefix(w, s)
    ensures forall i :: 0 <= i < |w| ==> !IsSpace(w[i])
    ensures |w| == |s| || IsSpace(s[|w|])
  {
    if s == [] || IsSpace(s[0]) then [] else [s[0]] + WordPrefix(s[1..])
  }

  predicate IsWord(w: string) {
    w != [] && forall i :: 0 <= i < |w| ==> !IsSpace(w[i])
  }

  /** Python's str.split() with no separator: the maximal runs of
      non-whitespace characters, in order. */
  function Words(s: string): (ws: seq<string>)
    ensures forall k :: 0 <= k < |ws| ==> IsWord(ws[k])
    ensures ws == [] <==> forall i :: 0 <= i < |s| ==> IsSpace(s[i])
    decreases |s|
  {
    var t := TrimStart(s);
    if t == [] then []
    else
      assert s[|s| - |t|] == t[0];
      var w := WordPrefix(t);
      WordPrefixNonEmpty(t);
      assert |t[|w|..]| < |s|;
      var rest := Words(t[|w|..]);
      ConsWords(w, rest);
      [w] + rest
  }

  lemma ConsWords(w: string, rest: seq<string>)
    requires IsWord(w) && forall k :: 0 <= k < |rest| ==> IsWord(rest[k])
    ensures forall k :: 0 <= k < |[w] + rest| ==> IsWord(([w] + rest)[k])
  {
  }

  lemma WordPrefixNonEmpty(t: string)
    requires t != [] && !IsSpace(t[0])
    ensures IsWord(WordPrefix(t))
  {
    assert WordPrefix(t) == [t[0]] + WordPrefix(t[1..]);
  }

  /** Python's sep.join(ws). */
  function Join(ws: seq<string>, sep: string): string {
    if ws == [] then ""
    else if |ws| == 1 then ws[0]
    else ws[0] + sep + Join(ws[1..], sep)
  }

  /** A join ends with its last part. */
  lemma {:induction false} JoinEndsWithLast(ws: seq<string>, sep: string)
    requires ws != []
    ensures IsSuffix(ws[|ws| - 1], Join(ws, sep))
  {
    if |ws| > 1 {
      JoinEndsWithLast(ws[1..], sep);
      var j := Join(ws[1..], sep);
      var last := ws[|ws| - 1];
      assert ws[1..][|ws| - 2] == last;
      var s := ws[0] + sep + j;
      assert s[|s| - |last|..] == j[|j| - |last|..];
    }
  }

  lemma {:induction false} WordPrefixOfWord(w: string, rest: string)
    requires IsWord(w)
    requires rest == [] || IsSpace(rest[0])
    ensures WordPrefix(w + rest) == w
  {
    if |w| > 1 {
      assert (w + rest)[1..] == w[1..] + rest;
      WordPrefixOfWord(w[1..], rest);
    } else {
      assert (w + rest)[1..] == rest;
    }
  }

  /** Splitting words joined by single spaces gives the words back. */
  lemma {:induction false} WordsOfJoin(ws: seq<string>)
    requires forall k :: 0 <= k < |ws| ==> IsWord(ws[k])
    ensures Words(Join(ws, " ")) == ws
  {
    if ws == [] {
    } else if |ws| == 1 {
      var w := ws[0];
      assert TrimStart(w) == w;
      WordPrefixOfWord(w, []);
      assert w + [] == w;
      assert w[|w|..] == [];
    } else {
      var w := ws[0];
      var rest := Join(ws[1..], " ");
      var s := w + " " + rest;
      assert s == w + (" " + rest);
      assert TrimStart(s) == s;
      WordPrefixOfWord(w, " " + rest);
      assert s[|w|..] == " " + rest;
      assert TrimStart(" " + rest) == TrimStart(rest);
      WordsOfJoin(ws[1..]);
      assert Words(s[|w|..]) == Words(rest) by {
        assert TrimStart(s[|w|..]) == TrimStart(rest);
      }
    }
  }

  // ---------------------------------------------------------------- search

  datatype Found = NotFound | FoundAt(index: nat)

  /** The first index at or after `from` where `sub` occurs in `s`. */
  function Find(s: string, sub: string, from: nat): (r: Found)
    ensures r.FoundAt? ==> from <= r.index && OccursAt(s, sub, r.index)
    ensures r.FoundAt? ==> forall j :: from <= j < r.index ==> !OccursAt(s, sub, j)
    ensures r.NotFound? ==> forall j :: from <= j ==> !OccursAt(s, sub, j)
    decreases |s| + 1 - from
  {
    if from + |sub| > |s| then NotFound
    else if s[from..from + |sub|] == sub then FoundAt(from)
    else Find(s, sub, from + 1)
  }

  /** Python's `sub in s`. */
  predicate Contains(s: string, sub: string)
    ensures Contains(s, sub) <==> exists i :: OccursAt(s, sub, i)
  {
    Find(s, sub, 0).FoundAt?
  }

  /** A slice of a text that does not contain `sub` does not contain it either. */
  lemma {:induction false} SliceAvoids(s: string, sub: string, a: nat, b: nat)
    requires a <= b <= |s|
    requires !Contains(s, sub)
    ensures !Contains(s[a..b], sub)
  {
    forall j: nat | OccursAt(s[a..b], sub, j) ensures OccursAt(s, sub, a + j) {
      var t := s[a..b];
      assert j + |sub| <= |t|;
      forall m | 0 <= m < |sub| ensures s[a + j + m] == sub[m] {
        assert t[j + m] == sub[m];
        assert t[j + m] == s[a + j + m];
      }
      assert s[a + j..a + j + |sub|] == sub;
    }
  }

  /** Stripping keeps a contiguous slice of the text. */
  lemma StripIsSlice(s: string)
    ensures |s| - |TrimStart(s)| + |Strip(s)| <= |s|
    ensures Strip(s) == s[|s| - |TrimStart(s)|..|s| - |TrimStart(s)| + |Strip(s)|]
  {
    SuffixPrefixSlice(s, TrimStart(s), Strip(s));
  }

  /** A text that does not end in whitespace does not end in a newline. */
  lemma NoTrailingNewline(m: string)
    requires m == [] || !IsSpace(m[|m| - 1])
    ensures m == [] || m[|m| - 1] != '\n'
  {
  }

  /** Stripping a text that does not contain `sub` leaves a text without it. */
  lemma StripAvoids(d: string, sub: string)
    requires !Contains(d, sub)
    ensures !Contains(Strip(d), sub)
  {
    var t := TrimStart(d);
    SuffixAvoids(d, t, sub);
    PrefixAvoids(t, TrimEnd(t), sub);
  }

  lemma SuffixAvoids(s: string, t: string, sub: string)
    requires IsSuffix(t, s) && !Contains(s, sub)
    ensures !Contains(t, sub)
  {
    SliceAvoids(s, sub, |s| - |t|, |s|);
    assert s[|s| - |t|..|s|] == t;
  }

  lemma PrefixAvoids(s: string, t: string, sub: string)
    requires IsPrefix(t, s) && !Contains(s, sub)
    ensures !Contains(t, sub)
  {
    SliceAvoids(s, sub, 0, |t|);
    assert s[0..|t|] == t;
  }

  /** A prefix of a suffix of a text is a slice of it. */
  lemma SuffixPrefixSlice(s: string, t: string, r: string)
    requires IsSuffix(t, s) && IsPrefix(r, t)
    ensures |s| - |t| + |r| <= |s|
    ensures r == s[|s| - |t|..|s| - |t| + |r|]
  {
    assert s[|s| - |t|..][..|r|] == s[|s| - |t|..|s| - |t| + |r|];
  }

  // ---------------------------------------------------------------- str(int)

  function DigitChar(d: nat): char
    requires d < 10
  {
    "0123456789"[d]
  }

  function DigitValue(c: char): int {
    if '0' <= c <= '9' then c as int - '0' as int else -1
  }

  /** Python's str(n) for a non-negative integer. */
  function DecimalString(n: nat): (r: string)
    ensures |r| >= 1
  {
    if n < 10 then [DigitChar(n)] else DecimalString(n / 10) + [DigitChar(n % 10)]
  }

  /** Reads a run of decimal digits (the inverse of DecimalString). */
  function ParseDecimal(s: string): int
    decreases |s|
  {
    if s == [] then 0
    else
      var d := DigitValue(s[|s| - 1]);
      if d < 0 || (|s| > 1 && ParseDecimal(s[..|s| - 1]) < 0) then -1
      else if |s| == 1 then d
      else ParseDecimal(s[..|s| - 1]) * 10 + d
  }

  /** str(n) can be read back as n. */
  lemma {:induction false} DecimalRoundTrip(n: nat)
    ensures ParseDecimal(DecimalString(n)) == n
  {
    if n < 10 {
      assert DigitValue(DigitChar(n)) == n;
    } else {
      var s := DecimalString(n);
      assert s[..|s| - 1] == DecimalString(n / 10);
      assert DigitValue(DigitChar(n % 10)) == n % 10;
      DecimalRoundTrip(n / 10);
    }
  }
}
