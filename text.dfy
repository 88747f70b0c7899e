/** The Python string built-ins the core relies on: `str.isspace` (and the
    `\s` class of `re`), `str.strip`, `str.split()`, `str.lower`, `str.isalpha`,
    the substring test `needle in hay` and `sep.join(parts)`. Letters and
    digits are the ASCII ones; whitespace is the full set `str.isspace`
    accepts. */
module Text {

  /** A character `str.isspace` accepts, which is also what `\s` matches. */
  predicate IsSpace(c: char) {
    var n := c as int;
    n == 0x20 || 0x09 <= n <= 0x0d || 0x1c <= n <= 0x1f || n == 0x85 || n == 0xa0
    || n == 0x1680 || 0x2000 <= n <= 0x200a || n == 0x2028 || n == 0x2029
    || n == 0x202f || n == 0x205f || n == 0x3000
  }

  predicate IsAsciiLetter(c: char) {
    'a' <= c <= 'z' || 'A' <= c <= 'Z'
  }

  /** A character of the regular-expression class `\w`. */
  predicate IsWordChar(c: char) {
    IsAsciiLetter(c) || '0' <= c <= '9' || c == '_'
  }

  /** Every character of `s` is a letter. */
  predicate AllLetters(s: string) {
    s == [] || (IsAsciiLetter(s[0]) && AllLetters(s[1..]))
  }

  /** `s.isalpha()`: non-empty and made of letters only. */
  predicate IsAlpha(s: string) {
    |s| > 0 && AllLetters(s)
  }

  function LowerChar(c: char): (d: char)
    ensures !('A' <= d <= 'Z')
  {
    if 'A' <= c <= 'Z' then (c as int + 32) as char else c
  }

  /** `s.lower()`. */
  function Lower(s: string): (r: string)
    ensures |r| == |s|
    ensures forall i :: 0 <= i < |s| ==> r[i] == LowerChar(s[i])
  {
    seq(|s|, i requires 0 <= i < |s| => LowerChar(s[i]))
  }

  /** Lower-casing works character by character, so it distributes over
      concatenation. */
  lemma LowerAppend(a: string, b: string)
    ensures Lower(a + b) == Lower(a) + Lower(b)
  {
    assert forall i :: 0 <= i < |a + b| ==> Lower(a + b)[i] == (Lower(a) + Lower(b))[i];
  }

  /** How many whitespace characters `s.lstrip()` removes. */
  function LeadingSpaces(s: string): (n: nat)
    ensures n <= |s|
    ensures forall i :: 0 <= i < n ==> IsSpace(s[i])
    ensures n == |s| || !IsSpace(s[n])
  {
    if s != [] && IsSpace(s[0]) then
      var n := 1 + LeadingSpaces(s[1..]);
      assert forall i :: 1 <= i < n ==> s[i] == s[1..][i - 1];
      n
    else 0
  }

  /** `s.lstrip()`: the suffix left once leading whitespace is gone. */
  function TrimStart(s: string): (r: string)
    ensures |r| <= |s| && r == s[|s| - |r|..]
    ensures r == [] || !IsSpace(r[0])
    ensures forall i :: 0 <= i < |s| - |r| ==> IsSpace(s[i])
  {
    s[LeadingSpaces(s)..]
  }

  /** `s.rstrip()`: the prefix left once trailing whitespace is gone. */
  function TrimEnd(s: string): (r: string)
    ensures |r| <= |s| && r == s[..|r|]
    ensures r == [] || !IsSpace(r[|r| - 1])
    ensures forall i :: |r| <= i < |s| ==> IsSpace(s[i])
  {
    if s != [] && IsSpace(s[|s| - 1]) then TrimEnd(s[..|s| - 1]) else s
  }

  /** `s.strip()`: the piece of `s` after its leading whitespace that neither
      starts nor ends with whitespace; empty exactly when `s` is all
      whitespace. */
  function Strip(s: string): (r: string)
    ensures LeadingSpaces(s) + |r| <= |s| && r == s[LeadingSpaces(s)..LeadingSpaces(s) + |r|]
    ensures r == [] || (!IsSpace(r[0]) && !IsSpace(r[|r| - 1]))
    ensures r == [] <==> forall i :: 0 <= i < |s| ==> IsSpace(s[i])
    ensures forall i :: LeadingSpaces(s) + |r| <= i < |s| ==> IsSpace(s[i])
  {
    var t := TrimStart(s);
    var r := TrimEnd(t);
    r
  }

  /** Character i of the stripped text is the character of the text right
      after the leading whitespace and i more. */
  lemma StripCharacters(s: string)
    ensures forall i :: 0 <= i < |Strip(s)| ==> Strip(s)[i] == s[LeadingSpaces(s) + i]
  {
    var r := Strip(s);
    var start := LeadingSpaces(s);
    assert r == s[start..start + |r|];
  }

  /** Stripping text that neither starts nor ends with whitespace changes
      nothing. */
  lemma StripTrimmed(s: string)
    requires s == [] || (!IsSpace(s[0]) && !IsSpace(s[|s| - 1]))
    ensures Strip(s) == s
  {
    assert TrimStart(s) == s;
  }

  /** The longest prefix of `s` free of whitespace. */
  function WordPrefix(s: string): (w: string)
    ensures |w| <= |s| && w == s[..|w|]
    ensures forall i :: 0 <= i < |w| ==> !IsSpace(w[i])
    ensures |w| == |s| || IsSpace(s[|w|])
    ensures s != [] && !IsSpace(s[0]) ==> |w| > 0
  {
    if s == [] || IsSpace(s[0]) then [] else [s[0]] + WordPrefix(s[1..])
  }

  /** A run of non-whitespace followed by whitespace or nothing is the
      longest whitespace-free prefix. */
  lemma {:induction false} WordPrefixOfRun(w: string, rest: string)
    requires forall i :: 0 <= i < |w| ==> !IsSpace(w[i])
    requires rest == [] || IsSpace(rest[0])
    ensures WordPrefix(w + rest) == w
  {
    if w != [] {
      assert (w + rest)[1..] == w[1..] + rest;
      WordPrefixOfRun(w[1..], rest);
    } else {
      assert w + rest == rest;
    }
  }

  /** A non-empty run of non-whitespace characters. */
  predicate IsWord(w: string) {
    w != [] && forall i :: 0 <= i < |w| ==> !IsSpace(w[i])
  }

  /** `s.lstrip()` is empty exactly when `s` is all whitespace. */
  lemma TrimStartEmpty(s: string)
    ensures TrimStart(s) == [] <==> forall i :: 0 <= i < |s| ==> IsSpace(s[i])
  {
    var t := TrimStart(s);
    if t != [] {
      assert s[|s| - |t|] == t[0];
    }
  }

  /** `w` is the first word of `s`: it starts right after the leading
      whitespace and runs up to the next whitespace or the end. */
  predicate IsFirstWord(w: string, s: string) {
    var start := LeadingSpaces(s);
    && IsWord(w)
    && start + |w| <= |s| && w == s[start..start + |w|]
    && (start + |w| == |s| || IsSpace(s[start + |w|]))
  }

  /** The whitespace-free run after the leading whitespace is the first
      word. */
  lemma FirstWordPlace(s: string)
    requires TrimStart(s) != []
    ensures IsFirstWord(WordPrefix(TrimStart(s)), s)
  {
    FirstWordSlice(s);
    FirstWordEnd(s);
  }

  lemma FirstWordSlice(s: string)
    requires TrimStart(s) != []
    ensures var w := WordPrefix(TrimStart(s));
      var start := LeadingSpaces(s);
      start + |w| <= |s| && w == s[start..start + |w|]
  {
    var t := TrimStart(s);
    var w := WordPrefix(t);
    var start := LeadingSpaces(s);
    assert t == s[start..];
    assert w == t[..|w|];
    assert s[start..start + |w|] == t[..|w|];
  }

  lemma FirstWordEnd(s: string)
    requires TrimStart(s) != []
    ensures var w := WordPrefix(TrimStart(s));
      var start := LeadingSpaces(s);
      start + |w| <= |s| && (start + |w| == |s| || IsSpace(s[start + |w|]))
  {
    var t := TrimStart(s);
    var w := WordPrefix(t);
    var start := LeadingSpaces(s);
    assert t == s[start..];
    if start + |w| < |s| {
      assert s[start + |w|] == t[|w|];
    }
  }


  /** `s.split()` with no separator: the maximal runs of non-whitespace. */
  function Words(s: string): seq<string>
    decreases |s|
  {
    if s == [] then []
    else if IsSpace(s[0]) then Words(s[1..])
    else
      var w := WordPrefix(s);
      [w] + Words(s[|w|..])
  }

  /** Every element of `s.split()` is a non-empty run without whitespace. */
  lemma {:induction false} WordsAreWords(s: string)
    ensures forall k :: 0 <= k < |Words(s)| ==> IsWord(Words(s)[k])
    decreases |s|
  {
    if s != [] {
      if IsSpace(s[0]) {
        WordsAreWords(s[1..]);
      } else {
        var w := WordPrefix(s);
        WordsAreWords(s[|w|..]);
        assert IsWord(w);
      }
    }
  }

  /** The first of the words is the whitespace-free run after the leading
      whitespace. */
  lemma {:induction false} WordsHead(s: string)
    ensures Words(s) == [] <==> TrimStart(s) == []
    ensures Words(s) != [] ==> Words(s)[0] == WordPrefix(TrimStart(s))
    decreases |s|
  {
    if s != [] && IsSpace(s[0]) {
      WordsHead(s[1..]);
    }
  }

  /** A text cut where whitespace begins or ends: at either end, after
      whitespace or before whitespace. */
  predicate CutAtSpace(a: string, b: string) {
    a == [] || b == [] || IsSpace(a[|a| - 1]) || IsSpace(b[0])
  }

  /** Splitting a text where whitespace begins or ends splits its words:
      no word straddles the cut. */
  lemma {:induction false} WordsAppend(a: string, b: string)
    requires CutAtSpace(a, b)
    ensures Words(a + b) == Words(a) + Words(b)
    decreases |a|, 1
  {
    if a == [] {
      assert a + b == b;
    } else if IsSpace(a[0]) {
      WordsAppendAfterSpace(a, b);
    } else {
      WordsAppendAfterRun(a, b);
    }
  }

  /** `WordsAppend` for a text that starts with whitespace. */
  lemma {:induction false} WordsAppendAfterSpace(a: string, b: string)
    requires a != [] && IsSpace(a[0]) && CutAtSpace(a, b)
    ensures Words(a + b) == Words(a) + Words(b)
    decreases |a|, 0
  {
    WordsSpaceStep(a, b);
    WordsAppend(a[1..], b);
  }

  /** `WordsAppend` for a text that starts with a run of non-whitespace. */
  lemma {:induction false} WordsAppendAfterRun(a: string, b: string)
    requires a != [] && !IsSpace(a[0]) && CutAtSpace(a, b)
    ensures Words(a + b) == Words(a) + Words(b)
    decreases |a|, 0
  {
    WordsRunStep(a, b);
    WordsAppend(a[|WordPrefix(a)|..], b);
  }

  /** Leading whitespace is skipped, before and after appending. */
  lemma WordsSpaceStep(a: string, b: string)
    requires a != [] && IsSpace(a[0]) && CutAtSpace(a, b)
    ensures Words(a + b) == Words(a[1..] + b) && Words(a) == Words(a[1..])
    ensures CutAtSpace(a[1..], b)
  {
    assert (a + b)[1..] == a[1..] + b;
    if a[1..] != [] {
      assert a[1..][|a[1..]| - 1] == a[|a| - 1];
    }
  }

  /** A leading run is the first word, before and after appending. */
  lemma WordsRunStep(a: string, b: string)
    requires a != [] && !IsSpace(a[0]) && CutAtSpace(a, b)
    ensures Words(a + b) == [WordPrefix(a)] + Words(a[|WordPrefix(a)|..] + b)
    ensures CutAtSpace(a[|WordPrefix(a)|..], b)
  {
    var w := WordPrefix(a);
    var rest := a[|w|..];
    WordStartsBeforeSpace(a, b);
    assert (a + b)[|w|..] == rest + b;
    if rest != [] {
      assert rest[|rest| - 1] == a[|a| - 1];
    }
  }

  /** The first run of a text that starts with non-whitespace stays the
      first run when text follows after a cut at whitespace. */
  lemma WordStartsBeforeSpace(a: string, b: string)
    requires a != [] && !IsSpace(a[0]) && CutAtSpace(a, b)
    ensures WordPrefix(a + b) == WordPrefix(a)
  {
    var w := WordPrefix(a);
    var rest := a[|w|..];
    assert a + b == w + (rest + b);
    if rest == [] {
      assert w == a;
    }
    WordPrefixOfRun(w, rest + b);
  }

  /** Whitespace alone holds no words. */
  lemma {:induction false} WordsOfSpaces(s: string)
    requires forall i :: 0 <= i < |s| ==> IsSpace(s[i])
    ensures Words(s) == []
    decreases |s|
  {
    if s != [] {
      WordsOfSpaces(s[1..]);
    }
  }

  /** A single run of non-whitespace is one word. */
  lemma WordsOfWord(w: string)
    requires IsWord(w)
    ensures Words(w) == [w]
  {
    WordPrefixOfRun(w, []);
    assert w + [] == w;
    assert w[|w|..] == [];
  }

  /** Leading whitespace holds no words. */
  lemma WordsAfterLeadingSpaces(s: string)
    ensures Words(TrimStart(s)) == Words(s)
  {
    var n := LeadingSpaces(s);
    assert s == s[..n] + s[n..];
    WordsOfSpaces(s[..n]);
    WordsAppend(s[..n], s[n..]);
  }

  /** Stripping keeps the words. */
  lemma WordsOfStrip(s: string)
    ensures Words(Strip(s)) == Words(s)
  {
    WordsAfterLeadingSpaces(s);
    WordsBeforeTrailingSpaces(TrimStart(s));
  }

  /** Trailing whitespace holds no words. */
  lemma WordsBeforeTrailingSpaces(s: string)
    ensures Words(TrimEnd(s)) == Words(s)
  {
    var r := TrimEnd(s);
    assert s == r + s[|r|..];
    TextThenSpaces(r, s[|r|..]);
  }

  /** Whitespace in front of a text adds no words. */
  lemma SpacesThenText(p: string, x: string)
    requires forall i :: 0 <= i < |p| ==> IsSpace(p[i])
    ensures Words(p + x) == Words(x)
  {
    WordsOfSpaces(p);
    WordsAppend(p, x);
  }

  /** Whitespace after a text adds no words. */
  lemma TextThenSpaces(x: string, p: string)
    requires forall i :: 0 <= i < |p| ==> IsSpace(p[i])
    ensures Words(x + p) == Words(x)
  {
    WordsOfSpaces(p);
    WordsAppend(x, p);
    assert Words(x) + [] == Words(x);
  }

  /** `needle in hay` for two strings. */
  predicate Contains(hay: string, needle: string)
    decreases |hay|
  {
    needle <= hay || (hay != [] && Contains(hay[1..], needle))
  }

  /** `needle` occurs in `hay` starting at position `i`. */
  predicate FoundAt(hay: string, needle: string, i: int) {
    0 <= i && i + |needle| <= |hay| && hay[i..i + |needle|] == needle
  }

  /** `needle in hay` holds exactly when the needle occurs at some position
      of the hay. */
  lemma {:induction false} ContainsIffFound(hay: string, needle: string)
    ensures Contains(hay, needle) <==> exists i :: FoundAt(hay, needle, i)
    decreases |hay|
  {
    if exists i :: FoundAt(hay, needle, i) {
      var i :| FoundAt(hay, needle, i);
      ContainsAt(hay, needle, i);
    }
    if Contains(hay, needle) {
      if needle <= hay {
        assert hay[0..|needle|] == needle;
        assert FoundAt(hay, needle, 0);
      } else {
        ContainsIffFound(hay[1..], needle);
        var i :| FoundAt(hay[1..], needle, i);
        assert hay[i + 1..i + 1 + |needle|] == hay[1..][i..i + |needle|];
        assert FoundAt(hay, needle, i + 1);
      }
    }
  }

  /** A needle found at position `i` is contained. */
  lemma {:induction false} ContainsAt(hay: string, needle: string, i: nat)
    requires i + |needle| <= |hay| && hay[i..i + |needle|] == needle
    ensures Contains(hay, needle)
  {
    if i > 0 {
      assert hay[1..][i - 1..i - 1 + |needle|] == hay[i..i + |needle|];
      ContainsAt(hay[1..], needle, i - 1);
    } else {
      assert needle == hay[..|needle|];
    }
  }

  /** No string contains a longer one. */
  lemma {:induction false} ShorterCannotContain(hay: string, needle: string)
    requires |hay| < |needle|
    ensures !Contains(hay, needle)
  {
    if hay != [] {
      ShorterCannotContain(hay[1..], needle);
    }
  }

  /** `sep.join(parts)`. */
  function Join(parts: seq<string>, sep: string): string
  {
    if |parts| == 0 then []
    else if |parts| == 1 then parts[0]
    else parts[0] + sep + Join(parts[1..], sep)
  }
}
