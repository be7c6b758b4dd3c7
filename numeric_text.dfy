/**
 * The two text clean-ups that turn a scraped indicator into a decimal string:
 *  - the scrape clean-up `rawText.replace(/[$\r\n\s]+/g, "")`, which deletes
 *    every dollar sign, carriage return, line feed and white-space character;
 *  - the decimal normalisation `data.replace(/\./g, "").replace(",", ".")`,
 *    which deletes every thousands separator `.` and then turns the FIRST
 *    decimal comma (and only that one) into a decimal point.
 */
module NumericText {

  /** The characters matched by `\s` in an ECMAScript regular expression:
      WhiteSpace and LineTerminator, including U+FEFF. */
  predicate IsJsWhitespace(c: char)
  {
    c == '\t' || c == '\n' || c == '\U{000B}' || c == '\U{000C}' || c == '\r' || c == ' '
    || c == '\U{00A0}' || c == '\U{1680}' || ('\U{2000}' <= c <= '\U{200A}')
    || c == '\U{2028}' || c == '\U{2029}' || c == '\U{202F}' || c == '\U{205F}'
    || c == '\U{3000}' || c == '\U{FEFF}'
  }

  /** The character class `[$\r\n\s]` of the scrape clean-up. */
  predicate IsScrapeNoise(c: char)
  {
    c == '$' || c == '\r' || c == '\n' || IsJsWhitespace(c)
  }

  predicate IsDot(c: char)
  {
    c == '.'
  }

  predicate IsComma(c: char)
  {
    c == ','
  }

  /** Number of characters of `s` that satisfy `p`. */
  function Count(s: seq<char>, p: char -> bool): nat
  {
    if s == [] then 0 else (if p(s[0]) then 1 else 0) + Count(s[1..], p)
  }

  /** `s` with every character satisfying `drop` deleted, the rest kept in order
      (a global regular-expression replace by the empty string). */
  function Delete(s: seq<char>, drop: char -> bool): (r: seq<char>)
    ensures |r| <= |s|
    ensures forall i :: 0 <= i < |r| ==> !drop(r[i])
    ensures forall c :: c in r <==> c in s && !drop(c)
  {
    if s == [] then []
    else
      var rest := Delete(s[1..], drop);
      assert forall c :: c in s <==> c == s[0] || c in s[1..];
      if drop(s[0]) then rest else [s[0]] + rest
  }

  /** Index of the first `c` in `s`, or `|s|` when there is none (where
      JavaScript's `indexOf` answers -1). */
  function IndexOf(s: seq<char>, c: char): (k: nat)
    ensures k <= |s|
    ensures k < |s| ==> s[k] == c
    ensures forall j :: 0 <= j < k ==> s[j] != c
    ensures k == |s| <==> c !in s
  {
    if s == [] then 0
    else if s[0] == c then 0
    else 1 + IndexOf(s[1..], c)
  }

  /** `String.prototype.replace` with a one-character string pattern: only
      the first occurrence of `pat` is replaced by `rep`. */
  function ReplaceFirst(s: seq<char>, pat: char, rep: char): (r: seq<char>)
    ensures |r| == |s|
    ensures pat !in s ==> r == s
    ensures pat in s ==> r[IndexOf(s, pat)] == rep
    ensures forall j :: 0 <= j < |s| && j != IndexOf(s, pat) ==> r[j] == s[j]
  {
    var k := IndexOf(s, pat);
    if k == |s| then s else s[..k] + [rep] + s[k + 1..]
  }

  lemma {:induction false} CountAppend(a: seq<char>, b: seq<char>, p: char -> bool)
    ensures Count(a + b, p) == Count(a, p) + Count(b, p)
  {
    if a == [] {
      assert a + b == b;
    } else {
      assert (a + b)[1..] == a[1..] + b;
      CountAppend(a[1..], b, p);
    }
  }

  lemma {:induction false} CountNone(s: seq<char>, p: char -> bool)
    ensures Count(s, p) == 0 <==> forall i :: 0 <= i < |s| ==> !p(s[i])
  {
    if s != [] {
      CountNone(s[1..], p);
      assert forall i :: 1 <= i < |s| ==> s[i] == s[1..][i - 1];
    }
  }

  /** Deleting removes exactly the dropped characters: the length shrinks by
      their number. */
  lemma {:induction false} DeleteLength(s: seq<char>, drop: char -> bool)
    ensures |Delete(s, drop)| == |s| - Count(s, drop)
  {
    if s != [] {
      DeleteLength(s[1..], drop);
    }
  }

  /** Deleting distributes over concatenation; with `Delete([c])` being `[]`
      or `[c]` this pins `Delete` down: the input with exactly the dropped
      characters removed, order preserved. */
  lemma {:induction false} DeleteAppend(a: seq<char>, b: seq<char>, drop: char -> bool)
    ensures Delete(a + b, drop) == Delete(a, drop) + Delete(b, drop)
  {
    if a == [] {
      assert a + b == b;
    } else {
      assert (a + b)[1..] == a[1..] + b;
      DeleteAppend(a[1..], b, drop);
    }
  }

  /** A text with nothing to delete is left as it is. */
  lemma {:induction false} DeleteClean(s: seq<char>, drop: char -> bool)
    requires forall i :: 0 <= i < |s| ==> !drop(s[i])
    ensures Delete(s, drop) == s
  {
    if s != [] {
      assert forall i :: 1 <= i < |s| ==> s[i] == s[1..][i - 1];
      DeleteClean(s[1..], drop);
    }
  }

  lemma {:induction false} DeleteIdempotent(s: seq<char>, drop: char -> bool)
    ensures Delete(Delete(s, drop), drop) == Delete(s, drop)
  {
    DeleteClean(Delete(s, drop), drop);
  }

  /** Deleting leaves the number of characters of any other kind unchanged. */
  lemma {:induction false} DeleteKeepsCount(s: seq<char>, drop: char -> bool, keep: char -> bool)
    requires forall c :: keep(c) ==> !drop(c)
    ensures Count(Delete(s, drop), keep) == Count(s, keep)
  {
    if s != [] {
      DeleteKeepsCount(s[1..], drop, keep);
      if !drop(s[0]) {
        CountAppend([s[0]], Delete(s[1..], drop), keep);
      }
    }
  }

  /** The scrape clean-up at index.js:55 and index.js:73. */
  function ScrapeCleanup(s: seq<char>): (r: seq<char>)
    ensures forall i :: 0 <= i < |r| ==> !IsScrapeNoise(r[i])
    ensures |r| == |s| - Count(s, IsScrapeNoise)
  {
    DeleteLength(s, IsScrapeNoise);
    Delete(s, IsScrapeNoise)
  }

  lemma ScrapeCleanupIdempotent(s: seq<char>)
    ensures ScrapeCleanup(ScrapeCleanup(s)) == ScrapeCleanup(s)
  {
    DeleteIdempotent(s, IsScrapeNoise);
  }

  /** The decimal normalisation at index.js:101 and index.js:130. */
  function NormaliseDecimal(s: seq<char>): (r: seq<char>)
    ensures |r| == |s| - Count(s, IsDot)
    ensures Count(r, IsDot) <= 1
    ensures forall i :: 0 <= i < |r| && r[i] == '.' ==> i == IndexOf(Delete(s, IsDot), ',')
    ensures ',' !in s ==> r == Delete(s, IsDot)
    ensures ',' in s ==> Count(r, IsDot) == 1 && Count(r, IsComma) == Count(s, IsComma) - 1
    ensures forall i :: 0 <= i < |r| ==> r[i] == '.' || r[i] in s
    // every other position keeps the character of the dot-free input
    ensures |r| == |Delete(s, IsDot)|
    ensures forall j :: 0 <= j < |r| && j != IndexOf(Delete(s, IsDot), ',') ==> r[j] == Delete(s, IsDot)[j]
  {
    var d := Delete(s, IsDot);
    DeleteLength(s, IsDot);
    var r := ReplaceFirst(d, ',', '.');
    CountNone(d, IsDot);
    NormalisedShape(d, r);
    DeleteKeepsCount(s, IsDot, IsComma);
    r
  }

  /** Counting across one character spliced between two texts. */
  lemma CountSplice(pre: seq<char>, x: char, post: seq<char>, p: char -> bool)
    ensures Count(pre + [x] + post, p) == Count(pre, p) + (if p(x) then 1 else 0) + Count(post, p)
  {
    CountAppend(pre + [x], post, p);
    CountAppend(pre, [x], p);
    assert [x][1..] == [];
  }

  /** Replacing a comma by a dot between two dot-free texts. */
  lemma SpliceShape(pre: seq<char>, post: seq<char>)
    requires Count(pre, IsDot) == 0 && Count(post, IsDot) == 0
    ensures Count(pre + ['.'] + post, IsDot) == 1
    ensures Count(pre + ['.'] + post, IsComma) + 1 == Count(pre + [','] + post, IsComma)
  {
    CountSplice(pre, '.', post, IsDot);
    CountSplice(pre, ',', post, IsComma);
    CountSplice(pre, '.', post, IsComma);
  }

  /** A text with a comma, split at its first comma, before and after the
      first-comma replace. */
  lemma ReplaceFirstSplit(d: seq<char>, k: nat)
    requires k == IndexOf(d, ',') && k < |d|
    ensures d == d[..k] + [','] + d[k + 1..]
    ensures ReplaceFirst(d, ',', '.') == d[..k] + ['.'] + d[k + 1..]
  {
  }

  /** What the first-comma replace does to a text without dots. */
  lemma NormalisedShape(d: seq<char>, r: seq<char>)
    requires Count(d, IsDot) == 0
    requires r == ReplaceFirst(d, ',', '.')
    ensures Count(r, IsDot) <= 1
    ensures ',' in d ==> Count(r, IsDot) == 1 && Count(r, IsComma) == Count(d, IsComma) - 1
    ensures ',' !in d ==> Count(r, IsDot) == 0
  {
    var k := IndexOf(d, ',');
    if k < |d| {
      ReplaceFirstSplit(d, k);
      CountSplice(d[..k], ',', d[k + 1..], IsDot);
      SpliceShape(d[..k], d[k + 1..]);
    }
  }

  /** The value a route stores: the scraper's clean-up, then the route's
      decimal normalisation. It holds no scrape noise and at most one `.`. */
  function IndicatorText(raw: seq<char>): (r: seq<char>)
    ensures forall i :: 0 <= i < |r| ==> !IsScrapeNoise(r[i])
    ensures Count(r, IsDot) <= 1
  {
    NormaliseDecimal(ScrapeCleanup(raw))
  }
}
