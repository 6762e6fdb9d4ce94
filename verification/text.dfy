/** String helpers the plugins rely on: `toUpperCase()` comparisons against
    upper-case words, case-insensitive regular-expression searches for a
    literal tag, and `split(",")`. Case folding is ASCII-only. */
module Text {

  /** Upper-case of one character; only the ASCII letters a-z change. */
  function UpperChar(c: char): char {
    if 'a' <= c <= 'z' then (c as int - 32) as char else c
  }

  /** Lower-case partner of an upper-case ASCII letter. */
  function LowerChar(c: char): char {
    if 'A' <= c <= 'Z' then (c as int + 32) as char else c
  }

  function Upper(s: string): (r: string)
    ensures |r| == |s|
    ensures forall i :: 0 <= i < |s| ==> r[i] == UpperChar(s[i])
  {
    seq(|s|, i requires 0 <= i < |s| => UpperChar(s[i]))
  }

  /** A word made of upper-case ASCII letters only, such as "ON" or "FALSE". */
  ghost predicate IsUpperWord(w: string) {
    forall i :: 0 <= i < |w| ==> 'A' <= w[i] <= 'Z'
  }

  /** `s.toUpperCase() === w` for an upper-case word `w` holds exactly when
      every character of `s` is the matching letter of `w` in either case. */
  lemma {:induction false} UpperEqualsWord(s: string, w: string)
    requires IsUpperWord(w)
    ensures Upper(s) == w <==>
      |s| == |w| && forall i :: 0 <= i < |s| ==> s[i] == w[i] || s[i] == LowerChar(w[i])
  {
    if |s| == |w| {
      if Upper(s) == w {
        forall i | 0 <= i < |s|
          ensures s[i] == w[i] || s[i] == LowerChar(w[i])
        {
          assert UpperChar(s[i]) == w[i];
        }
      }
      if forall i :: 0 <= i < |s| ==> s[i] == w[i] || s[i] == LowerChar(w[i]) {
        forall i | 0 <= i < |s|
          ensures Upper(s)[i] == w[i]
        {
          assert s[i] == w[i] || s[i] == LowerChar(w[i]);
        }
      }
    }
  }

  /** `pattern` occurs at position `i` of `text`, ignoring ASCII case. */
  ghost predicate OccursAt(text: string, pattern: string, i: int) {
    0 <= i && i + |pattern| <= |text| && Upper(text[i..i + |pattern|]) == Upper(pattern)
  }

  /** `text.match(/pattern/i)` for a pattern made of literal characters: whether
      the pattern occurs anywhere in `text` ignoring case. */
  function ContainsIgnoreCase(text: string, pattern: string): (r: bool)
    ensures r <==> exists i :: OccursAt(text, pattern, i)
  {
    SearchFrom(text, pattern, 0)
  }

  function SearchFrom(text: string, pattern: string, from: nat): (r: bool)
    ensures r <==> exists i :: from <= i && OccursAt(text, pattern, i)
    decreases |text| - from
  {
    if from + |pattern| > |text| then
      assert forall i :: from <= i ==> !OccursAt(text, pattern, i);
      false
    else if Upper(text[from..from + |pattern|]) == Upper(pattern) then
      assert OccursAt(text, pattern, from);
      true
    else
      SearchFrom(text, pattern, from + 1)
  }

  /** Index of the first occurrence of `c` in `s`. */
  function IndexOf(s: string, c: char): (i: nat)
    requires c in s
    ensures i < |s| && s[i] == c && c !in s[..i]
  {
    if s[0] == c then 0 else 1 + IndexOf(s[1..], c)
  }

  /** `parts.join(sep)`. */
  function Join(parts: seq<string>, sep: char): string
    requires |parts| >= 1
  {
    if |parts| == 1 then parts[0] else parts[0] + [sep] + Join(parts[1..], sep)
  }

  /** `s.split(sep)` for a one-character separator: never empty, no part holds
      the separator, and joining the parts gives `s` back. */
  function Split(s: string, sep: char): (parts: seq<string>)
    ensures |parts| >= 1
    ensures forall i :: 0 <= i < |parts| ==> sep !in parts[i]
    ensures Join(parts, sep) == s
    decreases |s|
  {
    if sep !in s then [s]
    else
      var i := IndexOf(s, sep);
      var rest := Split(s[i + 1..], sep);
      var parts := [s[..i]] + rest;
      assert parts[1..] == rest;
      assert s == s[..i] + [sep] + s[i + 1..];
      parts
  }
}
