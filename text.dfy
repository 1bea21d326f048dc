/**
 * String operations the two backends take from their languages' standard
 * libraries: prefix tests, ASCII lower-casing, splitting on a separator,
 * trimming white space, Python's `str.split()` and `str.replace`,
 * and decimal formatting of integers.
 */
module Text {
  import opened Wrappers

  /** JavaScript and Python truthiness of an optional string: present and not empty. */
  predicate Truthy(s: Option<string>) {
    s.Some? && s.value != ""
  }

  predicate StartsWith(s: string, prefix: string) {
    |prefix| <= |s| && s[..|prefix|] == prefix
  }

  /** `sub` occurs somewhere in `s` (JavaScript `includes`, Python `in`). */
  predicate Contains(s: string, sub: string)
    decreases |s|
  {
    StartsWith(s, sub) || (s != [] && Contains(s[1..], sub))
  }

  /** Removes `prefix` from the front of `s` when it is there. */
  function StripPrefix(s: string, prefix: string): (r: string)
    ensures StartsWith(s, prefix) ==> s == prefix + r
    ensures !StartsWith(s, prefix) ==> r == s
  {
    if StartsWith(s, prefix) then s[|prefix|..] else s
  }

  predicate IsUpperLetter(c: char) { 'A' <= c <= 'Z' }

  predicate IsLowerLetter(c: char) { 'a' <= c <= 'z' }

  function LowerChar(c: char): (d: char)
    ensures !IsUpperLetter(d)
    ensures !IsUpperLetter(c) ==> d == c
  {
    if IsUpperLetter(c) then (c as int + 32) as char else c
  }

  /** Lower-cases the ASCII letters and leaves every other character alone. */
  function AsciiLower(s: string): (r: string)
    ensures |r| == |s|
    ensures forall i :: 0 <= i < |s| ==> r[i] == LowerChar(s[i])
  {
    seq(|s|, i requires 0 <= i < |s| => LowerChar(s[i]))
  }

  predicate IsLowered(s: string) {
    forall i :: 0 <= i < |s| ==> !IsUpperLetter(s[i])
  }

  /** Lower-casing changes nothing in a string without upper-case letters. */
  lemma LoweredFixed(s: string)
    requires IsLowered(s)
    ensures AsciiLower(s) == s
  {
  }

  /** The longest prefix of `s` holding no character that satisfies `stop`. */
  function TakeUntil(s: string, stop: char -> bool): (r: string)
    ensures StartsWith(s, r)
    ensures forall i :: 0 <= i < |r| ==> !stop(r[i])
    ensures |r| < |s| ==> stop(s[|r|])
  {
    if s == [] || stop(s[0]) then [] else [s[0]] + TakeUntil(s[1..], stop)
  }

  /** When `p` holds no stop character and `c` is one, the prefix of `p + [c] + rest` is `p`. */
  lemma TakeUntilStopsAt(p: string, c: char, rest: string, stop: char -> bool)
    requires forall i :: 0 <= i < |p| ==> !stop(p[i])
    requires stop(c)
    ensures TakeUntil(p + [c] + rest, stop) == p
  {
    var s := p + [c] + rest;
    var r := TakeUntil(s, stop);
    assert forall i :: 0 <= i < |p| ==> s[i] == p[i];
    assert s[|p|] == c;
  }

  /** The longest stop-free prefix of `p + q` is `p` when `p` is stop-free and `q` is empty or starts with a stop. */
  lemma TakeUntilPrefix(p: string, q: string, stop: char -> bool)
    requires forall i :: 0 <= i < |p| ==> !stop(p[i])
    requires q == [] || stop(q[0])
    ensures TakeUntil(p + q, stop) == p
  {
    var s := p + q;
    var r := TakeUntil(s, stop);
    assert forall i :: 0 <= i < |p| ==> s[i] == p[i];
    assert q != [] ==> s[|p|] == q[0];
  }

  /** A stop-free `p` in front of `q` is kept whole, and the scan carries on into `q`. */
  lemma {:induction false} TakeUntilAppend(p: string, q: string, stop: char -> bool)
    requires forall i :: 0 <= i < |p| ==> !stop(p[i])
    ensures TakeUntil(p + q, stop) == p + TakeUntil(q, stop)
    decreases |p|
  {
    if p != [] {
      assert (p + q)[0] == p[0] && (p + q)[1..] == p[1..] + q;
      TakeUntilAppend(p[1..], q, stop);
      assert p == [p[0]] + p[1..];
    } else {
      assert p + q == q;
    }
  }

  /** A string without stop characters is its own longest prefix. */
  lemma TakeUntilAll(s: string, stop: char -> bool)
    requires forall i :: 0 <= i < |s| ==> !stop(s[i])
    ensures TakeUntil(s, stop) == s
  {
    var r := TakeUntil(s, stop);
  }

  /** The parts of `s` between occurrences of `sep`: JavaScript and Python `split(sep)`. */
  function Split(s: string, sep: char): (parts: seq<string>)
    ensures |parts| >= 1
    ensures forall i :: 0 <= i < |parts| ==> sep !in parts[i]
    ensures Join(parts, sep) == s
    decreases |s|
  {
    var head := TakeUntil(s, c => c == sep);
    if |head| == |s| then
      assert head == s;
      [s]
    else
      var tail := Split(s[|head| + 1..], sep);
      assert s == head + [sep] + s[|head| + 1..];
      [head] + tail
  }

  /** `parts` glued together with `sep` between neighbours (`parts.join(sep)`). */
  function Join(parts: seq<string>, sep: char): string {
    if |parts| == 0 then ""
    else if |parts| == 1 then parts[0]
    else parts[0] + [sep] + Join(parts[1..], sep)
  }

  /** Splitting undoes joining whenever no part holds the separator. */
  lemma {:induction false} SplitJoin(parts: seq<string>, sep: char)
    requires |parts| >= 1
    requires forall i :: 0 <= i < |parts| ==> sep !in parts[i]
    ensures Split(Join(parts, sep), sep) == parts
    decreases |parts|
  {
    var stop := c => c == sep;
    if |parts| == 1 {
      TakeUntilAll(parts[0], stop);
    } else {
      var rest := Join(parts[1..], sep);
      TakeUntilStopsAt(parts[0], sep, rest, stop);
      assert (parts[0] + [sep] + rest)[|parts[0]| + 1..] == rest;
      SplitJoin(parts[1..], sep);
      assert parts == [parts[0]] + parts[1..];
    }
  }

  /** White space as `String.prototype.trim` and Python's `str.strip()` see it (ASCII part). */
  predicate IsSpace(c: char) {
    // tab, line feed, vertical tab, form feed, carriage return (9 to 13) and the space (32)
    9 <= c as int <= 13 || c == ' '
  }

  predicate AllSpace(s: string) {
    forall i :: 0 <= i < |s| ==> IsSpace(s[i])
  }

  function TrimStart(s: string): (r: string)
    ensures |r| <= |s| && r == s[|s| - |r|..]
    ensures AllSpace(s[..|s| - |r|])
    ensures r == [] || !IsSpace(r[0])
  {
    if s != [] && IsSpace(s[0]) then
      var r := TrimStart(s[1..]);
      TrimStartStep(s, r);
      r
    else s
  }

  lemma TrimStartStep(s: string, r: string)
    requires s != [] && IsSpace(s[0])
    requires |r| <= |s| - 1 && r == s[1..][|s| - 1 - |r|..] && AllSpace(s[1..][..|s| - 1 - |r|])
    ensures r == s[|s| - |r|..] && AllSpace(s[..|s| - |r|])
  {
    assert s[..|s| - |r|] == [s[0]] + s[1..][..|s| - 1 - |r|];
  }

  function TrimEnd(s: string): (r: string)
    ensures |r| <= |s| && r == s[..|r|]
    ensures AllSpace(s[|r|..])
    ensures r == [] || !IsSpace(r[|r| - 1])
  {
    if s != [] && IsSpace(s[|s| - 1]) then TrimEnd(s[..|s| - 1]) else s
  }

  /** `r` is `s` with a run of white space taken off each end. */
  predicate TrimmedFrom(s: string, r: string) {
    exists i :: 0 <= i <= |s| - |r| && r == s[i..i + |r|] && AllSpace(s[..i]) && AllSpace(s[i + |r|..])
  }

  /** `s` without leading and trailing white space (`trim()`, `strip()`). */
  function Trim(s: string): (r: string)
    ensures r == [] || (!IsSpace(r[0]) && !IsSpace(r[|r| - 1]))
    ensures TrimmedFrom(s, r)
  {
    var t := TrimStart(s);
    TrimmedFromParts(s, t, TrimEnd(t));
    TrimEnd(t)
  }

  /** A space-free suffix `t` of `s` whose prefix `r` leaves only space behind is `s` trimmed. */
  lemma {:induction false} TrimmedFromParts(s: string, t: string, r: string)
    requires |t| <= |s| && t == s[|s| - |t|..] && AllSpace(s[..|s| - |t|])
    requires |r| <= |t| && r == t[..|r|] && AllSpace(t[|r|..])
    ensures TrimmedFrom(s, r)
  {
    var i := |s| - |t|;
    assert r == s[i..i + |r|];
    assert s[i + |r|..] == t[|r|..];
  }

  /** A non-empty run of non-space characters. */
  predicate IsWord(w: string) {
    w != [] && forall i :: 0 <= i < |w| ==> !IsSpace(w[i])
  }

  /** Python's `str.split()`: the maximal runs of non-space characters, in order. */
  function SplitWords(s: string): (words: seq<string>)
    ensures forall k :: 0 <= k < |words| ==> IsWord(words[k])
    decreases |s|
  {
    var t := TrimStart(s);
    if t == [] then []
    else
      var w := LeadingWord(t);
      [w] + SplitWords(t[|w|..])
  }

  /** The non-space characters at the front of `s`, up to the first space. */
  function LeadingWord(s: string): (w: string)
    ensures |w| <= |s| && w == s[..|w|]
    ensures forall i :: 0 <= i < |w| ==> !IsSpace(w[i])
    ensures s != [] && !IsSpace(s[0]) ==> w != []
  {
    if s == [] || IsSpace(s[0]) then [] else [s[0]] + LeadingWord(s[1..])
  }

  /** `' '.join(words)`. */
  function JoinWords(words: seq<string>): string {
    Join(words, ' ')
  }

  /** A word followed by nothing or by a space is read whole. */
  lemma {:induction false} LeadingWordOf(w: string, rest: string)
    requires forall i :: 0 <= i < |w| ==> !IsSpace(w[i])
    requires rest == [] || IsSpace(rest[0])
    ensures LeadingWord(w + rest) == w
    decreases |w|
  {
    if w != [] {
      assert (w + rest)[0] == w[0] && (w + rest)[1..] == w[1..] + rest;
      LeadingWordOf(w[1..], rest);
      assert w == [w[0]] + w[1..];
    } else {
      assert w + rest == rest;
    }
  }

  /** A leading space changes nothing in the words of a string. */
  lemma SplitWordsSpace(rest: string)
    ensures SplitWords([' '] + rest) == SplitWords(rest)
  {
    assert ([' '] + rest)[1..] == rest;
    assert TrimStart([' '] + rest) == TrimStart(rest);
  }

  /** A string that starts with a word: that word, then the words of what follows it. */
  lemma SplitWordsUnfold(s: string)
    requires s != [] && !IsSpace(s[0])
    ensures SplitWords(s) == [LeadingWord(s)] + SplitWords(s[|LeadingWord(s)|..])
  {
    assert TrimStart(s) == s;
  }

  /** A word, a space and a string that does not start with a space: the word, then the words of the string. */
  lemma SplitWordsCons(w: string, rest: string)
    requires IsWord(w)
    requires rest == [] || !IsSpace(rest[0])
    ensures SplitWords(w + [' '] + rest) == [w] + SplitWords(rest)
  {
    var tail := [' '] + rest;
    var s := w + tail;
    assert w + [' '] + rest == s;
    assert s[0] == w[0];
    SplitWordsUnfold(s);
    LeadingWordOf(w, tail);
    assert s[|w|..] == tail;
    SplitWordsSpace(rest);
  }

  /** A single word is read whole. */
  lemma SplitWordsSingle(w: string)
    requires IsWord(w)
    ensures SplitWords(w) == [w]
  {
    assert TrimStart(w) == w;
    LeadingWordOf(w, []);
    assert w + [] == w && w[|w|..] == [];
  }

  /** Joined words start with the first character of the first word. */
  lemma JoinWordsHead(words: seq<string>)
    requires |words| >= 1 && words[0] != []
    ensures JoinWords(words) != [] && JoinWords(words)[0] == words[0][0]
  {
  }

  /** Joining two or more words: the first, a space, then the others joined. */
  lemma JoinWordsCons(words: seq<string>)
    requires |words| > 1
    ensures JoinWords(words) == words[0] + [' '] + JoinWords(words[1..])
  {
  }

  /** One more word in front of a text that opens with a word: its words gain that word in front. */
  lemma SplitWordsJoinStep(head: string, joined: string, tail: seq<string>)
    requires IsWord(head) && joined != [] && !IsSpace(joined[0])
    requires SplitWords(joined) == tail
    ensures SplitWords(head + [' '] + joined) == [head] + tail
  {
    SplitWordsCons(head, joined);
  }

  /** Splitting undoes joining with single spaces, for words without spaces. */
  lemma {:induction false} SplitWordsJoin(words: seq<string>)
    requires forall k :: 0 <= k < |words| ==> IsWord(words[k])
    ensures SplitWords(JoinWords(words)) == words
    decreases |words|
  {
    if |words| == 1 {
      SplitWordsSingle(words[0]);
    } else if |words| > 1 {
      var tail := words[1..];
      assert words == [words[0]] + tail;
      assert forall k :: 0 <= k < |tail| ==> tail[k] == words[k + 1];
      SplitWordsJoin(tail);
      JoinWordsCons(words);
      JoinWordsHead(tail);
      SplitWordsJoinStep(words[0], JoinWords(tail), tail);
    }
  }

  /** The position of the first occurrence of `pat` in `s`. */
  function FirstIndex(s: string, pat: string): (r: Option<nat>)
    ensures r.None? <==> !Contains(s, pat)
    ensures r.Some? ==> r.value + |pat| <= |s| && StartsWith(s[r.value..], pat)
    ensures r.Some? ==> forall j :: 0 <= j < r.value ==> !StartsWith(s[j..], pat)
    decreases |s|
  {
    if StartsWith(s, pat) then
      assert s[0..] == s;
      Some(0)
    else if s == [] then None
    else
      match FirstIndex(s[1..], pat)
      case None => None
      case Some(i) =>
        assert forall j :: 1 <= j <= |s| ==> s[j..] == s[1..][j - 1..];
        assert s[i + 1..] == s[1..][i..];
        Some(i + 1)
  }

  /** JavaScript `s.replace(pat, rep)` with a string pattern: the first occurrence only. */
  function ReplaceFirst(s: string, pat: string, rep: string): (r: string)
    ensures !Contains(s, pat) ==> r == s
    ensures Contains(s, pat) ==> var i := FirstIndex(s, pat).value; r == s[..i] + rep + s[i + |pat|..]
  {
    match FirstIndex(s, pat)
    case None => s
    case Some(i) => s[..i] + rep + s[i + |pat|..]
  }

  /** An occurrence of `pat` at position `k` makes `s` contain it. */
  lemma {:induction false} ContainsAt(s: string, pat: string, k: nat)
    requires k <= |s| && StartsWith(s[k..], pat)
    ensures Contains(s, pat)
    decreases k
  {
    if k == 0 {
      assert s[0..] == s;
    } else {
      assert s[1..][k - 1..] == s[k..];
      ContainsAt(s[1..], pat, k - 1);
    }
  }

  /** A string without the pattern's first character does not contain the pattern. */
  lemma {:induction false} MissingFirstChar(s: string, pat: string)
    requires pat != [] && pat[0] !in s
    ensures !Contains(s, pat)
    decreases |s|
  {
    if s != [] {
      assert s[0] in s;
      MissingFirstChar(s[1..], pat);
    }
  }

  /** A pattern that ends the string, with its first character nowhere before it, is replaced there. */
  lemma ReplaceTrailing(p: string, pat: string, rep: string)
    requires pat != [] && pat[0] !in p
    ensures ReplaceFirst(p + pat, pat, rep) == p + rep
  {
    var s := p + pat;
    assert s[|p|..] == pat;
    ContainsAt(s, pat, |p|);
    var i := FirstIndex(s, pat).value;
    assert i == |p|;
    assert s[..i] == p;
    assert s[i + |pat|..] == [];
  }

  /** Python's `str.isupper()` on ASCII: some letter, and no lower-case letter. */
  predicate IsUpperWord(s: string) {
    (exists i :: 0 <= i < |s| && IsUpperLetter(s[i])) && forall i :: 0 <= i < |s| ==> !IsLowerLetter(s[i])
  }

  /** Python's `s.replace(pat, rep)`: every non-overlapping occurrence, leftmost first, replaced. */
  function ReplaceAll(s: string, pat: string, rep: string): string
    requires pat != []
    decreases |s|
  {
    if |s| < |pat| then s
    else if StartsWith(s, pat) then rep + ReplaceAll(s[|pat|..], pat, rep)
    else [s[0]] + ReplaceAll(s[1..], pat, rep)
  }

  /** A string in which `pat` does not occur comes back unchanged. */
  lemma {:induction false} ReplaceAllAbsent(s: string, pat: string, rep: string)
    requires pat != []
    requires !Contains(s, pat)
    ensures ReplaceAll(s, pat, rep) == s
    decreases |s|
  {
    if |s| >= |pat| {
      ReplaceAllAbsent(s[1..], pat, rep);
      assert s == [s[0]] + s[1..];
    }
  }

  function DigitChar(d: nat): (c: char)
    requires d < 10
    ensures '0' <= c <= '9'
  {
    ('0' as int + d) as char
  }

  /** Decimal digits of `n`, most significant first, without leading zeros. */
  function NatToString(n: nat): (s: string)
    ensures s != [] && forall i :: 0 <= i < |s| ==> '0' <= s[i] <= '9'
  {
    if n < 10 then [DigitChar(n)] else NatToString(n / 10) + [DigitChar(n % 10)]
  }

  /** How JavaScript and Python print an integer value. */
  function IntToString(n: int): string {
    if n < 0 then "-" + NatToString(-n) else NatToString(n)
  }
}
