/**
 * The part of Python's `str` API that the services rely on, over ASCII:
 * `strip`, `startswith`/`endswith`, substring `in`, `lower`/`title`,
 * `split()` on whitespace, `split(c)`, `split(sep, 1)`, `join`, `replace`,
 * slicing and `str(int)`.
 */
module Text {
  import opened Wrappers

  /** The ASCII characters that Python's argument-less `strip()` and `split()` treat as whitespace. */
  const Whitespace: set<char> := set c: char | c == ' ' || '\t' <= c <= '\r'

  lemma WhitespaceMembers()
    ensures Whitespace == {' ', '\t', '\n', '\U{000B}', '\U{000C}', '\r'}
  {
    forall c ensures c in Whitespace <==> c in {' ', '\t', '\n', '\U{000B}', '\U{000C}', '\r'} {
      if '\t' <= c <= '\r' {
        assert c as int in {9, 10, 11, 12, 13};
      }
    }
  }

  function Take<T>(s: seq<T>, n: nat): (r: seq<T>)
    ensures |r| == if n <= |s| then n else |s|
    ensures r == s[..|r|]
  {
    if n <= |s| then s[..n] else s
  }

  // ---------------------------------------------------------------- strip

  function StripLeft(s: string, cs: set<char>): (r: string)
    ensures |r| <= |s| && r == s[|s| - |r|..]
    ensures r != [] ==> r[0] !in cs
  {
    if s != [] && s[0] in cs then StripLeft(s[1..], cs) else s
  }

  /** Only characters of `cs` are dropped from the front. */
  lemma {:induction false} StripLeftDropsOnly(s: string, cs: set<char>)
    ensures forall i :: 0 <= i < |s| - |StripLeft(s, cs)| ==> s[i] in cs
  {
    if s != [] && s[0] in cs {
      StripLeftDropsOnly(s[1..], cs);
      forall i | 1 <= i < |s| - |StripLeft(s, cs)| ensures s[i] in cs { assert s[i] == s[1..][i - 1]; }
    }
  }

  function StripRight(s: string, cs: set<char>): (r: string)
    ensures |r| <= |s| && r == s[..|r|]
    ensures r != [] ==> r[|r| - 1] !in cs
  {
    if s != [] && s[|s| - 1] in cs then StripRight(s[..|s| - 1], cs) else s
  }

  /** Only characters of `cs` are dropped from the back. */
  lemma {:induction false} StripRightDropsOnly(s: string, cs: set<char>)
    ensures forall i :: |StripRight(s, cs)| <= i < |s| ==> s[i] in cs
  {
    if s != [] && s[|s| - 1] in cs {
      StripRightDropsOnly(s[..|s| - 1], cs);
      forall i | |StripRight(s, cs)| <= i < |s| - 1 ensures s[i] in cs { assert s[i] == s[..|s| - 1][i]; }
    }
  }

  /** A prefix made only of characters of `cs` is stripped away, up to a character outside `cs`. */
  lemma {:induction false} StripLeftPrefix(p: string, s: string, cs: set<char>)
    requires forall i :: 0 <= i < |p| ==> p[i] in cs
    requires s == [] || s[0] !in cs
    ensures StripLeft(p + s, cs) == s
  {
    if p == [] {
      assert p + s == s;
    } else {
      assert (p + s)[0] == p[0];
      assert (p + s)[1..] == p[1..] + s;
      StripLeftPrefix(p[1..], s, cs);
    }
  }

  /** A suffix made only of characters of `cs` is stripped away, back to a character outside `cs`. */
  lemma {:induction false} StripRightSuffix(s: string, p: string, cs: set<char>)
    requires forall i :: 0 <= i < |p| ==> p[i] in cs
    requires s == [] || s[|s| - 1] !in cs
    ensures StripRight(s + p, cs) == s
  {
    if p == [] {
      assert s + p == s;
    } else {
      var q := p[..|p| - 1];
      assert (s + p)[|s + p| - 1] == p[|p| - 1];
      assert (s + p)[..|s + p| - 1] == s + q;
      StripRightSuffix(s, q, cs);
    }
  }

  /** Python `s.strip(chars)`: drops characters of `cs` from both ends. */
  function StripChars(s: string, cs: set<char>): (r: string)
    ensures |r| <= |s|
    ensures r != [] ==> r[0] !in cs && r[|r| - 1] !in cs
  {
    StripRight(StripLeft(s, cs), cs)
  }

  /** Python `s.strip()`. */
  function Strip(s: string): string
  {
    StripChars(s, Whitespace)
  }

  /** `not s.strip()`: the string is empty or all whitespace. */
  predicate IsBlank(s: string)
  {
    Strip(s) == []
  }

  lemma StripLeftNoop(s: string, cs: set<char>)
    requires s == [] || s[0] !in cs
    ensures StripLeft(s, cs) == s
  {
  }

  lemma StripRightNoop(s: string, cs: set<char>)
    requires s == [] || s[|s| - 1] !in cs
    ensures StripRight(s, cs) == s
  {
  }

  /** Stripping twice is stripping once. */
  lemma StripCharsIdempotent(s: string, cs: set<char>)
    ensures StripChars(StripChars(s, cs), cs) == StripChars(s, cs)
  {
    var r := StripChars(s, cs);
    StripLeftNoop(r, cs);
    StripRightNoop(r, cs);
  }

  // ---------------------------------------------------------------- prefixes and substrings

  predicate StartsWith(s: string, p: string)
  {
    |p| <= |s| && s[..|p|] == p
  }

  predicate EndsWith(s: string, p: string)
  {
    |p| <= |s| && s[|s| - |p|..] == p
  }

  /** Python `sub in s`. */
  predicate Contains(s: string, sub: string)
    decreases |s|
  {
    StartsWith(s, sub) || (s != [] && Contains(s[1..], sub))
  }

  lemma ContainsAt(s: string, sub: string, i: nat)
    requires i + |sub| <= |s| && s[i..i + |sub|] == sub
    ensures Contains(s, sub)
    decreases i
  {
    if i > 0 {
      assert s[1..][i - 1..i - 1 + |sub|] == sub;
      ContainsAt(s[1..], sub, i - 1);
    }
  }

  lemma ContainsAppendLeft(a: string, s: string, sub: string)
    requires Contains(s, sub)
    ensures Contains(a + s, sub)
    decreases |a|
  {
    if a != [] {
      assert (a + s)[1..] == a[1..] + s;
      ContainsAppendLeft(a[1..], s, sub);
      assert a + s != [] && Contains((a + s)[1..], sub);
    } else {
      assert a + s == s;
    }
  }

  // ---------------------------------------------------------------- case

  function LowerChar(c: char): (d: char)
    ensures !('A' <= d <= 'Z')
  {
    if 'A' <= c <= 'Z' then (c as int + 32) as char else c
  }

  function UpperChar(c: char): (d: char)
    ensures !('a' <= d <= 'z')
  {
    if 'a' <= c <= 'z' then (c as int - 32) as char else c
  }

  predicate IsLetter(c: char)
  {
    'a' <= c <= 'z' || 'A' <= c <= 'Z'
  }

  /** Python `s.lower()` on ASCII. */
  function Lower(s: string): (r: string)
    ensures |r| == |s|
    ensures forall i :: 0 <= i < |r| ==> r[i] == LowerChar(s[i])
  {
    seq(|s|, i requires 0 <= i < |s| => LowerChar(s[i]))
  }

  function TitleFrom(s: string, afterLetter: bool): (r: string)
    ensures |r| == |s|
  {
    if s == [] then []
    else
      var c := s[0];
      [if !IsLetter(c) then c else if afterLetter then LowerChar(c) else UpperChar(c)]
        + TitleFrom(s[1..], IsLetter(c))
  }

  /**
   * Python `s.title()` on ASCII: a letter is upper-cased when the character
   * before it is not a letter, and lower-cased otherwise.
   */
  function Title(s: string): string
  {
    TitleFrom(s, false)
  }

  /** Title-casing changes letters only, and only into letters. */
  lemma {:induction false} TitleFromKeepsNonLetters(s: string, afterLetter: bool)
    ensures forall i :: 0 <= i < |s| ==>
      (if IsLetter(s[i]) then IsLetter(TitleFrom(s, afterLetter)[i]) else TitleFrom(s, afterLetter)[i] == s[i])
    decreases |s|
  {
    if s != [] {
      TitleFromKeepsNonLetters(s[1..], IsLetter(s[0]));
      var r := TitleFrom(s, afterLetter);
      assert forall i :: 1 <= i < |s| ==> r[i] == TitleFrom(s[1..], IsLetter(s[0]))[i - 1] && s[i] == s[1..][i - 1];
    }
  }

  // ---------------------------------------------------------------- splitting and joining

  predicate IsWord(w: string)
  {
    w != [] && forall i :: 0 <= i < |w| ==> w[i] !in Whitespace
  }

  /** Length of the leading run of non-whitespace characters. */
  function WordLen(s: string): (n: nat)
    ensures n <= |s|
    ensures forall i :: 0 <= i < n ==> s[i] !in Whitespace
    ensures n < |s| ==> s[n] in Whitespace
  {
    if s == [] || s[0] in Whitespace then 0 else 1 + WordLen(s[1..])
  }

  /** Python `s.split()`: the maximal runs of non-whitespace characters, in order. */
  function Words(s: string): (ws: seq<string>)
    decreases |s|
  {
    var t := StripLeft(s, Whitespace);
    if t == [] then []
    else
      var n := WordLen(t);
      [t[..n]] + Words(t[n..])
  }

  /** Every piece `split()` returns is a non-empty run without whitespace. */
  lemma {:induction false} WordsAreWords(s: string)
    ensures forall w :: w in Words(s) ==> IsWord(w)
    decreases |s|
  {
    var t := StripLeft(s, Whitespace);
    if t != [] {
      LeadingWord(t);
      WordsAreWords(t[WordLen(t)..]);
    }
  }

  lemma LeadingWord(t: string)
    requires t != [] && t[0] !in Whitespace
    ensures IsWord(t[..WordLen(t)])
  {
    var w := t[..WordLen(t)];
    forall i | 0 <= i < |w| ensures w[i] !in Whitespace { assert w[i] == t[i]; }
  }

  /** Python `sep.join(parts)`. */
  function Join(sep: string, parts: seq<string>): string
  {
    if |parts| == 0 then ""
    else if |parts| == 1 then parts[0]
    else parts[0] + sep + Join(sep, parts[1..])
  }

  lemma WordLenOfWordThenSpace(w: string, rest: string)
    requires IsWord(w)
    requires rest == [] || rest[0] in Whitespace
    ensures WordLen(w + rest) == |w|
    decreases |w|
  {
    if |w| > 1 {
      assert (w + rest)[1..] == w[1..] + rest;
      WordLenOfWordThenSpace(w[1..], rest);
    } else {
      assert (w + rest)[1..] == rest;
    }
  }

  /** `split()` undoes `" ".join` on a list of words. */
  lemma {:induction false} WordsOfJoin(ws: seq<string>)
    requires forall k :: 0 <= k < |ws| ==> IsWord(ws[k])
    ensures Words(Join(" ", ws)) == ws
  {
    if |ws| == 1 {
      WordsOfWord(ws[0]);
      assert ws == [ws[0]];
    } else if |ws| > 1 {
      var rest := ws[1..];
      assert forall k :: 0 <= k < |rest| ==> rest[k] == ws[k + 1];
      WordsOfJoin(rest);
      WordsOfJoinCons(ws);
    }
  }

  lemma WordsOfJoinCons(ws: seq<string>)
    requires |ws| > 1 && IsWord(ws[0]) && IsWord(ws[1])
    requires Words(Join(" ", ws[1..])) == ws[1..]
    ensures Words(Join(" ", ws)) == ws
  {
    var j := Join(" ", ws[1..]);
    JoinCons(" ", ws);
    assert ws[1..][0] == ws[1];
    JoinHead(ws[1..]);
    WordsCons(ws[0], j, ws[1..]);
    HeadTail(ws);
  }

  lemma HeadTail<T>(xs: seq<T>)
    requires xs != []
    ensures [xs[0]] + xs[1..] == xs
  {
  }

  /** A word, a space and a text that starts with a word split into that word and the text's words. */
  lemma WordsCons(w: string, j: string, r: seq<string>)
    requires IsWord(w) && (j == [] || j[0] !in Whitespace) && Words(j) == r
    ensures Words(w + (" " + j)) == [w] + r
  {
    WordsOfWordThen(w, " " + j);
    WordsAfterSpace(j);
  }

  lemma JoinCons(sep: string, parts: seq<string>)
    requires |parts| > 1
    ensures Join(sep, parts) == parts[0] + (sep + Join(sep, parts[1..]))
  {
    assert Join(sep, parts) == parts[0] + sep + Join(sep, parts[1..]);
  }

  lemma WordsOfWord(w: string)
    requires IsWord(w)
    ensures Words(w) == [w]
  {
    WordsOfWordThen(w, []);
    assert w + [] == w;
    assert Words([]) == [];
  }

  lemma WordsAfterSpace(j: string)
    ensures Words(" " + j) == Words(j)
  {
    assert StripLeft(" " + j, Whitespace) == StripLeft(j, Whitespace) by { assert (" " + j)[1..] == j; }
  }

  /** A word followed by nothing or by whitespace is the first thing `split()` returns. */
  lemma WordsOfWordThen(w: string, rest: string)
    requires IsWord(w)
    requires rest == [] || rest[0] in Whitespace
    ensures Words(w + rest) == [w] + Words(rest)
  {
    var s := w + rest;
    StripLeftNoop(s, Whitespace);
    WordLenOfWordThenSpace(w, rest);
    assert s[..|w|] == w;
    assert s[|w|..] == rest;
  }

  lemma JoinHead(ws: seq<string>)
    requires |ws| > 0 && ws[0] != []
    ensures Join(" ", ws) != [] && Join(" ", ws)[0] == ws[0][0]
  {
    if |ws| > 1 {
      assert Join(" ", ws) == ws[0] + (" " + Join(" ", ws[1..]));
    }
  }

  /** Gluing a suffix onto a joined text glues it onto the last part. */
  lemma JoinAppendLast(sep: string, parts: seq<string>, suffix: string)
    requires |parts| > 0
    ensures Join(sep, parts) + suffix == Join(sep, parts[..|parts| - 1] + [parts[|parts| - 1] + suffix])
  {
    if |parts| > 1 {
      JoinAppendLast(sep, parts[1..], suffix);
      assert parts[1..][..|parts| - 2] + [parts[|parts| - 1] + suffix]
          == (parts[..|parts| - 1] + [parts[|parts| - 1] + suffix])[1..];
    }
  }

  /** Index of the first `c` in `s`, or `|s|` when there is none. */
  function FindChar(s: string, c: char): (i: nat)
    ensures i <= |s|
    ensures i < |s| ==> s[i] == c
    ensures forall j :: 0 <= j < i ==> s[j] != c
  {
    if s == [] || s[0] == c then 0 else 1 + FindChar(s[1..], c)
  }

  /** Python `s.split(c)` for a one-character separator. */
  function SplitOn(s: string, c: char): (parts: seq<string>)
    ensures |parts| >= 1
    ensures forall k :: 0 <= k < |parts| ==> c !in parts[k]
    decreases |s|
  {
    var i := FindChar(s, c);
    if i == |s| then [s] else [s[..i]] + SplitOn(s[i + 1..], c)
  }

  /** Joining the pieces of `s.split(c)` with `c` gives `s` back. */
  lemma {:induction false} JoinSplitOn(s: string, c: char)
    ensures Join([c], SplitOn(s, c)) == s
    decreases |s|
  {
    var i := FindChar(s, c);
    if i < |s| {
      var rest := SplitOn(s[i + 1..], c);
      JoinSplitOn(s[i + 1..], c);
      assert SplitOn(s, c) == [s[..i]] + rest;
      assert s == s[..i] + [c] + s[i + 1..];
    }
  }

  /** Index of the first occurrence of `sep` in `s`, if any. */
  function FindSub(s: string, sep: string): (r: Option<nat>)
    ensures r.Some? ==> r.value + |sep| <= |s| && s[r.value..r.value + |sep|] == sep
    decreases |s|
  {
    if StartsWith(s, sep) then Some(0)
    else if s == [] then None
    else
      match FindSub(s[1..], sep)
      case None => None
      case Some(i) => Some(i + 1)
  }

  /** Python `s.split(sep, 1)`: one part when `sep` is absent, else the text before and after its first occurrence. */
  function SplitOnce(s: string, sep: string): (parts: seq<string>)
    ensures 1 <= |parts| <= 2
    ensures |parts| == 2 ==> parts[0] + sep + parts[1] == s
    ensures |parts| == 1 ==> parts[0] == s
  {
    match FindSub(s, sep)
    case None => [s]
    case Some(i) =>
      assert s == s[..i] + s[i..i + |sep|] + s[i + |sep|..];
      [s[..i], s[i + |sep|..]]
  }

  /** Python `s.replace(a, b)` for single characters. */
  function ReplaceChar(s: string, a: char, b: char): (r: string)
    ensures |r| == |s|
    ensures forall i :: 0 <= i < |s| ==> r[i] == if s[i] == a then b else s[i]
  {
    seq(|s|, i requires 0 <= i < |s| => if s[i] == a then b else s[i])
  }

  /** Python `s.replace(c, "")`. */
  function RemoveChar(s: string, c: char): (r: string)
    ensures c !in r && |r| <= |s|
  {
    if s == [] then [] else (if s[0] == c then [] else [s[0]]) + RemoveChar(s[1..], c)
  }

  /** Python `s.replace(sub, "")`: removes the non-overlapping occurrences found left to right. */
  function RemoveAll(s: string, sub: string): (r: string)
    requires sub != []
    ensures |r| <= |s|
    decreases |s|
  {
    if s == [] then []
    else if StartsWith(s, sub) then RemoveAll(s[|sub|..], sub)
    else [s[0]] + RemoveAll(s[1..], sub)
  }

  /** Removing a substring that does not occur changes nothing. */
  lemma {:induction false} RemoveAllAbsent(s: string, sub: string)
    requires sub != [] && !Contains(s, sub)
    ensures RemoveAll(s, sub) == s
    decreases |s|
  {
    if s != [] {
      assert !StartsWith(s, sub);
      RemoveAllAbsent(s[1..], sub);
      assert [s[0]] + s[1..] == s;
    }
  }

  // ---------------------------------------------------------------- a language model's JSON reply

  /** A reply that opens with a fence: backticks stripped from both ends, every "json" removed, whitespace stripped. */
  function CleanJsonReply(raw: string): (text: string)
    ensures !StartsWith(Strip(raw), "```") ==> text == Strip(raw)
  {
    var t := Strip(raw);
    if StartsWith(t, "```") then Strip(RemoveAll(StripChars(t, {'`'}), "json")) else t
  }

  /**
   * The cleaning of a reply that opens and closes with a backtick: the
   * outer whitespace strip removes nothing and the fence branch is taken.
   */
  lemma CleanFencedSteps(raw: string, body: string)
    requires StartsWith(raw, "```") && raw[|raw| - 1] == '`'
    requires RemoveAll(StripChars(raw, {'`'}), "json") == body
    ensures CleanJsonReply(raw) == Strip(body)
  {
    WhitespaceMembers();
    StripLeftNoop(raw, Whitespace);
    StripRightNoop(raw, Whitespace);
  }

  /** A fenced reply opens with a fence and ends with a backtick. */
  lemma FencedReplyShape(body: string)
    ensures StartsWith("```json" + body + "```", "```")
    ensures ("```json" + body + "```")[|"```json" + body + "```"| - 1] == '`'
  {
    var raw := "```json" + body + "```";
    assert raw[..3] == "```";
  }

  /** Stripping backticks from a fenced reply leaves "json" and the body. */
  lemma FencedReplyLosesTicks(body: string)
    requires body == [] || body[|body| - 1] != '`'
    ensures StripChars("```json" + body + "```", {'`'}) == "json" + body
  {
    var fence := "```";
    var inner := "json" + body;
    assert "```json" + body + "```" == fence + (inner + fence);
    assert (inner + fence)[0] == 'j';
    StripLeftPrefix(fence, inner + fence, {'`'});
    assert inner[|inner| - 1] != '`';
    StripRightSuffix(inner, fence, {'`'});
  }

  /** Removing "json" from "json" and a body that holds no "json" leaves the body. */
  lemma TagRemoved(body: string)
    requires !Contains(body, "json")
    ensures RemoveAll("json" + body, "json") == body
  {
    assert StartsWith("json" + body, "json");
    assert ("json" + body)[4..] == body;
    RemoveAllAbsent(body, "json");
  }

  /** A fenced JSON reply is cleaned to its body, as long as the body itself holds no "json" and no backtick at its end. */
  lemma FencedReplyIsCleaned(body: string)
    requires body == [] || body[|body| - 1] != '`'
    requires !Contains(body, "json")
    ensures CleanJsonReply("```json" + body + "```") == Strip(body)
  {
    var raw := "```json" + body + "```";
    FencedReplyShape(body);
    FencedReplyLosesTicks(body);
    TagRemoved(body);
    CleanFencedSteps(raw, body);
  }

  // ---------------------------------------------------------------- numbers

  function DigitChar(d: nat): (c: char)
    requires d < 10
    ensures '0' <= c <= '9'
  {
    "0123456789"[d]
  }

  /** Python `str(n)` for a natural number. */
  function NatToString(n: nat): (r: string)
    ensures r != [] && forall i :: 0 <= i < |r| ==> '0' <= r[i] <= '9'
  {
    if n < 10 then [DigitChar(n)] else NatToString(n / 10) + [DigitChar(n % 10)]
  }

  /** Python `str(i)` for an integer. */
  function IntToString(i: int): string
  {
    if i < 0 then "-" + NatToString(-i) else NatToString(i)
  }
}
