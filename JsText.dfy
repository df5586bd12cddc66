/** The JavaScript string operations the application relies on, over `string` (`seq<char>`):
    `trim`, `split`, `join`, `includes`, `startsWith`, `replace`, `toLowerCase` and the
    decimal rendering of an integer in a template literal. */
module JsText {

  /** The code points ECMAScript counts as WhiteSpace or LineTerminator: what `trim()` removes
      and what `\s` matches in a regular expression. */
  predicate IsSpace(c: char) {
    || c == ' ' || c == '\t' || c == '\n' || c == '\r' || c == '\U{000B}' || c == '\U{000C}'
    || c == '\U{00A0}' || c == '\U{1680}' || ('\U{2000}' <= c <= '\U{200A}')
    || c == '\U{2028}' || c == '\U{2029}' || c == '\U{202F}' || c == '\U{205F}'
    || c == '\U{3000}' || c == '\U{FEFF}'
  }

  predicate NoSpace(s: string) {
    forall i :: 0 <= i < |s| ==> !IsSpace(s[i])
  }

  predicate AllSpace(s: string) {
    forall i :: 0 <= i < |s| ==> IsSpace(s[i])
  }

  /** The number of white-space characters `s` starts with. */
  function LeadingSpaces(s: string): (k: nat)
    ensures k <= |s| && AllSpace(s[..k]) && (k == |s| || !IsSpace(s[k]))
    decreases |s|
  {
    if s != "" && IsSpace(s[0]) then
      var k := 1 + LeadingSpaces(s[1..]);
      assert s[..k] == [s[0]] + s[1..][..k - 1];
      k
    else 0
  }

  /** The number of white-space characters `s` ends with. */
  function TrailingSpaces(s: string): (k: nat)
    ensures k <= |s| && AllSpace(s[|s| - k..]) && (k == |s| || !IsSpace(s[|s| - k - 1]))
    decreases |s|
  {
    if s != "" && IsSpace(s[|s| - 1]) then
      var k := 1 + TrailingSpaces(s[..|s| - 1]);
      assert s[|s| - k..] == s[..|s| - 1][|s| - k..] + [s[|s| - 1]];
      k
    else 0
  }

  /** `s` with its leading white space removed. */
  function TrimStart(s: string): string {
    s[LeadingSpaces(s)..]
  }

  /** `s` with its trailing white space removed. */
  function TrimEnd(s: string): string {
    s[..|s| - TrailingSpaces(s)]
  }

  /** `s.trim()`: neither end of the result is white space, and only white space was removed. */
  function Trim(s: string): (r: string)
    ensures |r| <= |s|
    ensures r == "" || (!IsSpace(r[0]) && !IsSpace(r[|r| - 1]))
  {
    var t := TrimStart(s);
    var r := TrimEnd(t);
    assert r != "" ==> r[0] == t[0];
    r
  }

  /** Trimming twice removes nothing more than trimming once. */
  lemma TrimIdempotent(s: string)
    ensures Trim(Trim(s)) == Trim(s)
  {
    var r := Trim(s);
    if r != "" {
      assert TrimStart(r) == r;
      assert TrimEnd(r) == r;
    }
  }

  /** The longest prefix of `s` free of white space. */
  function TakeWord(s: string): (w: string)
    ensures w <= s && NoSpace(w)
    ensures |w| == |s| || IsSpace(s[|w|])
    decreases |s|
  {
    if s != "" && !IsSpace(s[0]) then [s[0]] + TakeWord(s[1..]) else ""
  }

  /** A non-empty run of non-white-space characters. */
  predicate IsWord(w: string) {
    w != "" && NoSpace(w)
  }

  /** The maximal runs of non-white-space characters of `s`, in order. */
  function Words(s: string): (ws: seq<string>)
    ensures forall k :: 0 <= k < |ws| ==> IsWord(ws[k])
    decreases |s|
  {
    var t := TrimStart(s);
    if t == "" then []
    else
      var w := TakeWord(t);
      assert w != "" by {
        assert !IsSpace(t[0]);
      }
      var rest := Words(t[|w|..]);
      AllWordsCons(w, rest);
      [w] + rest
  }

  lemma AllWordsCons(w: string, rest: seq<string>)
    requires IsWord(w) && forall k :: 0 <= k < |rest| ==> IsWord(rest[k])
    ensures forall k :: 0 <= k < |[w] + rest| ==> IsWord(([w] + rest)[k])
  {
    forall k | 0 <= k < |[w] + rest|
      ensures IsWord(([w] + rest)[k])
    {
      if k > 0 {
        assert ([w] + rest)[k] == rest[k - 1];
      }
    }
  }

  /** `t.split(/\s+/)` for a string `t` that `trim()` has already been applied to: its words,
      or the single empty piece `[""]` when `t` is empty. */
  function SplitTrimmedWs(t: string): seq<string> {
    if t == "" then [""] else Words(t)
  }

  /** `parts.join(sep)`. */
  function Join(parts: seq<string>, sep: string): string
    decreases |parts|
  {
    if |parts| == 0 then ""
    else if |parts| == 1 then parts[0]
    else parts[0] + sep + Join(parts[1..], sep)
  }

  lemma {:induction false} TakeWordOfWord(w: string, tail: string)
    requires NoSpace(w)
    requires tail == "" || IsSpace(tail[0])
    ensures TakeWord(w + tail) == w
    decreases |w|
  {
    if w != "" {
      assert (w + tail)[1..] == w[1..] + tail;
      TakeWordOfWord(w[1..], tail);
    } else {
      assert w + tail == tail;
    }
  }

  /** A word followed by white space (or nothing) is the first word. */
  lemma WordsCons(w: string, tail: string)
    requires IsWord(w)
    requires tail == "" || IsSpace(tail[0])
    ensures Words(w + tail) == [w] + Words(tail)
  {
    var s := w + tail;
    assert s[0] == w[0];
    assert TrimStart(s) == s;
    TakeWordOfWord(w, tail);
    assert s[|w|..] == tail;
  }

  lemma WordsSkipSpace(rest: string)
    ensures Words(" " + rest) == Words(rest)
  {
    assert (" " + rest)[1..] == rest;
    assert TrimStart(" " + rest) == TrimStart(rest);
  }

  /** Splitting words joined by single spaces gives the words back: the region name that
      the atlas parser rebuilds with `join(' ')` splits into the tokens it came from. */
  lemma {:induction false} WordsOfJoin(ws: seq<string>)
    requires forall k :: 0 <= k < |ws| ==> IsWord(ws[k])
    ensures Words(Join(ws, " ")) == ws
    decreases |ws|
  {
    if |ws| == 1 {
      WordsCons(ws[0], "");
      assert ws[0] + "" == ws[0];
    } else if |ws| > 1 {
      var tl := ws[1..];
      var rest := Join(tl, " ");
      assert Join(ws, " ") == ws[0] + (" " + rest);
      assert forall k :: 0 <= k < |tl| ==> IsWord(tl[k]) by {
        forall k | 0 <= k < |tl|
          ensures IsWord(tl[k])
        {
          assert tl[k] == ws[k + 1];
        }
      }
      calc {
        Words(Join(ws, " "));
        Words(ws[0] + (" " + rest));
        { WordsCons(ws[0], " " + rest); }
        [ws[0]] + Words(" " + rest);
        { WordsSkipSpace(rest); }
        [ws[0]] + Words(rest);
        { WordsOfJoin(tl); }
        [ws[0]] + tl;
        ws;
      }
    }
  }

  lemma JoinStartsWithFirst(ws: seq<string>)
    requires |ws| > 0
    ensures ws[0] <= Join(ws, " ")
  {
  }

  /** `c` occurs nowhere in `s`. */
  predicate Lacks(s: string, c: char) {
    forall j :: 0 <= j < |s| ==> s[j] != c
  }

  lemma LacksIff(s: string, c: char)
    ensures Lacks(s, c) <==> c !in s
  {
  }

  /** `s.split(sep)` for a one-character separator: the pieces between the occurrences of `sep`,
      read off one character at a time. */
  function SplitOn(s: string, sep: char): (parts: seq<string>)
    ensures |parts| >= 1
    ensures forall k :: 0 <= k < |parts| ==> Lacks(parts[k], sep)
    decreases |s|
  {
    if s == "" then [""]
    else
      var rest := SplitOn(s[1..], sep);
      if s[0] == sep then [""] + rest
      else
        var parts := [[s[0]] + rest[0]] + rest[1..];
        assert forall k :: 1 <= k < |parts| ==> parts[k] == rest[k];
        parts
  }

  /** Putting a character in front of the first piece puts it in front of the joined text. */
  lemma JoinExtendsFirst(c: char, rest: seq<string>, sep: string)
    requires |rest| >= 1
    ensures Join([[c] + rest[0]] + rest[1..], sep) == [c] + Join(rest, sep)
  {
    var parts := [[c] + rest[0]] + rest[1..];
    if |rest| > 1 {
      assert parts[1..] == rest[1..];
    }
  }

  /** Joining the pieces with the separator rebuilds the string. */
  lemma {:induction false} JoinSplitOn(s: string, sep: char)
    ensures Join(SplitOn(s, sep), [sep]) == s
    decreases |s|
  {
    if s != "" {
      var rest := SplitOn(s[1..], sep);
      JoinSplitOn(s[1..], sep);
      if s[0] == sep {
        assert ([""] + rest)[1..] == rest;
      } else {
        JoinExtendsFirst(s[0], rest, [sep]);
      }
      assert s == [s[0]] + s[1..];
    }
  }

  /** The last piece of `s.split(sep)` (`split(sep).pop()`). */
  function LastPiece(s: string, sep: char): (r: string)
    ensures sep !in r
  {
    var parts := SplitOn(s, sep);
    LacksIff(parts[|parts| - 1], sep);
    parts[|parts| - 1]
  }

  /** The last of the pieces is the text after the last `sep` their join puts in, or all of it
      when there is only one piece. */
  lemma {:induction false} LastOfJoin(parts: seq<string>, sep: char)
    requires |parts| >= 1
    ensures var s, l := Join(parts, [sep]), parts[|parts| - 1];
      && |l| <= |s| && l == s[|s| - |l|..]
      && (|l| < |s| ==> s[|s| - |l| - 1] == sep)
      && (|l| == |s| ==> s == l)
    decreases |parts|
  {
    if |parts| > 1 {
      var tl := parts[1..];
      LastOfJoin(tl, sep);
      var t := Join(tl, [sep]);
      var s := parts[0] + [sep] + t;
      var l := parts[|parts| - 1];
      assert l == tl[|tl| - 1];
      assert s[|s| - |t|..] == t;
      assert s[|s| - |l|..] == t[|t| - |l|..];
      if |l| < |t| {
        assert s[|s| - |l| - 1] == t[|t| - |l| - 1];
      } else {
        assert s[|s| - |l| - 1] == s[|parts[0]|];
      }
    }
  }

  /** The last piece is the text after the last occurrence of `sep`, or all of `s` when it has
      none. */
  lemma LastPieceIsSuffix(s: string, sep: char)
    ensures |LastPiece(s, sep)| <= |s| && LastPiece(s, sep) == s[|s| - |LastPiece(s, sep)|..]
    ensures |LastPiece(s, sep)| < |s| ==> s[|s| - |LastPiece(s, sep)| - 1] == sep
    ensures |LastPiece(s, sep)| == |s| ==> sep !in s
  {
    var parts := SplitOn(s, sep);
    JoinSplitOn(s, sep);
    LastOfJoin(parts, sep);
    LacksIff(parts[|parts| - 1], sep);
  }

  /** A name ending in `sep` followed by a piece without `sep` has that piece last. */
  lemma LastPieceOfSuffix(stem: string, sep: char, ext: string)
    requires sep !in ext
    ensures LastPiece(stem + [sep] + ext, sep) == ext
  {
    var s := stem + [sep] + ext;
    var l := LastPiece(s, sep);
    LastPieceIsSuffix(s, sep);
    LacksIff(l, sep);
    LacksIff(ext, sep);
    assert s[|stem|] == sep;
    assert s[|s| - |ext|..] == ext;
  }

  function LowerChar(c: char): char {
    if 'A' <= c <= 'Z' then (c as int + 32) as char else c
  }

  /** `s.toLowerCase()` restricted to the ASCII letters. */
  function Lower(s: string): (r: string)
    ensures |r| == |s|
    ensures forall i :: 0 <= i < |s| ==> r[i] == LowerChar(s[i])
  {
    seq(|s|, i requires 0 <= i < |s| => LowerChar(s[i]))
  }

  lemma LowerIdempotent(s: string)
    ensures Lower(Lower(s)) == Lower(s)
  {
  }

  /** `s.includes(sub)`. */
  predicate Contains(s: string, sub: string)
    decreases |s|
  {
    sub <= s || (s != "" && Contains(s[1..], sub))
  }

  /** An occurrence of `sub` at position `i` makes `includes` true. */
  lemma {:induction false} ContainsAt(s: string, sub: string, i: nat)
    requires i + |sub| <= |s| && sub <= s[i..]
    ensures Contains(s, sub)
    decreases i
  {
    if i > 0 {
      assert s[1..][i - 1..] == s[i..];
      ContainsAt(s[1..], sub, i - 1);
    }
  }

  /** When `includes` is true, `sub` occurs at some position of `s`. */
  lemma {:induction false} ContainsWitness(s: string, sub: string) returns (i: nat)
    requires Contains(s, sub)
    ensures i + |sub| <= |s| && sub <= s[i..]
    decreases |s|
  {
    if sub <= s {
      i := 0;
    } else {
      var j := ContainsWitness(s[1..], sub);
      assert s[1..][j..] == s[j + 1..];
      i := j + 1;
    }
  }

  /** `includes` holds exactly when `sub` occurs at some position of `s`. */
  lemma ContainsIff(s: string, sub: string)
    ensures Contains(s, sub) <==> exists i: nat :: i + |sub| <= |s| && sub <= s[i..]
  {
    if Contains(s, sub) {
      var i := ContainsWitness(s, sub);
    }
    if exists i: nat :: i + |sub| <= |s| && sub <= s[i..] {
      var i: nat :| i + |sub| <= |s| && sub <= s[i..];
      ContainsAt(s, sub, i);
    }
  }

  /** A string never contains a string with a character it lacks. */
  lemma {:induction false} NotContainsChar(s: string, sub: string, c: char)
    requires c in sub && c !in s
    ensures !Contains(s, sub)
    decreases |s|
  {
    if s != "" {
      assert c !in s[1..];
      NotContainsChar(s[1..], sub, c);
    }
  }

  /** A string is never contained in a shorter one. */
  lemma ContainsLength(s: string, sub: string)
    requires Contains(s, sub)
    ensures |sub| <= |s|
  {
    var i := ContainsWitness(s, sub);
  }

  /** A string never contains a longer one. */
  lemma NotContainsLonger(s: string, sub: string)
    requires |sub| > |s|
    ensures !Contains(s, sub)
  {
    if Contains(s, sub) {
      ContainsLength(s, sub);
    }
  }

  /** `includes` is transitive. */
  lemma ContainsTransitive(s: string, a: string, b: string)
    requires Contains(s, a) && Contains(a, b)
    ensures Contains(s, b)
  {
    var i := ContainsWitness(s, a);
    var j := ContainsWitness(a, b);
    assert s[i + j..i + j + |b|] == a[j..j + |b|];
    ContainsAt(s, b, i + j);
  }

  /** `s.startsWith(p)`. */
  predicate StartsWith(s: string, p: string) {
    p <= s
  }

  /** `s.replace(c, repl)` with a one-character string pattern: only the first occurrence changes. */
  function ReplaceFirst(s: string, c: char, repl: string): string
    decreases |s|
  {
    if s == "" then ""
    else if s[0] == c then repl + s[1..]
    else [s[0]] + ReplaceFirst(s[1..], c, repl)
  }

  /** `replace` with a one-character pattern removes the first occurrence only. */
  lemma {:induction false} ReplaceFirstRemovesOne(a: string, c: char, b: string)
    requires c !in a
    ensures ReplaceFirst(a + [c] + b, c, "") == a + b
    decreases |a|
  {
    var s := a + [c] + b;
    if a == "" {
      assert s[1..] == b;
    } else {
      assert s[0] == a[0] && s[1..] == a[1..] + [c] + b;
      ReplaceFirstRemovesOne(a[1..], c, b);
      assert a + b == [a[0]] + (a[1..] + b);
    }
  }

  /** `s.replace(/c/g, repl)`: every occurrence of `c` replaced. */
  function ReplaceAll(s: string, c: char, repl: string): (r: string)
    ensures c !in repl ==> c !in r
  {
    if s == "" then ""
    else (if s[0] == c then repl else [s[0]]) + ReplaceAll(s[1..], c, repl)
  }

  /** `replace(/c/g, repl)` keeps every character other than `c`. */
  lemma {:induction false} ReplaceAllKeepsChar(s: string, c: char, repl: string, i: nat)
    requires i < |s| && s[i] != c
    ensures s[i] in ReplaceAll(s, c, repl)
    decreases i
  {
    if i > 0 {
      assert s[1..][i - 1] == s[i];
      ReplaceAllKeepsChar(s[1..], c, repl, i - 1);
    }
  }

  /** `s.replace(/\s+/g, repl)`: every maximal run of white space replaced by `repl`. */
  function ReplaceSpaceRuns(s: string, repl: string): (r: string)
    ensures NoSpace(repl) ==> NoSpace(r)
    decreases |s|
  {
    if s == "" then ""
    else if IsSpace(s[0]) then repl + ReplaceSpaceRuns(TrimStart(s), repl)
    else [s[0]] + ReplaceSpaceRuns(s[1..], repl)
  }
  /** Replacing the runs of white space keeps every other character. */
  lemma {:induction false} ReplaceSpaceRunsKeepsChar(s: string, repl: string, i: nat)
    requires i < |s| && !IsSpace(s[i])
    ensures s[i] in ReplaceSpaceRuns(s, repl)
    decreases |s|
  {
    if i > 0 {
      if IsSpace(s[0]) {
        var k := LeadingSpaces(s);
        assert k <= i;
        assert TrimStart(s)[i - k] == s[i];
        ReplaceSpaceRunsKeepsChar(TrimStart(s), repl, i - k);
      } else {
        assert s[1..][i - 1] == s[i];
        ReplaceSpaceRunsKeepsChar(s[1..], repl, i - 1);
      }
    }
  }

  /** A string without white space is left as it is. */
  lemma {:induction false} ReplaceSpaceRunsNoSpace(s: string, repl: string)
    requires NoSpace(s)
    ensures ReplaceSpaceRuns(s, repl) == s
    decreases |s|
  {
    if s != "" {
      ReplaceSpaceRunsNoSpace(s[1..], repl);
    }
  }

  /** A character before the first separator lands in the first piece of `split`. */
  lemma {:induction false} FirstPieceKeepsChar(s: string, sep: char, i: nat)
    requires i < |s| && forall j :: 0 <= j <= i ==> s[j] != sep
    ensures s[i] in SplitOn(s, sep)[0]
    decreases i
  {
    if i > 0 {
      assert s[1..][i - 1] == s[i];
      FirstPieceKeepsChar(s[1..], sep, i - 1);
    }
  }


  function DigitChar(d: nat): char
    requires d < 10
  {
    ('0' as int + d) as char
  }

  /** The decimal digits of `n`, most significant first, without leading zeros. */
  function NatToString(n: nat): (s: string)
    ensures s != ""
    ensures forall i :: 0 <= i < |s| ==> '0' <= s[i] <= '9'
    decreases n
  {
    if n < 10 then [DigitChar(n)] else NatToString(n / 10) + [DigitChar(n % 10)]
  }

  /** An integer in plain decimal, as a template literal (`${i}`) renders a safe integer, one of
      magnitude below 2^53; larger numbers, which JavaScript holds inexactly or writes with an
      exponent from 1e21 on, are not modelled. */
  function IntToString(i: int): string {
    if i < 0 then "-" + NatToString(-i) else NatToString(i)
  }

  /** The value of a string of decimal digits. */
  function DecimalValue(s: string): nat
    requires forall i :: 0 <= i < |s| ==> '0' <= s[i] <= '9'
    decreases |s|
  {
    if s == "" then 0 else DecimalValue(s[..|s| - 1]) * 10 + (s[|s| - 1] as int - '0' as int)
  }

  /** Reading the digits back gives the number. */
  lemma {:induction false} DecimalRoundTrip(n: nat)
    ensures DecimalValue(NatToString(n)) == n
    decreases n
  {
    if n >= 10 {
      var s := NatToString(n);
      DecimalRoundTrip(n / 10);
      assert s[..|s| - 1] == NatToString(n / 10);
    }
  }

  lemma NatToStringInjective(m: nat, n: nat)
    requires NatToString(m) == NatToString(n)
    ensures m == n
  {
    DecimalRoundTrip(m);
    DecimalRoundTrip(n);
  }

  /** Different integers render differently, so `Region_<id>` names of different ids differ. */
  lemma IntToStringSign(i: int)
    ensures IntToString(i) != "" && (IntToString(i)[0] == '-' <==> i < 0)
  {
  }

  lemma IntToStringInjective(i: int, j: int)
    requires IntToString(i) == IntToString(j)
    ensures i == j
  {
    IntToStringSign(i);
    IntToStringSign(j);
    if i < 0 && j < 0 {
      assert ("-" + NatToString(-i))[1..] == NatToString(-i);
      assert ("-" + NatToString(-j))[1..] == NatToString(-j);
      NatToStringInjective(-i, -j);
    } else if i >= 0 && j >= 0 {
      NatToStringInjective(i, j);
    }
  }
}
