/** The JavaScript string operations the dashboard relies on, on `seq<char>`:
    `toLowerCase`, `includes`, `trim`, `replace` with a string pattern (first
    occurrence only), `replace` with a global pattern, `split`, `lastIndexOf`
    and `join`. */
module Text {

  predicate IsDigit(c: char) {
    '0' <= c <= '9'
  }

  predicate AllDigits(s: string) {
    forall i :: 0 <= i < |s| ==> IsDigit(s[i])
  }

  /** The characters `String.prototype.trim` strips: the ECMAScript
      WhiteSpace and LineTerminator code points (tab, vertical tab, form
      feed, space, no-break space, the byte-order mark, the Unicode space
      separators and the line and paragraph separators). */
  predicate IsSpace(c: char) {
    || c == ' ' || c == '\t' || c == '\n' || c == '\r' || c == '\U{000B}' || c == '\U{000C}'
    || c == '\U{00A0}' || c == '\U{FEFF}' || c == '\U{1680}'
    || ('\U{2000}' <= c <= '\U{200A}')
    || c == '\U{2028}' || c == '\U{2029}' || c == '\U{202F}' || c == '\U{205F}' || c == '\U{3000}'
  }

  /** The capitals whose lower-case form is one character, by block:
      ASCII, Latin-1 (Ç Ö Ü Â Î Û ...), Latin Extended-A (Ğ Ş ...), basic
      Greek and basic Cyrillic. `İ` (U+0130) is not among them: its
      lower-case form is two characters. */
  predicate IsCapital(c: char) {
    || 'A' <= c <= 'Z'
    || ('\U{00C0}' <= c <= '\U{00DE}' && c != '\U{00D7}')
    || ('\U{0100}' <= c <= '\U{0137}' && c != '\U{0130}' && c as int % 2 == 0)
    || ('\U{0139}' <= c <= '\U{0148}' && c as int % 2 == 1)
    || ('\U{014A}' <= c <= '\U{0177}' && c as int % 2 == 0)
    || c == '\U{0178}'
    || ('\U{0179}' <= c <= '\U{017E}' && c as int % 2 == 1)
    || ('\U{0391}' <= c <= '\U{03A9}' && c != '\U{03A2}')
    || '\U{0400}' <= c <= '\U{042F}'
  }

  /** Lower-case mapping of one character: a capital becomes its small
      letter, every other character stays. */
  function LowerChar(c: char): (r: char)
    ensures IsCapital(c) <==> r != c
    ensures 'A' <= c <= 'Z' ==> r as int == c as int + 32
  {
    if 'A' <= c <= 'Z' || ('\U{00C0}' <= c <= '\U{00DE}' && c != '\U{00D7}') then (c as int + 32) as char
    else if '\U{0100}' <= c <= '\U{017E}' && IsCapital(c) then
      if c == '\U{0178}' then '\U{00FF}' else (c as int + 1) as char
    else if '\U{0391}' <= c <= '\U{03A9}' && c != '\U{03A2}' then (c as int + 32) as char
    else if '\U{0410}' <= c <= '\U{042F}' then (c as int + 32) as char
    else if '\U{0400}' <= c <= '\U{040F}' then (c as int + 80) as char
    else c
  }

  /** The Turkish capitals of product names and customer names become their
      small letters. */
  lemma TurkishCapitals()
    ensures LowerChar('Ç') == 'ç' && LowerChar('Ğ') == 'ğ' && LowerChar('Ö') == 'ö'
    ensures LowerChar('Ş') == 'ş' && LowerChar('Ü') == 'ü' && LowerChar('Â') == 'â'
    ensures LowerChar('Î') == 'î' && LowerChar('Û') == 'û' && LowerChar('I') == 'i'
  {
  }

  /** `s.toLowerCase()` */
  function Lower(s: string): (r: string)
    ensures |r| == |s|
    ensures forall i :: 0 <= i < |s| ==> r[i] == LowerChar(s[i])
  {
    if s == [] then [] else [LowerChar(s[0])] + Lower(s[1..])
  }

  predicate IsPrefix(p: string, s: string) {
    |p| <= |s| && s[..|p|] == p
  }

  /** `s.includes(sub)` */
  predicate Contains(s: string, sub: string)
    decreases |s|
  {
    IsPrefix(sub, s) || (|s| > 0 && Contains(s[1..], sub))
  }

  lemma {:induction false} ContainsAt(s: string, sub: string, i: nat)
    requires i + |sub| <= |s| && s[i..i + |sub|] == sub
    ensures Contains(s, sub)
    decreases i
  {
    if i > 0 {
      assert s[1..][i - 1..i - 1 + |sub|] == sub;
      ContainsAt(s[1..], sub, i - 1);
    } else {
      assert IsPrefix(sub, s);
    }
  }

  lemma ContainsEmpty(s: string)
    ensures Contains(s, "")
  {
    assert IsPrefix("", s);
  }

  lemma ContainsSelf(s: string)
    ensures Contains(s, s)
  {
    assert IsPrefix(s, s);
  }

  /** `s.trimStart()` */
  function TrimStart(s: string): (r: string)
    ensures |r| <= |s| && r == s[|s| - |r|..]
    ensures r == [] || !IsSpace(r[0])
  {
    if s != [] && IsSpace(s[0]) then TrimStart(s[1..]) else s
  }

  /** `s.trimEnd()` */
  function TrimEnd(s: string): (r: string)
    ensures |r| <= |s| && r == s[..|r|]
    ensures r == [] || !IsSpace(r[|r| - 1])
  {
    if s != [] && IsSpace(s[|s| - 1]) then TrimEnd(s[..|s| - 1]) else s
  }

  /** `s.trim()` */
  function Trim(s: string): string {
    TrimEnd(TrimStart(s))
  }

  lemma TrimNoSpaces(s: string)
    requires s == [] || (!IsSpace(s[0]) && !IsSpace(s[|s| - 1]))
    ensures Trim(s) == s
  {
  }

  /** `s.replace(c, repl)` with a one-character string pattern: only the first
      occurrence is replaced. */
  function ReplaceFirst(s: string, c: char, repl: string): string {
    if s == [] then []
    else if s[0] == c then repl + s[1..]
    else [s[0]] + ReplaceFirst(s[1..], c, repl)
  }

  /** Without an occurrence of `c` there is nothing to replace. */
  lemma {:induction false} ReplaceFirstAbsent(s: string, c: char, repl: string)
    requires c !in s
    ensures ReplaceFirst(s, c, repl) == s
  {
    if s != [] {
      assert s[0] != c && c !in s[1..];
      ReplaceFirstAbsent(s[1..], c, repl);
    }
  }

  lemma {:induction false} ReplaceFirstSplit(a: string, c: char, repl: string, b: string)
    requires c !in a
    ensures ReplaceFirst(a + [c] + b, c, repl) == a + repl + b
  {
    if a != [] {
      assert (a + [c] + b)[1..] == a[1..] + [c] + b;
      ReplaceFirstSplit(a[1..], c, repl, b);
    } else {
      assert (a + [c] + b) == [c] + b;
    }
  }

  /** `s.replace(/c/g, '')`: every occurrence of `c` removed. */
  function RemoveAll(s: string, c: char): (r: string)
    ensures c !in r
    ensures |r| <= |s|
    ensures forall x :: x in r ==> x in s
  {
    if s == [] then [] else (if s[0] == c then [] else [s[0]]) + RemoveAll(s[1..], c)
  }

  lemma {:induction false} RemoveAllAbsent(s: string, c: char)
    requires c !in s
    ensures RemoveAll(s, c) == s
  {
    if s != [] {
      RemoveAllAbsent(s[1..], c);
    }
  }

  lemma {:induction false} RemoveAllAppend(a: string, b: string, c: char)
    ensures RemoveAll(a + b, c) == RemoveAll(a, c) + RemoveAll(b, c)
  {
    if a != [] {
      assert (a + b)[1..] == a[1..] + b;
      RemoveAllAppend(a[1..], b, c);
    } else {
      assert a + b == b;
    }
  }

  /** Removing the one separator between two separator-free parts joins them. */
  lemma RemoveAllSep(a: string, c: char, b: string)
    requires c !in a && c !in b
    ensures RemoveAll(a + [c] + b, c) == a + b
  {
    RemoveAllAppend(a, [c], c);
    RemoveAllAbsent(a, c);
    assert RemoveAll([c], c) == [];
    assert RemoveAll(a + [c], c) == a;
    RemoveAllAppend(a + [c], b, c);
    RemoveAllAbsent(b, c);
  }

  /** `s.replace(/\s/g, '')`: all white space removed. */
  function RemoveSpaces(s: string): (r: string)
    ensures |r| <= |s|
    ensures forall i :: 0 <= i < |r| ==> !IsSpace(r[i])
  {
    if s == [] then [] else (if IsSpace(s[0]) then [] else [s[0]]) + RemoveSpaces(s[1..])
  }

  lemma {:induction false} RemoveSpacesNone(s: string)
    requires forall i :: 0 <= i < |s| ==> !IsSpace(s[i])
    ensures RemoveSpaces(s) == s
  {
    if s != [] {
      assert !IsSpace(s[0]);
      RemoveSpacesNone(s[1..]);
    }
  }

  /** `s.lastIndexOf(c)`, -1 when absent. */
  function LastIndexOf(s: string, c: char): (r: int)
    ensures -1 <= r < |s|
    ensures r == -1 <==> c !in s
    ensures r >= 0 ==> s[r] == c && c !in s[r + 1..]
  {
    if s == [] then -1
    else if s[|s| - 1] == c then |s| - 1
    else LastIndexOf(s[..|s| - 1], c)
  }

  lemma LastIndexOfSplit(a: string, c: char, b: string)
    requires c !in b
    ensures LastIndexOf(a + [c] + b, c) == |a|
  {
    var s := a + [c] + b;
    assert s[|a|] == c;
    assert s[|a| + 1..] == b;
  }

  /** `s.split(c)` with a one-character separator. */
  function Split(s: string, c: char): (parts: seq<string>)
    ensures |parts| >= 1
    ensures forall k :: 0 <= k < |parts| ==> c !in parts[k]
  {
    if s == [] then [[]]
    else
      var rest := Split(s[1..], c);
      if s[0] == c then [[]] + rest else [[s[0]] + rest[0]] + rest[1..]
  }

  lemma {:induction false} SplitAbsent(s: string, c: char)
    requires c !in s
    ensures Split(s, c) == [s]
  {
    if s != [] {
      assert c !in s[1..] && s[0] != c;
      SplitAbsent(s[1..], c);
      assert [s[0]] + s[1..] == s;
    }
  }

  lemma {:induction false} SplitOnce(a: string, c: char, b: string)
    requires c !in a && c !in b
    ensures Split(a + [c] + b, c) == [a, b]
  {
    if a == [] {
      assert a + [c] + b == [c] + b;
      assert ([c] + b)[1..] == b;
      SplitAbsent(b, c);
    } else {
      var s := a + [c] + b;
      assert s[0] == a[0] != c;
      assert s[1..] == a[1..] + [c] + b;
      SplitOnce(a[1..], c, b);
      assert [a[0]] + a[1..] == a;
    }
  }

  /** `parts.join(sep)` */
  function Join(parts: seq<string>, sep: string): string {
    if parts == [] then []
    else if |parts| == 1 then parts[0]
    else parts[0] + sep + Join(parts[1..], sep)
  }
}
