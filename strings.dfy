/** The JavaScript string operations the plugin relies on, written out over `seq<char>`:
    `trim`, `startsWith`, `includes`, `Array.prototype.join`, `filter(Boolean)` on strings and
    the decimal `toString` / `parseInt` of non-negative line numbers, and `length` counted in
    UTF-16 code units. */
module Strings {

  /** JavaScript's WhiteSpace and LineTerminator characters: what `String.prototype.trim`
      removes and what the regular-expression class `\s` matches. */
  predicate IsJsWhitespace(c: char) {
    || c == '\t' || c == '\n' || c == '\U{000B}' || c == '\U{000C}' || c == '\r' || c == ' '
    || c == '\U{00A0}' || c == '\U{1680}' || ('\U{2000}' <= c <= '\U{200A}')
    || c == '\U{2028}' || c == '\U{2029}' || c == '\U{202F}' || c == '\U{205F}'
    || c == '\U{3000}' || c == '\U{FEFF}'
  }

  predicate AllWhitespace(s: string) {
    forall i :: 0 <= i < |s| ==> IsJsWhitespace(s[i])
  }

  /** `s.startsWith(p)` */
  predicate StartsWith(s: string, p: string) {
    |p| <= |s| && s[..|p|] == p
  }

  /** `s.endsWith(p)` */
  predicate EndsWith(s: string, p: string) {
    |p| <= |s| && s[|s| - |p|..] == p
  }

  /** `s.includes(sub)` */
  predicate Includes(s: string, sub: string) {
    exists i :: 0 <= i <= |s| - |sub| && OccursAt(s, sub, i)
  }

  predicate OccursAt(s: string, sub: string, i: int)
    requires 0 <= i <= |s| - |sub|
  {
    s[i..i + |sub|] == sub
  }

  /** Leading whitespace removed: the result is a suffix of `s` (`TrimStartCut` says what was
      cut off and how the result starts). */
  function TrimStart(s: string): (r: string)
    ensures |r| <= |s|
  {
    if |s| > 0 && IsJsWhitespace(s[0]) then TrimStart(s[1..]) else s
  }

  lemma {:induction false} TrimStartCut(s: string)
    ensures TrimStart(s) == s[|s| - |TrimStart(s)|..]
    ensures AllWhitespace(s[..|s| - |TrimStart(s)|])
    ensures TrimStart(s) == [] || !IsJsWhitespace(TrimStart(s)[0])
  {
    if |s| > 0 && IsJsWhitespace(s[0]) {
      var r := TrimStart(s[1..]);
      assert TrimStart(s) == r;
      TrimStartCut(s[1..]);
      assert s[1..][|s| - 1 - |r|..] == s[|s| - |r|..];
      var cut := s[1..][..|s| - 1 - |r|];
      var pre := s[..|s| - |r|];
      assert pre == [s[0]] + cut;
      forall i | 0 <= i < |pre| ensures IsJsWhitespace(pre[i]) {
        if i > 0 {
          assert pre[i] == cut[i - 1];
        }
      }
    }
  }

  /** Trailing whitespace removed: the result is a prefix of `s` (`TrimEndCut` says what was cut
      off and how the result ends). */
  function TrimEnd(s: string): (r: string)
    ensures |r| <= |s|
  {
    if |s| > 0 && IsJsWhitespace(s[|s| - 1]) then TrimEnd(s[..|s| - 1]) else s
  }

  lemma {:induction false} TrimEndCut(s: string)
    ensures TrimEnd(s) == s[..|TrimEnd(s)|]
    ensures AllWhitespace(s[|TrimEnd(s)|..])
    ensures TrimEnd(s) == [] || !IsJsWhitespace(TrimEnd(s)[|TrimEnd(s)| - 1])
  {
    if |s| > 0 && IsJsWhitespace(s[|s| - 1]) {
      var r := TrimEnd(s[..|s| - 1]);
      assert TrimEnd(s) == r;
      TrimEndCut(s[..|s| - 1]);
      assert s[..|s| - 1][..|r|] == s[..|r|];
      var cut := s[..|s| - 1][|r|..];
      var post := s[|r|..];
      assert post == cut + [s[|s| - 1]];
      forall i | 0 <= i < |post| ensures IsJsWhitespace(post[i]) {
        if i < |cut| {
          assert post[i] == cut[i];
        }
      }
    }
  }

  /** `s.trim()`: an infix of `s` (`TrimIsInfix` says which one). */
  function Trim(s: string): (r: string)
    ensures |r| <= |s|
  {
    TrimEnd(TrimStart(s))
  }

  /** What `trim` keeps is an infix of its input that neither starts nor ends with whitespace
      and whose surroundings are all whitespace. */
  lemma TrimIsInfix(s: string)
    ensures exists i :: 0 <= i <= |s| - |Trim(s)| && Trim(s) == s[i..i + |Trim(s)|]
                      && AllWhitespace(s[..i]) && AllWhitespace(s[i + |Trim(s)|..])
    ensures Trim(s) == [] || (!IsJsWhitespace(Trim(s)[0]) && !IsJsWhitespace(Trim(s)[|Trim(s)| - 1]))
  {
    var t := TrimStart(s);
    var r := Trim(s);
    TrimStartCut(s);
    TrimEndCut(t);
    var i := |s| - |t|;
    assert r == s[i..i + |r|];
    assert s[i + |r|..] == t[|r|..];
    if r != [] {
      assert r[0] == t[0];
    }
  }

  lemma {:induction false} TrimOfTrimmed(s: string)
    requires s == [] || (!IsJsWhitespace(s[0]) && !IsJsWhitespace(s[|s| - 1]))
    ensures Trim(s) == s
  {
  }

  // ---------------------------------------------------------------------------------------
  // UTF-16 code units

  /** How many UTF-16 code units a character takes in a JavaScript string: one inside the
      Basic Multilingual Plane, two (a surrogate pair) outside it. */
  function Utf16Units(c: char): (n: nat)
    ensures 1 <= n <= 2
  {
    if c as int < 0x1_0000 then 1 else 2
  }

  /** `s.length`: the number of UTF-16 code units of `s`, which is also the column just past
      its end in an editor position. */
  function Utf16Length(s: string): (n: nat)
    ensures |s| <= n <= 2 * |s|
  {
    if s == [] then 0 else Utf16Units(s[0]) + Utf16Length(s[1..])
  }

  /** Text made of Basic Multilingual Plane characters only. */
  predicate InBmp(s: string) {
    forall i :: 0 <= i < |s| ==> s[i] as int < 0x1_0000
  }

  /** On Basic Multilingual Plane text, code units and characters coincide. */
  lemma {:induction false} Utf16LengthOfBmp(s: string)
    requires InBmp(s)
    ensures Utf16Length(s) == |s|
  {
    if s != [] {
      assert InBmp(s[1..]) by {
        forall i | 0 <= i < |s| - 1 ensures s[1..][i] as int < 0x1_0000 {
          assert s[1..][i] == s[i + 1];
        }
      }
      Utf16LengthOfBmp(s[1..]);
    }
  }

  /** The longest prefix of `s` that fits in `n` code units: the text a column range `[0, n)`
      of one line covers (`Utf16PrefixSpec` says so). */
  function Utf16Prefix(s: string, n: nat): string {
    if s == [] || n < Utf16Units(s[0]) then [] else [s[0]] + Utf16Prefix(s[1..], n - Utf16Units(s[0]))
  }

  /** The prefix fits, cannot be extended by the next character, is all of `s` when `s` fits,
      and is empty only when the first character does not fit. */
  lemma {:induction false} Utf16PrefixSpec(s: string, n: nat)
    ensures var r := Utf16Prefix(s, n);
            && StartsWith(s, r) && Utf16Length(r) <= n
            && (|r| == |s| || n < Utf16Length(r) + Utf16Units(s[|r|]))
            && (Utf16Length(s) <= n ==> r == s)
            && (s != [] && 2 <= n ==> r != [])
  {
    if s != [] && Utf16Units(s[0]) <= n {
      var rest := Utf16Prefix(s[1..], n - Utf16Units(s[0]));
      Utf16PrefixSpec(s[1..], n - Utf16Units(s[0]));
      assert ([s[0]] + rest)[1..] == rest;
      assert s == [s[0]] + s[1..];
    }
  }

  predicate IsDigit(c: char) {
    '0' <= c <= '9'
  }

  predicate AllDigits(s: string) {
    forall i :: 0 <= i < |s| ==> IsDigit(s[i])
  }

  function DigitChar(d: nat): (c: char)
    requires d < 10
    ensures IsDigit(c) && DigitValue(c) == d
  {
    (('0' as int) + d) as char
  }

  function DigitValue(c: char): nat
    requires IsDigit(c)
  {
    (c as int) - ('0' as int)
  }

  /** `n.toString()` for a non-negative integer: its decimal digits, most significant first,
      with no leading zero. */
  function NatToString(n: nat): (r: string)
    ensures |r| > 0 && AllDigits(r)
    ensures r[0] == '0' ==> n == 0
  {
    if n < 10 then [DigitChar(n)] else NatToString(n / 10) + [DigitChar(n % 10)]
  }

  /** `parseInt(s, 10)` of a string of decimal digits. */
  function ParseDigits(s: string): nat
    requires AllDigits(s)
  {
    if s == [] then 0 else ParseDigits(s[..|s| - 1]) * 10 + DigitValue(s[|s| - 1])
  }

  /** Reading back the decimal form of a line number gives that number. */
  lemma {:induction false} ParseNatToString(n: nat)
    ensures ParseDigits(NatToString(n)) == n
  {
    var r := NatToString(n);
    if n >= 10 {
      ParseNatToString(n / 10);
      assert r[..|r| - 1] == NatToString(n / 10);
    }
  }

  /** Distinct line numbers give distinct result keys. */
  lemma NatToStringInjective(a: nat, b: nat)
    ensures NatToString(a) == NatToString(b) <==> a == b
  {
    if NatToString(a) == NatToString(b) {
      ParseNatToString(a);
      ParseNatToString(b);
    }
  }

  /** `parts.join(sep)` */
  function Join(parts: seq<string>, sep: string): string {
    if |parts| == 0 then ""
    else if |parts| == 1 then parts[0]
    else parts[0] + sep + Join(parts[1..], sep)
  }

  /** `parts.filter(Boolean)` on strings: the empty strings dropped, the rest kept in order. */
  function NonEmpty(parts: seq<string>): (r: seq<string>)
    ensures |r| <= |parts|
    ensures forall i :: 0 <= i < |r| ==> r[i] != "" && r[i] in parts
  {
    if parts == [] then [] else (if parts[0] == "" then [] else [parts[0]]) + NonEmpty(parts[1..])
  }

  lemma {:induction false} NonEmptyConcat(a: seq<string>, b: seq<string>)
    ensures NonEmpty(a + b) == NonEmpty(a) + NonEmpty(b)
  {
    if a == [] {
      assert a + b == b;
    } else {
      assert (a + b)[0] == a[0];
      assert (a + b)[1..] == a[1..] + b;
      NonEmptyConcat(a[1..], b);
    }
  }

  lemma {:induction false} NonEmptyKeepsAll(parts: seq<string>)
    requires forall i :: 0 <= i < |parts| ==> parts[i] != ""
    ensures NonEmpty(parts) == parts
  {
    if parts != [] {
      NonEmptyKeepsAll(parts[1..]);
    }
  }

  lemma {:induction false} NonEmptyDropsAll(parts: seq<string>)
    requires forall i :: 0 <= i < |parts| ==> parts[i] == ""
    ensures NonEmpty(parts) == []
  {
    if parts != [] {
      NonEmptyDropsAll(parts[1..]);
    }
  }

  /** `parts.filter(Boolean).join(sep)` */
  function JoinNonEmpty(parts: seq<string>, sep: string): string {
    Join(NonEmpty(parts), sep)
  }

  /** Two pieces of a `filter(Boolean).join(sep)`: an empty one vanishes, two non-empty ones
      get one separator between them. */
  function Glue(a: string, b: string, sep: string): string {
    if a == "" then b else if b == "" then a else a + sep + b
  }

  /** A join of non-empty parts is empty only when there are no parts. */
  lemma JoinOfNonEmptyParts(parts: seq<string>, sep: string)
    requires forall i :: 0 <= i < |parts| ==> parts[i] != ""
    ensures Join(parts, sep) == "" <==> parts == []
  {
    if |parts| >= 1 {
      JoinHead(parts, sep);
    }
  }

  /** `filter(Boolean).join(sep)` unfolds from the front one piece at a time. */
  lemma JoinNonEmptyCons(a: string, rest: seq<string>, sep: string)
    ensures JoinNonEmpty([a] + rest, sep) == Glue(a, JoinNonEmpty(rest, sep), sep)
  {
    NonEmptyConcat([a], rest);
    assert [a][1..] == [];
    assert NonEmpty([a]) == if a == "" then [] else [a];
    var tail := NonEmpty(rest);
    JoinOfNonEmptyParts(tail, sep);
    if a != "" {
      assert ([a] + tail)[1..] == tail;
      JoinHead([a] + tail, sep);
    } else {
      assert [] + tail == tail;
    }
  }

  /** Gluing something in front keeps the end of the text. */
  lemma GlueKeepsEnd(a: string, b: string, sep: string, suffix: string)
    requires EndsWith(b, suffix) && suffix != ""
    ensures EndsWith(Glue(a, b, sep), suffix) && Glue(a, b, sep) != ""
  {
    if a != "" {
      var r := a + sep + b;
      assert r[|r| - |suffix|..] == b[|b| - |suffix|..];
    }
  }

  /** A join whose last part is non-empty ends with that part. */
  lemma {:induction false} JoinNonEmptyEndsWithLast(parts: seq<string>, sep: string)
    requires |parts| > 0 && parts[|parts| - 1] != ""
    ensures EndsWith(JoinNonEmpty(parts, sep), parts[|parts| - 1])
    decreases |parts|
  {
    var last := parts[|parts| - 1];
    assert parts == [parts[0]] + parts[1..];
    JoinNonEmptyCons(parts[0], parts[1..], sep);
    if |parts| == 1 {
      assert parts[1..] == [];
      assert JoinNonEmpty(parts[1..], sep) == "";
      assert EndsWith(last, last);
    } else {
      JoinNonEmptyEndsWithLast(parts[1..], sep);
      GlueKeepsEnd(parts[0], JoinNonEmpty(parts[1..], sep), sep, last);
    }
  }

  /** The short argument lists the runners join, unfolded. */
  lemma JoinNonEmpty2(a: string, b: string, sep: string)
    ensures JoinNonEmpty([a, b], sep) == Glue(a, b, sep)
  {
    assert [a, b] == [a] + [b];
    assert [b] == [b] + [];
    JoinNonEmptyCons(a, [b], sep);
    JoinNonEmptyCons(b, [], sep);
  }

  lemma JoinNonEmpty3(a: string, b: string, c: string, sep: string)
    ensures JoinNonEmpty([a, b, c], sep) == Glue(a, Glue(b, c, sep), sep)
  {
    assert [a, b, c] == [a] + [b, c];
    JoinNonEmptyCons(a, [b, c], sep);
    JoinNonEmpty2(b, c, sep);
  }

  lemma JoinNonEmpty4(a: string, b: string, c: string, d: string, sep: string)
    ensures JoinNonEmpty([a, b, c, d], sep) == Glue(a, Glue(b, Glue(c, d, sep), sep), sep)
  {
    assert [a, b, c, d] == [a] + [b, c, d];
    JoinNonEmptyCons(a, [b, c, d], sep);
    JoinNonEmpty3(b, c, d, sep);
  }

  lemma JoinNonEmpty6(a: string, b: string, c: string, d: string, e: string, f: string, sep: string)
    ensures JoinNonEmpty([a, b, c, d, e, f], sep)
              == Glue(a, Glue(b, Glue(c, Glue(d, Glue(e, f, sep), sep), sep), sep), sep)
  {
    assert [a, b, c, d, e, f] == [a, b] + [c, d, e, f];
    assert [a, b] + [c, d, e, f] == [a] + ([b] + [c, d, e, f]);
    JoinNonEmptyCons(a, [b] + [c, d, e, f], sep);
    JoinNonEmptyCons(b, [c, d, e, f], sep);
    JoinNonEmpty4(c, d, e, f, sep);
  }

  /** `s.split(sep)` for a one-character separator: the pieces between separators, the empty
      ones included, so there is always at least one. */
  function Split(s: string, sep: char): (r: seq<string>)
    ensures |r| >= 1
    ensures forall i :: 0 <= i < |r| ==> sep !in r[i]
  {
    if s == [] then [""]
    else
      var rest := Split(s[1..], sep);
      if s[0] == sep then [""] + rest else [[s[0]] + rest[0]] + rest[1..]
  }

  /** Joining the pieces with the separator gives back the text. */
  lemma {:induction false} JoinSplit(s: string, sep: char)
    ensures Join(Split(s, sep), [sep]) == s
  {
    if s != [] {
      var rest := Split(s[1..], sep);
      JoinSplit(s[1..], sep);
      if s[0] == sep {
        assert Split(s, sep) == [""] + rest;
        assert ([""] + rest)[1..] == rest;
        assert Join(Split(s, sep), [sep]) == "" + [sep] + Join(rest, [sep]);
        assert s == [s[0]] + s[1..];
      } else {
        var r := [[s[0]] + rest[0]] + rest[1..];
        assert Split(s, sep) == r;
        JoinHead(rest, [sep]);
        if |rest| == 1 {
          assert r == [[s[0]] + rest[0]];
        } else {
          assert r[1..] == rest[1..];
          assert Join(r, [sep]) == [s[0]] + rest[0] + [sep] + Join(rest[1..], [sep]);
        }
        assert s == [s[0]] + s[1..];
      }
    }
  }

  /** Unfolding `Join` at the front of a non-empty list. */
  lemma JoinHead(parts: seq<string>, sep: string)
    requires |parts| >= 1
    ensures Join(parts, sep) == parts[0] + (if |parts| == 1 then "" else sep + Join(parts[1..], sep))
  {
  }

  /** Splitting on the separator never loses a piece: there is one more piece than there are
      separators. */
  lemma {:induction false} SplitCount(s: string, sep: char)
    ensures |Split(s, sep)| == multiset(s)[sep] + 1
  {
    if s != [] {
      SplitCount(s[1..], sep);
      assert s == [s[0]] + s[1..];
      assert multiset(s) == multiset([s[0]]) + multiset(s[1..]);
    }
  }
}
