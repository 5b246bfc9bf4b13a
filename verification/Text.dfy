/** The few operations of Go's strings package that the stage logic depends on. */
module Text {
  import opened Sorting

  /** unicode.IsSpace. */
  predicate IsSpace(c: char) {
    c in {'\t', '\n', '\U{0B}', '\U{0C}', '\r', ' ', '\U{85}', '\U{A0}', '\U{1680}',
          '\U{2028}', '\U{2029}', '\U{202F}', '\U{205F}', '\U{3000}'}
    || '\U{2000}' <= c <= '\U{200A}'
  }

  /** Among ASCII characters: the blank, the tab and the four line and page breaks. */
  lemma AsciiSpaces(c: char)
    requires c < '\U{80}'
    ensures IsSpace(c) <==> c == ' ' || c as int in {9, 10, 11, 12, 13}
  {
  }

  function TrimLeft(s: string): string {
    if s != "" && IsSpace(s[0]) then TrimLeft(s[1..]) else s
  }

  function TrimRight(s: string): string {
    if s != "" && IsSpace(s[|s| - 1]) then TrimRight(s[..|s| - 1]) else s
  }

  function TrimSpace(s: string): string {
    TrimRight(TrimLeft(s))
  }

  lemma Unspaced(s: string)
    requires s != "" && !IsSpace(s[0]) && !IsSpace(s[|s| - 1])
    ensures TrimSpace(s) == s
  {
  }

  predicate AllSpaces(s: string) {
    forall i :: 0 <= i < |s| ==> IsSpace(s[i])
  }

  lemma {:induction false} TrimLeftOf(before: string, s: string)
    requires AllSpaces(before)
    ensures TrimLeft(before + s) == TrimLeft(s)
  {
    if before == "" {
      assert before + s == s;
    } else {
      assert (before + s)[1..] == before[1..] + s;
      TrimLeftOf(before[1..], s);
    }
  }

  lemma {:induction false} TrimRightOf(s: string, after: string)
    requires AllSpaces(after)
    ensures TrimRight(s + after) == TrimRight(s)
  {
    if after == "" {
      assert s + after == s;
    } else {
      assert (s + after)[..|s + after| - 1] == s + after[..|after| - 1];
      TrimRightOf(s, after[..|after| - 1]);
    }
  }

  lemma {:induction false} TrimLeftBefore(s: string, after: string)
    requires AllSpaces(after)
    ensures TrimLeft(s + after) == if TrimLeft(s) == "" then "" else TrimLeft(s) + after
  {
    if s == "" {
      assert after + "" == after && s + after == after;
      TrimLeftOf(after, "");
    } else if IsSpace(s[0]) {
      assert (s + after)[1..] == s[1..] + after;
      TrimLeftBefore(s[1..], after);
    }
  }

  lemma {:induction false} TrimLeftStarts(s: string)
    ensures TrimLeft(s) != "" ==> !IsSpace(TrimLeft(s)[0])
  {
    if s != "" && IsSpace(s[0]) {
      TrimLeftStarts(s[1..]);
    }
  }

  lemma {:induction false} TrimRightEnds(s: string)
    ensures TrimRight(s) <= s && TrimRight(TrimRight(s)) == TrimRight(s)
  {
    if s != "" && IsSpace(s[|s| - 1]) {
      TrimRightEnds(s[..|s| - 1]);
    }
  }

  lemma TrimTwice(s: string)
    ensures TrimSpace(TrimSpace(s)) == TrimSpace(s)
  {
    TrimLeftStarts(s);
    TrimRightEnds(TrimLeft(s));
    var t := TrimSpace(s);
    assert t != "" ==> t[0] == TrimLeft(s)[0];
    assert TrimLeft(t) == t;
  }

  lemma {:induction false} TrimLeftCuts(s: string) returns (before: string)
    ensures AllSpaces(before) && s == before + TrimLeft(s)
  {
    before := "";
    if s != "" && IsSpace(s[0]) {
      var rest := TrimLeftCuts(s[1..]);
      before := [s[0]] + rest;
    }
  }

  lemma {:induction false} TrimRightCuts(s: string) returns (after: string)
    ensures AllSpaces(after) && s == TrimRight(s) + after
    ensures TrimRight(s) != "" ==> !IsSpace(TrimRight(s)[|TrimRight(s)| - 1])
  {
    after := "";
    if s != "" && IsSpace(s[|s| - 1]) {
      var rest := TrimRightCuts(s[..|s| - 1]);
      after := rest + [s[|s| - 1]];
    }
  }

  /** Trimming cuts spaces off both ends, and all of them. */
  lemma TrimCuts(s: string) returns (before: string, after: string)
    ensures AllSpaces(before) && AllSpaces(after) && s == before + TrimSpace(s) + after
    ensures var t := TrimSpace(s); t != "" ==> !IsSpace(t[0]) && !IsSpace(t[|t| - 1])
  {
    before := TrimLeftCuts(s);
    after := TrimRightCuts(TrimLeft(s));
    TrimLeftStarts(s);
    var t := TrimSpace(s);
    assert t != "" ==> t[0] == TrimLeft(s)[0];
  }

  /** Spaces around a text do not matter. */
  lemma TrimIgnoresSpaces(before: string, s: string, after: string)
    requires AllSpaces(before) && AllSpaces(after)
    ensures TrimSpace(before + s + after) == TrimSpace(s)
  {
    assert before + s + after == before + (s + after);
    TrimLeftOf(before, s + after);
    TrimLeftBefore(s, after);
    TrimRightOf(TrimLeft(s), after);
  }

  predicate Blank(s: string) {
    TrimSpace(s) == ""
  }

  /** unicode.ToLower, as far as the result is an ASCII letter: the Kelvin sign and the dotted
      capital I fold to ASCII as well. Other characters never become ASCII and are kept. */
  function Lower(c: char): char {
    if 'A' <= c <= 'Z' then (c as int + 32) as char
    else if c == '\U{212A}' then 'k'
    else if c == '\U{0130}' then 'i'
    else c
  }

  function ToLower(s: string): (r: string)
    ensures |r| == |s|
  {
    seq(|s|, i requires 0 <= i < |s| => Lower(s[i]))
  }

  lemma {:induction false} LowerTrimsLeft(s: string)
    ensures TrimLeft(ToLower(s)) == ToLower(TrimLeft(s))
  {
    if s != "" && IsSpace(s[0]) {
      assert ToLower(s)[1..] == ToLower(s[1..]);
      LowerTrimsLeft(s[1..]);
    }
  }

  lemma {:induction false} LowerTrimsRight(s: string)
    ensures TrimRight(ToLower(s)) == ToLower(TrimRight(s))
  {
    if s != "" && IsSpace(s[|s| - 1]) {
      assert ToLower(s)[..|s| - 1] == ToLower(s[..|s| - 1]);
      LowerTrimsRight(s[..|s| - 1]);
    }
  }

  lemma LowerTrims(s: string)
    ensures TrimSpace(ToLower(s)) == ToLower(TrimSpace(s))
  {
    LowerTrimsLeft(s);
    LowerTrimsRight(TrimLeft(s));
  }

  /** Bytes of a character in UTF-8. */
  function Utf8Width(c: char): nat {
    if c < '\U{80}' then 1 else if c < '\U{800}' then 2 else if c < '\U{10000}' then 3 else 4
  }

  /** One byte for 7 bits, two for 11, three for 16, and four beyond. */
  lemma Utf8Bits(c: char)
    ensures Utf8Width(c) == if c as int < 128 then 1 else if c as int < 2048 then 2 else if c as int < 65536 then 3
                            else 4
  {
  }

  /** Go's len of a string. */
  function ByteLength(s: string): nat {
    if s == "" then 0 else ByteLength(s[..|s| - 1]) + Utf8Width(s[|s| - 1])
  }

  lemma {:induction false} AsciiLength(s: string)
    requires forall i :: 0 <= i < |s| ==> s[i] < '\U{80}'
    ensures ByteLength(s) == |s|
  {
    if s != "" {
      AsciiLength(s[..|s| - 1]);
    }
  }

  predicate HasSuffix(s: string, p: string) {
    |p| <= |s| && s[|s| - |p|..] == p
  }

  function TrimSuffix(s: string, p: string): string {
    if HasSuffix(s, p) then s[..|s| - |p|] else s
  }

  predicate Contains(s: string, p: string) {
    exists i :: 0 <= i <= |s| && p <= s[i..]
  }

  /** p stands somewhere in s. */
  lemma ContainsMeans(s: string, p: string)
    ensures Contains(s, p) <==> exists before, after: string :: s == before + p + after
  {
    if Contains(s, p) {
      var i :| 0 <= i <= |s| && p <= s[i..];
      assert s == s[..i] + p + s[i..][|p|..];
    }
    forall before, after: string | s == before + p + after ensures Contains(s, p) {
      assert s[|before|..] == p + after;
    }
  }

  /** Go's <= on strings. */
  predicate StringLe(a: string, b: string) {
    if a == "" then true
    else if b == "" then false
    else if a[0] == b[0] then StringLe(a[1..], b[1..])
    else a[0] < b[0]
  }

  /** a comes first where they differ first, or it ends there. */
  ghost predicate Precedes(a: string, b: string, i: int) {
    && 0 <= i <= |a| && i <= |b| && a[..i] == b[..i]
    && (i == |a| || (i < |b| && a[i] < b[i]))
  }

  lemma {:induction false} StringLeMeans(a: string, b: string)
    ensures StringLe(a, b) <==> exists i :: Precedes(a, b, i)
  {
    if a == "" {
      assert Precedes(a, b, 0);
    } else if b != "" && a[0] == b[0] {
      StringLeMeans(a[1..], b[1..]);
      if i :| Precedes(a[1..], b[1..], i) {
        assert a[..i + 1] == [a[0]] + a[1..][..i] && b[..i + 1] == [b[0]] + b[1..][..i];
        assert Precedes(a, b, i + 1);
      }
      if i :| Precedes(a, b, i) {
        if i > 0 {
          assert a[1..][..i - 1] == a[..i][1..] && b[1..][..i - 1] == b[..i][1..];
          assert Precedes(a[1..], b[1..], i - 1);
        }
      }
    } else if b != "" {
      assert a[0] < b[0] ==> Precedes(a, b, 0);
      forall i | Precedes(a, b, i) ensures a[0] < b[0] {
        assert a[..i] == b[..i];
      }
    }
  }

  lemma {:induction false} StringLeTotal(a: string, b: string)
    ensures StringLe(a, a)
    ensures StringLe(a, b) || StringLe(b, a)
    ensures StringLe(a, b) && StringLe(b, a) ==> a == b
    decreases |a|
  {
    if a != "" {
      StringLeTotal(a[1..], a[1..]);
      if b != "" {
        StringLeTotal(a[1..], b[1..]);
        assert a == [a[0]] + a[1..] && b == [b[0]] + b[1..];
      }
    }
  }

  lemma {:induction false} StringLeTransitive(a: string, b: string, c: string)
    requires StringLe(a, b) && StringLe(b, c)
    ensures StringLe(a, c)
  {
    if a != "" && a[0] == b[0] == c[0] {
      StringLeTransitive(a[1..], b[1..], c[1..]);
    }
  }

  lemma StringOrder()
    ensures TotalOrder(StringLe)
  {
    forall x, y ensures StringLe(x, x) && (StringLe(x, y) || StringLe(y, x))
                     && (StringLe(x, y) && StringLe(y, x) ==> x == y) {
      StringLeTotal(x, y);
    }
    forall x, y, z | StringLe(x, y) && StringLe(y, z) ensures StringLe(x, z) {
      StringLeTransitive(x, y, z);
    }
  }
}
