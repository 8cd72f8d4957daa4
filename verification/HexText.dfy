/**
 Hexadecimal texts as the genesis scripts read them: lower-cased, every `0x` removed, the
 length of the text checked, and then taken in pairs of digits with white space skipped
 between the pairs.
 */
module HexText {
  import opened Basics

  /** ASCII white space. */
  predicate IsBlank(c: char) {
    c == ' ' || '\t' <= c <= '\r'
  }

  function LowerChar(c: char): char {
    if 'A' <= c <= 'Z' then (c as int + 32) as char else c
  }

  /** `s.lower()`. */
  function Lower(s: string): string {
    if s == "" then "" else [LowerChar(s[0])] + Lower(s[1..])
  }

  /** `s.replace("0x", "")`. */
  function WithoutPrefix(s: string): string {
    if s == "" then ""
    else if |s| >= 2 && s[0] == '0' && s[1] == 'x' then WithoutPrefix(s[2..])
    else [s[0]] + WithoutPrefix(s[1..])
  }

  function HexDigit(c: char): (d: Option<nat>)
    ensures d.Some? ==> d.value < 16
  {
    if '0' <= c <= '9' then Some(c as int - '0' as int)
    else if 'a' <= c <= 'f' then Some(c as int - 'a' as int + 10)
    else None
  }

  /** `bytes.fromhex` on a lower-case text. */
  function Pairs(s: string): Option<seq<Byte>> {
    if s == "" then Some([])
    else if IsBlank(s[0]) then Pairs(s[1..])
    else if |s| == 1 || HexDigit(s[0]).None? || HexDigit(s[1]).None? then None
    else
      var rest := Pairs(s[2..]);
      if rest.None? then None else Some([16 * HexDigit(s[0]).value + HexDigit(s[1]).value] + rest.value)
  }

  /** `address_bytes` and `b256_bytes`: a text of n characters beside its prefixes, read to bytes. */
  function Read(text: string, n: nat): Option<seq<Byte>> {
    var h := WithoutPrefix(Lower(text));
    if |h| != n then None else Pairs(h)
  }

  // ----- white space shortens what is read -----

  function Blanks(s: string): nat {
    if s == "" then 0 else (if IsBlank(s[0]) then 1 else 0) + Blanks(s[1..])
  }

  predicate Blankless(s: string) {
    forall k :: 0 <= k < |s| ==> !IsBlank(s[k])
  }

  lemma {:induction false} BlanklessCounts(s: string)
    ensures Blankless(s) <==> Blanks(s) == 0
    decreases |s|
  {
    if s != "" {
      BlanklessCounts(s[1..]);
      if Blankless(s[1..]) && !IsBlank(s[0]) {
        forall k | 0 <= k < |s| ensures !IsBlank(s[k]) {
          if k > 0 { assert s[k] == s[1..][k - 1]; }
        }
      }
    }
  }

  lemma {:induction false} LowerKeepsBlanks(s: string)
    ensures Blanks(Lower(s)) == Blanks(s) && |Lower(s)| == |s|
    decreases |s|
  {
    if s != "" {
      LowerKeepsBlanks(s[1..]);
      assert Lower(s)[1..] == Lower(s[1..]);
    }
  }

  lemma {:induction false} PrefixKeepsBlanks(s: string)
    ensures Blanks(WithoutPrefix(s)) == Blanks(s)
    decreases |s|
  {
    if s != "" {
      if |s| >= 2 && s[0] == '0' && s[1] == 'x' {
        PrefixKeepsBlanks(s[2..]);
        assert s[1..][1..] == s[2..];
      } else {
        PrefixKeepsBlanks(s[1..]);
        assert WithoutPrefix(s)[1..] == WithoutPrefix(s[1..]);
      }
    }
  }

  lemma {:induction false} PairsLength(s: string)
    ensures Pairs(s).Some? ==> 2 * |Pairs(s).value| + Blanks(s) == |s|
    decreases |s|
  {
    if s != "" {
      if IsBlank(s[0]) { PairsLength(s[1..]); }
      else if |s| >= 2 {
        PairsLength(s[2..]);
        assert s[1..][1..] == s[2..];
      }
    }
  }

  /** A text is read to its full width exactly when it holds no white space; otherwise it falls short. */
  lemma FullExactlyWhen(text: string, n: nat)
    requires Read(text, 2 * n).Some?
    ensures |Read(text, 2 * n).value| <= n
    ensures |Read(text, 2 * n).value| == n <==> Blankless(text)
  {
    var h := WithoutPrefix(Lower(text));
    PairsLength(h);
    PrefixKeepsBlanks(Lower(text));
    LowerKeepsBlanks(text);
    BlanklessCounts(text);
  }

  // ----- reading plain digits -----

  /** Lower-case hexadecimal digits and nothing else. */
  predicate Digits(h: string) {
    forall k :: 0 <= k < |h| ==> HexDigit(h[k]).Some?
  }

  lemma {:induction false} LowerConcat(a: string, b: string)
    ensures Lower(a + b) == Lower(a) + Lower(b)
    decreases |a|
  {
    hide LowerChar;
    if a == "" {
      assert a + b == b;
    } else {
      LowerConcat(a[1..], b);
      assert (a + b)[1..] == a[1..] + b;
    }
  }

  /** Lower-casing leaves digits, blanks and other small letters alone. */
  lemma {:induction false} LowerPlain(s: string)
    requires forall k :: 0 <= k < |s| ==> !('A' <= s[k] <= 'Z')
    ensures Lower(s) == s
    decreases |s|
  {
    if s != "" { LowerPlain(s[1..]); }
  }

  lemma {:induction false} NothingToRemove(s: string)
    requires 'x' !in s
    ensures WithoutPrefix(s) == s
    decreases |s|
  {
    if s != "" { NothingToRemove(s[1..]); }
  }

  /** Blanks in front are kept by the removal and skipped by the reading. */
  lemma {:induction false} BlanksInFront(b: string, s: string)
    requires forall k :: 0 <= k < |b| ==> IsBlank(b[k])
    ensures WithoutPrefix(b + s) == b + WithoutPrefix(s) && Pairs(b + s) == Pairs(s)
    decreases |b|
  {
    if b == "" {
      assert b + s == s;
    } else {
      BlanksInFront(b[1..], s);
      assert (b + s)[1..] == b[1..] + s;
    }
  }

  /** Blanks behind digits change nothing. */
  lemma {:induction false} BlanksBehind(h: string, b: string)
    requires Digits(h) && forall k :: 0 <= k < |b| ==> IsBlank(b[k])
    ensures Pairs(h + b) == Pairs(h)
    decreases |h|
  {
    if h == "" {
      BlanksInFront(b, "");
      assert h + b == b + "";
    } else if |h| == 1 {
      if b != "" { assert (h + b)[1] == b[0]; }
    } else {
      BlanksBehind(h[2..], b);
      assert (h + b)[2..] == h[2..] + b;
    }
  }

  /** An even number of digits is read to the byte of each pair. */
  lemma {:induction false} PairsAt(h: string)
    requires Digits(h) && |h| % 2 == 0
    ensures Pairs(h).Some? && 2 * |Pairs(h).value| == |h|
    ensures forall k :: 0 <= k < |Pairs(h).value| ==>
            Pairs(h).value[k] == 16 * HexDigit(h[2 * k]).value + HexDigit(h[2 * k + 1]).value
    decreases |h|
  {
    hide HexDigit;
    if h != "" {
      assert !IsBlank(h[0]) by { DigitIsNoBlank(h[0]); }
      PairsAt(h[2..]);
    }
  }

  lemma DigitIsNoBlank(c: char)
    requires HexDigit(c).Some?
    ensures !IsBlank(c) && c != 'x' && !('A' <= c <= 'Z')
  {
  }

  lemma {:induction false} OddIsRefused(h: string)
    requires Digits(h) && |h| % 2 == 1
    ensures Pairs(h).None?
    decreases |h|
  {
    DigitIsNoBlank(h[0]);
    if |h| > 1 { OddIsRefused(h[2..]); }
  }

  // ----- texts made of one pair -----

  function Repeated(s: string, n: nat): (r: string)
    ensures |r| == n * |s|
  {
    if n == 0 then "" else s + Repeated(s, n - 1)
  }

  function Copies(b: Byte, n: nat): (r: seq<Byte>)
    ensures |r| == n && forall k :: 0 <= k < n ==> r[k] == b
  {
    seq(n, _ => b)
  }

  /** A digit pair, as often as one likes, is that byte as often. */
  lemma {:induction false} RepeatedReads(s: string, b: Byte, n: nat, rest: string)
    requires |s| == 2 && Digits(s) && b == 16 * HexDigit(s[0]).value + HexDigit(s[1]).value && Pairs(rest).Some?
    ensures Pairs(Repeated(s, n) + rest) == Some(Copies(b, n) + Pairs(rest).value)
    decreases n
  {
    DigitIsNoBlank(s[0]);
    if n == 0 {
      assert Repeated(s, n) + rest == rest && Copies(b, n) + Pairs(rest).value == Pairs(rest).value;
    } else {
      RepeatedReads(s, b, n - 1, rest);
      var text := Repeated(s, n) + rest;
      assert text[0] == s[0] && text[1] == s[1] && text[2..] == Repeated(s, n - 1) + rest;
      assert Copies(b, n) + Pairs(rest).value == [b] + (Copies(b, n - 1) + Pairs(rest).value);
    }
  }

  lemma {:induction false} RepeatedPlain(s: string, n: nat)
    requires forall k :: 0 <= k < |s| ==> s[k] == '0' || s[k] == '1'
    ensures forall k :: 0 <= k < |Repeated(s, n)| ==> Repeated(s, n)[k] == '0' || Repeated(s, n)[k] == '1'
    decreases n
  {
    if n > 0 { RepeatedPlain(s, n - 1); }
  }

  lemma {:induction false} BlanksRead(n: nat)
    ensures Pairs(Repeated(" ", n)) == Some([]) && forall k :: 0 <= k < n ==> Repeated(" ", n)[k] == ' '
    decreases n
  {
    if n > 0 {
      BlanksRead(n - 1);
      assert Repeated(" ", n)[1..] == Repeated(" ", n - 1);
    }
  }

  /** The number that digits write. */
  function HexValue(s: string): Option<nat> {
    if s == "" then Some(0)
    else
      var front, last := HexValue(s[..|s| - 1]), HexDigit(s[|s| - 1]);
      if front.Some? && last.Some? then Some(16 * front.value + last.value) else None
  }

  lemma {:induction false} HexValueDigits(s: string)
    ensures HexValue(s).Some? <==> Digits(s)
    decreases |s|
  {
    hide HexDigit;
    if s != "" {
      HexValueDigits(s[..|s| - 1]);
      if Digits(s[..|s| - 1]) && HexDigit(s[|s| - 1]).Some? {
        forall k | 0 <= k < |s| ensures HexDigit(s[k]).Some? {
          if k < |s| - 1 { assert s[k] == s[..|s| - 1][k]; }
        }
      }
    }
  }

  // ----- `int(text, 16)` -----

  function LeftStripped(s: string): string {
    if s != "" && IsBlank(s[0]) then LeftStripped(s[1..]) else s
  }

  function RightStripped(s: string): string {
    if s != "" && IsBlank(s[|s| - 1]) then RightStripped(s[..|s| - 1]) else s
  }

  predicate HasPrefix(s: string) {
    |s| >= 2 && s[0] == '0' && (s[1] == 'x' || s[1] == 'X')
  }

  /** `int(text, 16)`, on texts without signs and underscores. */
  function IntOf(text: string): Option<nat> {
    var s := RightStripped(LeftStripped(text));
    var h := if HasPrefix(s) then s[2..] else s;
    if h == "" then None else HexValue(Lower(h))
  }

  lemma {:induction false} LeftStrippedShape(s: string) returns (b: string)
    ensures s == b + LeftStripped(s) && forall k :: 0 <= k < |b| ==> IsBlank(b[k])
    decreases |s|
  {
    if s != "" && IsBlank(s[0]) {
      var rest := LeftStrippedShape(s[1..]);
      b := [s[0]] + rest;
      assert s == [s[0]] + s[1..];
    } else {
      b := "";
    }
  }

  lemma {:induction false} RightStrippedShape(s: string) returns (b: string)
    ensures s == RightStripped(s) + b && forall k :: 0 <= k < |b| ==> IsBlank(b[k])
    decreases |s|
  {
    if s != "" && IsBlank(s[|s| - 1]) {
      var rest := RightStrippedShape(s[..|s| - 1]);
      b := rest + [s[|s| - 1]];
      assert s == s[..|s| - 1] + [s[|s| - 1]];
    } else {
      b := "";
    }
  }

  /** A text that is a number: blanks, perhaps a prefix, digits, blanks. */
  lemma NumberShape(text: string) returns (left: string, prefix: string, h: string, right: string)
    requires IntOf(text).Some?
    ensures text == left + prefix + h + right
    ensures (forall k :: 0 <= k < |left| ==> IsBlank(left[k])) && (forall k :: 0 <= k < |right| ==> IsBlank(right[k]))
    ensures (prefix == "" || prefix == "0x" || prefix == "0X") && Digits(Lower(h)) && IntOf(text) == HexValue(Lower(h))
  {
    hide LeftStripped, RightStripped, Lower, HexValue, IsBlank;
    left := LeftStrippedShape(text);
    var t := LeftStripped(text);
    right := RightStrippedShape(t);
    var s := RightStripped(t);
    prefix, h := if HasPrefix(s) then s[..2] else "", if HasPrefix(s) then s[2..] else s;
    HexValueDigits(Lower(h));
    assert s == prefix + h;
    assert text == left + ((prefix + h) + right);
  }

  /** Such a text is read as its digits alone. */
  lemma NumberIsRead(left: string, prefix: string, h: string, right: string)
    requires (forall k :: 0 <= k < |left| ==> IsBlank(left[k])) && (forall k :: 0 <= k < |right| ==> IsBlank(right[k]))
    requires (prefix == "" || prefix == "0x" || prefix == "0X") && Digits(Lower(h))
    ensures WithoutPrefix(Lower(left + prefix + h + right)) == left + (Lower(h) + right)
    ensures Pairs(left + (Lower(h) + right)) == Pairs(Lower(h))
  {
    hide Pairs, WithoutPrefix, Lower, HexDigit;
    var low := Lower(h);
    LowerConcat(left + prefix + h, right);
    LowerConcat(left + prefix, h);
    LowerConcat(left, prefix);
    BlankIsPlain(left);
    BlankIsPlain(right);
    LowerPlain(left);
    LowerPlain(right);
    forall k | 0 <= k < |low| ensures low[k] != 'x' { DigitIsNoBlank(low[k]); }
    assert 'x' !in low + right;
    NothingToRemove(low + right);
    PrefixIsRemoved(prefix, low + right);
    assert Lower(left + prefix + h + right) == left + (Lower(prefix) + (low + right));
    BlanksInFront(left, Lower(prefix) + (low + right));
    BlanksInFront(left, low + right);
    BlanksBehind(low, right);
  }

  lemma BlankIsPlain(b: string)
    requires forall k :: 0 <= k < |b| ==> IsBlank(b[k])
    ensures 'x' !in b && forall k :: 0 <= k < |b| ==> !('A' <= b[k] <= 'Z')
  {
  }

  lemma PrefixIsRemoved(prefix: string, s: string)
    requires prefix == "" || prefix == "0x" || prefix == "0X"
    ensures WithoutPrefix(Lower(prefix) + s) == WithoutPrefix(s)
  {
    if prefix == "" {
      assert Lower(prefix) + s == s;
    } else {
      assert Lower(prefix[1..][1..]) == "";
      assert Lower(prefix[1..]) == "x";
      assert Lower(prefix) == "0x";
      assert ("0x" + s)[2..] == s;
    }
  }
}
