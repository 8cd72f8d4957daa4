/** Printing a document of the subset, and the proof that the parser reads it back. */
module YamlPrinter {
  import opened Basics
  import opened YamlText
  import opened YamlParser

  // ----- the documents -----

  /** The text can be quoted: some quote character does not occur in it, and it stays on one line. */
  predicate Quotable(s: string) {
    (forall k :: 0 <= k < |s| ==> !IsBreak(s[k]) && s[k] != '\t') && ('"' !in s || '\'' !in s)
  }

  /** A key that needs no quotes. */
  predicate PlainKey(key: string) {
    && key != "" && Trimmed(key) && !IsItem(key)
    && (forall k :: 0 <= k < |key| ==> !IsBreak(key[k]) && key[k] != '\t' && !IsQuote(key[k]))
    && (forall k :: 0 <= k < |key| && key[k] == '#' ==> 0 < k && key[k - 1] != ' ')
    && (forall k :: 0 <= k < |key| - 1 && key[k] == ':' ==> key[k + 1] != ' ')
  }

  /** A value that fits on one line. */
  predicate IsScalar(v: Value) {
    match v
    case Str(text) => Quotable(text)
    case Int(_) => true
    case Bool(_) => true
    case List(items) => items == []
    case Map(entries) => entries == []
  }

  predicate HasBlankColon(s: string) {
    exists k :: 0 <= k < |s| - 1 && s[k] == ':' && s[k + 1] == ' '
  }

  predicate FlatEntries(entries: seq<Entry>) {
    Unique(entries) && forall k :: 0 <= k < |entries| ==> PlainKey(entries[k].key) && IsScalar(entries[k].value)
  }

  /** A list item: a scalar without ": " inside, or a flat mapping. */
  predicate IsListItem(v: Value) {
    (IsScalar(v) && (v.Str? ==> !HasBlankColon(v.text))) || (v.Map? && v.entries != [] && FlatEntries(v.entries))
  }

  predicate Supported(v: Value)
    decreases v
  {
    IsScalar(v) || (v.List? && forall k :: 0 <= k < |v.items| ==> IsListItem(v.items[k])) ||
      (v.Map? && SupportedEntries(v.entries))
  }

  predicate SupportedEntries(entries: seq<Entry>)
    decreases entries
  {
    Unique(entries) && forall k :: 0 <= k < |entries| ==> PlainKey(entries[k].key) && Supported(entries[k].value)
  }

  // ----- printing -----

  function PrintNat(n: nat): (s: string)
    ensures s != "" && forall k :: 0 <= k < |s| ==> IsDigit(s[k])
  {
    (if n < 10 then "" else PrintNat(n / 10)) + [(n % 10 + '0' as int) as char]
  }

  function PrintInt(n: int): string {
    if n < 0 then "-" + PrintNat(-n) else PrintNat(n)
  }

  function QuoteFor(s: string): char {
    if '"' !in s then '"' else '\''
  }

  function PrintScalar(v: Value): string
    requires IsScalar(v)
  {
    match v
    case Str(text) => [QuoteFor(text)] + text + [QuoteFor(text)]
    case Int(n) => PrintInt(n)
    case Bool(b) => if b then "true" else "false"
    case List(_) => "[]"
    case Map(_) => "{}"
  }

  function PrintPair(e: Entry): string
    requires IsScalar(e.value)
  {
    e.key + ": " + PrintScalar(e.value)
  }

  /** The continuation lines of a flat mapping item. */
  function PrintFlat(entries: seq<Entry>, indent: nat): seq<Line>
    requires forall k :: 0 <= k < |entries| ==> IsScalar(entries[k].value)
  {
    if entries == [] then [] else [Line(indent, PrintPair(entries[0]))] + PrintFlat(entries[1..], indent)
  }

  function PrintItem(v: Value, indent: nat): seq<Line>
    requires IsListItem(v)
  {
    if IsScalar(v) then [Line(indent, "- " + PrintScalar(v))]
    else [Line(indent, "- " + PrintPair(v.entries[0]))] + PrintFlat(v.entries[1..], indent + 2)
  }

  function PrintItems(items: seq<Value>, indent: nat): seq<Line>
    requires forall k :: 0 <= k < |items| ==> IsListItem(items[k])
  {
    if items == [] then [] else PrintItem(items[0], indent) + PrintItems(items[1..], indent)
  }

  function PrintEntries(entries: seq<Entry>, indent: nat): seq<Line>
    requires SupportedEntries(entries)
    decreases entries, 1
  {
    if entries == [] then [] else PrintEntry(entries[0], indent) + PrintEntries(entries[1..], indent)
  }

  function PrintEntry(e: Entry, indent: nat): seq<Line>
    requires Supported(e.value)
    decreases e, 0
  {
    if IsScalar(e.value) then [Line(indent, PrintPair(e))]
    else
      [Line(indent, e.key + ":")] +
      if e.value.List? then PrintItems(e.value.items, indent + 2) else PrintEntries(e.value.entries, indent + 2)
  }

  // ----- scalars come back -----

  /** The number a run of digits adds to what came before it. */
  function Fold(sofar: nat, s: string): nat
    requires forall k :: 0 <= k < |s| ==> IsDigit(s[k])
    decreases |s|
  {
    if s == "" then sofar else Fold(10 * sofar + Digit(s[0]), s[1..])
  }

  lemma {:induction false} FoldAppend(sofar: nat, s: string, c: char)
    requires (forall k :: 0 <= k < |s| ==> IsDigit(s[k])) && IsDigit(c)
    ensures Fold(sofar, s + [c]) == 10 * Fold(sofar, s) + Digit(c)
    decreases |s|
  {
    if s == "" {
      assert ("" + [c])[1..] == "";
      assert Fold(10 * sofar + Digit(c), "") == 10 * sofar + Digit(c);
    } else {
      assert (s + [c])[1..] == s[1..] + [c];
      FoldAppend(10 * sofar + Digit(s[0]), s[1..], c);
    }
  }

  lemma {:induction false} FoldPrint(n: nat)
    ensures Fold(0, PrintNat(n)) == n
    decreases n
  {
    var c := (n % 10 + '0' as int) as char;
    if n < 10 {
      assert PrintNat(n) == [c];
      FoldAppend(0, "", c);
      assert "" + [c] == [c];
    } else {
      FoldPrint(n / 10);
      FoldAppend(0, PrintNat(n / 10), c);
    }
  }

  lemma {:induction false} DigitsFold(s: string, sofar: nat, after: bool)
    requires (forall k :: 0 <= k < |s| ==> IsDigit(s[k])) && (s == "" ==> after)
    ensures Digits(s, sofar, after) == Some(Fold(sofar, s))
    decreases |s|
  {
    if s != "" { DigitsFold(s[1..], 10 * sofar + Digit(s[0]), true); }
  }

  lemma IntComesBack(n: int)
    ensures ParseInt(PrintInt(n)) == Some(n)
  {
    var m := if n < 0 then -n else n;
    FoldPrint(m);
    DigitsFold(PrintNat(m), 0, false);
    if n < 0 { assert PrintInt(n)[1..] == PrintNat(m); }
  }

  lemma {:induction false} OccurrencesAppend(a: string, b: string, c: char)
    ensures Occurrences(a + b, c) == Occurrences(a, c) + Occurrences(b, c)
    decreases |a|
  {
    if a == "" { assert a + b == b; } else {
      assert (a + b)[1..] == a[1..] + b;
      OccurrencesAppend(a[1..], b, c);
    }
  }

  lemma {:induction false} NoOccurrence(s: string, c: char)
    requires c !in s
    ensures Occurrences(s, c) == 0
    decreases |s|
  {
    if s != "" { NoOccurrence(s[1..], c); }
  }

  lemma StrComesBack(text: string)
    requires Quotable(text)
    ensures ParseScalar(PrintScalar(Str(text))) == Ok(Str(text))
    ensures Trimmed(PrintScalar(Str(text)))
  {
    var q := QuoteFor(text);
    var raw := [q] + text + [q];
    NoOccurrence(text, q);
    OccurrencesAppend([q] + text, [q], q);
    OccurrencesAppend([q], text, q);
    assert Occurrences([q], q) == 1 by { assert [q][1..] == []; assert Occurrences([], q) == 0; }
    StripTrimmed(raw);
    assert raw[1..|raw| - 1] == text;
  }

  /** Every one-line value is read back from its printing. */
  lemma ScalarComesBack(v: Value)
    requires IsScalar(v)
    ensures ParseScalar(PrintScalar(v)) == Ok(v)
    ensures PrintScalar(v) != "" && Trimmed(PrintScalar(v))
  {
    match v
    case Str(text) => StrComesBack(text);
    case Int(n) => IntScalarComesBack(n);
    case Bool(b) => WordsComeBack(b);
    case List(_) => StripTrimmed("[]");
    case Map(_) => StripTrimmed("{}");
  }

  lemma WordsComeBack(b: bool)
    ensures ParseScalar(PrintScalar(Bool(b))) == Ok(Bool(b)) && Trimmed(PrintScalar(Bool(b)))
  {
    hide ParseInt;
    StripTrimmed("true");
    StripTrimmed("false");
  }

  lemma IntScalarComesBack(n: int)
    ensures ParseScalar(PrintInt(n)) == Ok(Int(n)) && PrintInt(n) != "" && Trimmed(PrintInt(n))
  {
    hide ParseInt, Strip;
    IntComesBack(n);
    IntShape(n);
    StripTrimmed(PrintInt(n));
  }

  /** A printed integer starts with a digit or a sign and ends with a digit. */
  lemma IntShape(n: int)
    ensures var s := PrintInt(n);
            s != "" && (s[0] == '-' || IsDigit(s[0])) && IsDigit(s[|s| - 1]) && Trimmed(s)
  {
    hide PrintNat;
  }

  // ----- keys come back -----

  lemma KeyEndsAt(key: string, tail: string)
    requires PlainKey(key) && (tail == "" || tail[0] == ' ')
    ensures KeyEnd(key + ":" + tail, 0) == |key|
  {
    var line := key + ":" + tail;
    assert EndsKey(line, |key|);
    forall k | 0 <= k < |key| ensures !EndsKey(line, k) {
      assert line[k] == key[k];
      if k + 1 < |key| { assert line[k + 1] == key[k + 1]; } else { assert line[k + 1] == ':'; }
    }
  }

  lemma {:induction false} LeftStripBlank(s: string)
    ensures LeftStrip(" " + s) == LeftStrip(s)
  {
    assert (" " + s)[1..] == s;
  }

  lemma SplitComesBack(key: string, tail: string)
    requires PlainKey(key) && Trimmed(tail)
    ensures SplitKey(key + ": " + tail) == Ok(Split(key, tail))
    ensures SplitKey(key + ":") == Ok(Split(key, ""))
  {
    var line := key + ": " + tail;
    assert line == key + ":" + (" " + tail);
    KeyEndsAt(key, " " + tail);
    assert line[..|key|] == key && line[|key| + 1..] == " " + tail;
    StripTrimmed(key);
    StripTrimmed(tail);
    LeftStripBlank(tail);
    assert key + ":" + "" == key + ":";
    KeyEndsAt(key, "");
    assert (key + ":")[..|key|] == key && (key + ":")[|key| + 1..] == "";
  }

  lemma PairComesBack(e: Entry)
    requires PlainKey(e.key) && IsScalar(e.value)
    ensures SplitKey(PrintPair(e)) == Ok(Split(e.key, PrintScalar(e.value)))
    ensures ParseScalar(PrintScalar(e.value)) == Ok(e.value) && PrintScalar(e.value) != ""
    ensures !IsItem(PrintPair(e)) && PrintPair(e) != "" && Trimmed(PrintPair(e))
    ensures LooksLikeMapping(PrintPair(e))
  {
    hide ParseScalar, SplitKey, PrintScalar, KeyEnd, IsScalar, PlainKey, IsSpace, IsItem;
    ScalarComesBack(e.value);
    SplitComesBack(e.key, PrintScalar(e.value));
    PairShape(e.key, PrintScalar(e.value));
  }

  lemma PairShape(key: string, scalar: string)
    requires PlainKey(key) && scalar != "" && Trimmed(scalar)
    ensures var line := key + ": " + scalar;
            !IsItem(line) && line != "" && Trimmed(line) && LooksLikeMapping(line)
  {
    hide IsSpace;
    var line := key + ": " + scalar;
    assert line == key + ":" + (" " + scalar);
    KeyEndsAt(key, " " + scalar);
    NotAnItem(key, ": " + scalar);
    assert line == key + (": " + scalar);
    assert line[0] == key[0];
    assert line[|line| - 1] == scalar[|scalar| - 1];
  }

  lemma NotAnItem(key: string, tail: string)
    requires PlainKey(key) && tail != "" && tail[0] == ':'
    ensures !IsItem(key + tail)
  {
    var s := key + tail;
    if |key| == 1 { assert s[1] == ':'; } else { assert s[0] == key[0] && s[1] == key[1]; }
    assert IsItem(key) <==> |key| >= 2 && key[0] == '-' && key[1] == ' ';
  }
}
