/** Parsing the printing of a document gives the document back: first on lines, then on text. */
module YamlRoundTrip {
  import opened Basics
  import opened YamlText
  import opened YamlParser
  import opened YamlPrinter

  // ----- printed lines in their place -----

  /** The lines `xs` stand at `pos`. */
  predicate At(lines: seq<Line>, pos: nat, xs: seq<Line>) {
    pos + |xs| <= |lines| && lines[pos..pos + |xs|] == xs
  }

  /** What follows at `pos` is not indented more than `indent`. */
  predicate Outdents(lines: seq<Line>, pos: nat, indent: nat) {
    pos <= |lines| && (pos < |lines| ==> lines[pos].indent <= indent)
  }

  lemma AtSplit(lines: seq<Line>, pos: nat, a: seq<Line>, b: seq<Line>)
    requires At(lines, pos, a + b)
    ensures At(lines, pos, a) && At(lines, pos + |a|, b)
  {
    var all := lines[pos..pos + |a| + |b|];
    assert all == a + b;
    forall k | 0 <= k < |a| ensures lines[pos..pos + |a|][k] == a[k] { assert all[k] == (a + b)[k]; }
    forall k | 0 <= k < |b| ensures lines[pos + |a|..pos + |a| + |b|][k] == b[k] {
      assert all[|a| + k] == (a + b)[|a| + k];
    }
  }

  lemma AtHead(lines: seq<Line>, pos: nat, xs: seq<Line>)
    requires At(lines, pos, xs) && xs != []
    ensures pos < |lines| && lines[pos] == xs[0]
  {
    assert lines[pos] == lines[pos..pos + |xs|][0];
  }

  // ----- flat mapping items -----

  lemma HasKeyAppend(entries: seq<Entry>, e: Entry, key: string)
    ensures HasKey(entries + [e], key) <==> HasKey(entries, key) || e.key == key
  {
    var all := entries + [e];
    if HasKey(entries, key) {
      var k :| 0 <= k < |entries| && entries[k].key == key;
      assert all[k].key == key;
    }
    if e.key == key { assert all[|entries|].key == key; }
  }

  /** No key of `more` is already in `entries`. */
  predicate NewKeys(entries: seq<Entry>, more: seq<Entry>) {
    forall k :: 0 <= k < |more| ==> !HasKey(entries, more[k].key)
  }

  lemma NewKeysStep(entries: seq<Entry>, more: seq<Entry>)
    requires more != [] && NewKeys(entries, more) && Unique(more)
    ensures !HasKey(entries, more[0].key) && NewKeys(entries + [more[0]], more[1..])
  {
    forall k | 0 <= k < |more[1..]| ensures !HasKey(entries + [more[0]], more[1..][k].key) {
      HasKeyAppend(entries, more[0], more[k + 1].key);
      assert more[0].key != more[k + 1].key;
    }
  }

  lemma {:induction false} FlatComesBack(lines: seq<Line>, pos: nat, indent: nat, entries: seq<Entry>, more: seq<Entry>)
    requires FlatEntries(more) && NewKeys(entries, more)
    requires At(lines, pos, PrintFlat(more, indent)) && indent > 0 &&
             Outdents(lines, pos + |PrintFlat(more, indent)|, indent - 1)
    ensures |PrintFlat(more, indent)| == |more|
    ensures Flat(lines, pos, indent, entries) == Ok(Parsed(entries + more, pos + |more|))
    decreases |more|
  {
    hide SplitKey, ParseScalar, PlainKey, IsScalar, IsItem, PrintPair, PrintScalar;
    if more == [] {
      assert entries + more == entries;
    } else {
      var e := more[0];
      var line := [Line(indent, PrintPair(e))];
      AtSplit(lines, pos, line, PrintFlat(more[1..], indent));
      AtHead(lines, pos, line);
      PairComesBack(e);
      NewKeysStep(entries, more);
      FlatComesBack(lines, pos + 1, indent, entries + [e], more[1..]);
      assert entries + [e] + more[1..] == entries + more;
    }
  }

  // ----- list items -----

  lemma DashBody(body: string)
    requires body != "" && Trimmed(body)
    ensures IsItem("- " + body) && Strip(("- " + body)[2..]) == body
  {
    assert ("- " + body)[2..] == body;
    StripTrimmed(body);
  }

  /** A printed item scalar does not look like a mapping. */
  lemma ItemScalarIsPlain(v: Value)
    requires IsScalar(v) && (v.Str? ==> !HasBlankColon(v.text))
    ensures !LooksLikeMapping(PrintScalar(v))
  {
    var s := PrintScalar(v);
    forall k | 0 <= k < |s| ensures !EndsKey(s, k) {
      if v.Str? && 0 < k < |s| - 1 {
        assert s[k] == v.text[k - 1];
        if k < |s| - 2 { assert s[k + 1] == v.text[k]; } else { assert s[k + 1] == QuoteFor(v.text); }
      }
    }
  }

  lemma ItemComesBack(lines: seq<Line>, pos: nat, indent: nat, v: Value)
    requires IsListItem(v) && At(lines, pos, PrintItem(v, indent)) &&
             Outdents(lines, pos + |PrintItem(v, indent)|, indent)
    ensures pos < |lines| && lines[pos].indent == indent && IsItem(lines[pos].content)
    ensures Item(lines, pos, indent) == Ok(Parsed(v, pos + |PrintItem(v, indent)|))
  {
    hide SplitKey, ParseScalar, PlainKey, IsItem, PrintPair, PrintScalar, LooksLikeMapping, Strip, IsScalar;
    AtHead(lines, pos, PrintItem(v, indent));
    if IsScalar(v) {
      ScalarComesBack(v);
      DashBody(PrintScalar(v));
      ItemScalarIsPlain(v);
    } else {
      var e := v.entries[0];
      PairComesBack(e);
      DashBody(PrintPair(e));
      AtSplit(lines, pos, [Line(indent, "- " + PrintPair(e))], PrintFlat(v.entries[1..], indent + 2));
      FirstIsNew(v.entries);
      FlatComesBack(lines, pos + 1, indent + 2, [e], v.entries[1..]);
      assert [e] + v.entries[1..] == v.entries;
    }
  }

  lemma FirstIsNew(entries: seq<Entry>)
    requires entries != [] && Unique(entries)
    ensures NewKeys([entries[0]], entries[1..])
  {
    forall k | 0 <= k < |entries[1..]| ensures !HasKey([entries[0]], entries[1..][k].key) {
      assert entries[0].key != entries[k + 1].key;
    }
  }

  /** Printed items begin at their own indentation. */
  lemma ItemsOutdent(lines: seq<Line>, pos: nat, indent: nat, items: seq<Value>)
    requires forall k :: 0 <= k < |items| ==> IsListItem(items[k])
    requires At(lines, pos, PrintItems(items, indent))
    requires items == [] ==> Outdents(lines, pos, indent)
    ensures Outdents(lines, pos, indent)
  {
    hide IsListItem, PrintScalar, PrintPair, IsScalar;
    if items != [] { AtHead(lines, pos, PrintItems(items, indent)); }
  }

  lemma {:induction false} ItemsComeBack(lines: seq<Line>, pos: nat, indent: nat, items: seq<Value>, more: seq<Value>)
    requires forall k :: 0 <= k < |more| ==> IsListItem(more[k])
    requires At(lines, pos, PrintItems(more, indent)) && indent > 0 &&
             Outdents(lines, pos + |PrintItems(more, indent)|, indent - 1)
    ensures Items(lines, pos, indent, items) == Ok(Parsed(items + more, pos + |PrintItems(more, indent)|))
    decreases |more|
  {
    hide IsListItem, PrintItem, Item, IsItem, At;
    if more == [] {
      assert items + more == items;
    } else {
      var v := more[0];
      AtSplit(lines, pos, PrintItem(v, indent), PrintItems(more[1..], indent));
      ItemsOutdent(lines, pos + |PrintItem(v, indent)|, indent, more[1..]);
      ItemComesBack(lines, pos, indent, v);
      ItemsComeBack(lines, pos + |PrintItem(v, indent)|, indent, items + [v], more[1..]);
      assert items + [v] + more[1..] == items + more;
    }
  }

  // ----- mappings -----

  lemma EntryStarts(e: Entry, indent: nat)
    requires PlainKey(e.key) && Supported(e.value)
    ensures var xs := PrintEntry(e, indent);
            xs != [] && xs[0].indent == indent && !IsItem(xs[0].content)
  {
    if IsScalar(e.value) { PairComesBack(e); } else { NotAnItem(e.key, ":"); }
  }

  lemma EntriesStart(entries: seq<Entry>, indent: nat)
    requires SupportedEntries(entries) && entries != []
    ensures var xs := PrintEntries(entries, indent);
            xs != [] && xs[0].indent == indent && !IsItem(xs[0].content)
  {
    hide PrintEntry, PlainKey, IsItem;
    EntryStarts(entries[0], indent);
  }

  lemma ItemsStart(items: seq<Value>, indent: nat)
    requires items != [] && forall k :: 0 <= k < |items| ==> IsListItem(items[k])
    ensures var xs := PrintItems(items, indent);
            xs != [] && xs[0].indent == indent && IsItem(xs[0].content)
  {
  }

  lemma EntriesOutdent(lines: seq<Line>, pos: nat, indent: nat, entries: seq<Entry>)
    requires SupportedEntries(entries) && At(lines, pos, PrintEntries(entries, indent))
    requires entries == [] ==> Outdents(lines, pos, indent)
    ensures Outdents(lines, pos, indent)
  {
    hide PrintEntries, SupportedEntries, IsItem;
    if entries != [] {
      EntriesStart(entries, indent);
      AtHead(lines, pos, PrintEntries(entries, indent));
    }
  }

  /** The nested value of a key is read back, up to the first line that is not below it. */
  lemma ChildComesBack(lines: seq<Line>, pos: nat, indent: nat, v: Value)
    requires Supported(v) && !IsScalar(v)
    requires var xs := if v.List? then PrintItems(v.items, indent + 2) else PrintEntries(v.entries, indent + 2);
             At(lines, pos, xs) && Outdents(lines, pos + |xs|, indent)
    ensures var xs := if v.List? then PrintItems(v.items, indent + 2) else PrintEntries(v.entries, indent + 2);
            && pos < |lines| && lines[pos].indent == indent + 2
            && Child(lines, pos) == Ok(Parsed(v, pos + |xs|))
    decreases v, 1
  {
    hide IsItem, IsListItem, SupportedEntries, Mapping, Items, PrintItems, PrintEntries, Outdents;
    OutdentsMore(lines, indent);
    if v.List? {
      ItemsStart(v.items, indent + 2);
      AtHead(lines, pos, PrintItems(v.items, indent + 2));
      ItemsComeBack(lines, pos, indent + 2, [], v.items);
      assert [] + v.items == v.items;
    } else {
      EntriesStart(v.entries, indent + 2);
      AtHead(lines, pos, PrintEntries(v.entries, indent + 2));
      MappingComesBack(lines, pos, indent + 2, [], v.entries);
      MappingEnds(lines, pos + |PrintEntries(v.entries, indent + 2)|, indent + 2, v.entries);
      assert [] + v.entries == v.entries;
    }
  }

  lemma OutdentsMore(lines: seq<Line>, indent: nat)
    ensures forall pos: nat :: Outdents(lines, pos, indent) ==>
            Outdents(lines, pos, indent + 1) && Outdents(lines, pos, indent + 2)
  {
  }

  /** A mapping ends where a line is not indented as deep. */
  lemma MappingEnds(lines: seq<Line>, pos: nat, indent: nat, entries: seq<Entry>)
    requires indent > 0 && Outdents(lines, pos, indent - 1)
    ensures Mapping(lines, pos, indent, entries) == Ok(Parsed(entries, pos))
  {
  }

  /** The loop of the mapping runs over the printed entries and goes on behind them. */
  lemma {:induction false} MappingComesBack(lines: seq<Line>, pos: nat, indent: nat, entries: seq<Entry>,
      more: seq<Entry>)
    requires SupportedEntries(more) && NewKeys(entries, more)
    requires At(lines, pos, PrintEntries(more, indent)) && Outdents(lines, pos + |PrintEntries(more, indent)|, indent)
    ensures Mapping(lines, pos, indent, entries) ==
            Mapping(lines, pos + |PrintEntries(more, indent)|, indent, entries + more)
    decreases more, 0
  {
    hide PrintEntry, Supported, PlainKey, NewKeys, Outdents, Mapping, At;
    if more == [] {
      assert entries + more == entries;
    } else {
      var e := more[0];
      var xs := PrintEntry(e, indent);
      AtSplit(lines, pos, xs, PrintEntries(more[1..], indent));
      EntriesOutdent(lines, pos + |xs|, indent, more[1..]);
      NewKeysStep(entries, more);
      EntryComesBack(lines, pos, indent, entries, e);
      MappingComesBack(lines, pos + |xs|, indent, entries + [e], more[1..]);
      assert entries + [e] + more[1..] == entries + more;
    }
  }

  lemma EntryComesBack(lines: seq<Line>, pos: nat, indent: nat, entries: seq<Entry>, e: Entry)
    requires PlainKey(e.key) && Supported(e.value) && !HasKey(entries, e.key)
    requires At(lines, pos, PrintEntry(e, indent)) && Outdents(lines, pos + |PrintEntry(e, indent)|, indent)
    ensures Mapping(lines, pos, indent, entries) == Mapping(lines, pos + |PrintEntry(e, indent)|, indent, entries + [e])
    decreases e, 0
  {
    hide SplitKey, ParseScalar, PlainKey, IsItem, PrintPair, PrintScalar, Supported, Child, Outdents, HasKey;
    var xs := PrintEntry(e, indent);
    EntryStarts(e, indent);
    AtHead(lines, pos, xs);
    if IsScalar(e.value) {
      PairComesBack(e);
    } else {
      SplitComesBack(e.key, "");
      var below := xs[1..];
      assert xs == xs[..1] + below;
      AtSplit(lines, pos, xs[..1], below);
      ChildComesBack(lines, pos + 1, indent, e.value);
    }
  }

  /** On lines: the printed document is read back, and nothing is left. */
  lemma DocumentComesBack(entries: seq<Entry>)
    requires SupportedEntries(entries)
    ensures Mapping(PrintEntries(entries, 0), 0, 0, []) == Ok(Parsed(entries, |PrintEntries(entries, 0)|))
  {
    hide PrintEntries, SupportedEntries;
    var lines := PrintEntries(entries, 0);
    assert lines[0..|lines|] == lines;
    MappingComesBack(lines, 0, 0, [], entries);
    assert [] + entries == entries;
  }

  // ----- from lines to text -----

  function Blanks(n: nat): (s: string)
    ensures |s| == n && forall k :: 0 <= k < n ==> s[k] == ' '
  {
    seq(n, _ => ' ')
  }

  function Render(line: Line): string {
    Blanks(line.indent) + line.content
  }

  function Text(lines: seq<Line>): string {
    if lines == [] then "" else Render(lines[0]) + "\n" + Text(lines[1..])
  }

  /** A line that survives being written and read. */
  ghost predicate LineOk(line: Line) {
    && line.content != "" && Trimmed(line.content)
    && (forall k :: 0 <= k < |line.content| ==> !IsBreak(line.content[k]) && line.content[k] != '\t')
    && Uncut(line.content)
  }

  /** No comment starts in the content, wherever the line is indented to. */
  ghost predicate Uncut(content: string) {
    forall indent: nat :: UncutAt(content, indent)
  }

  predicate UncutAt(content: string, indent: nat) {
    CutComment(Blanks(indent) + content, 0, None) == Blanks(indent) + content
  }

  lemma {:induction false} LeftStripBlanks(n: nat, s: string)
    requires s != "" && !IsSpace(s[0])
    ensures LeftStrip(Blanks(n) + s) == s && Indent(Blanks(n) + s) == n
    decreases n
  {
    if n == 0 {
      assert Blanks(n) + s == s;
    } else {
      assert (Blanks(n) + s)[1..] == Blanks(n - 1) + s;
      LeftStripBlanks(n - 1, s);
    }
  }

  lemma LineComesBack(line: Line)
    requires LineOk(line)
    ensures LogicalLine(Render(line)) == Some(line) && '\t' !in Render(line)
  {
    var raw := Render(line);
    assert UncutAt(line.content, line.indent);
    assert raw[|raw| - 1] == line.content[|line.content| - 1];
    assert RightStrip(raw) == raw;
    LeftStripBlanks(line.indent, line.content);
  }

  lemma RenderHasNoBreak(line: Line)
    requires LineOk(line)
    ensures forall k :: 0 <= k < |Render(line)| ==> !IsBreak(Render(line)[k])
  {
  }

  lemma {:induction false} BreakComesFirst(a: string, b: string)
    requires forall k :: 0 <= k < |a| ==> !IsBreak(a[k])
    ensures FirstBreak(a + "\n" + b) == |a|
  {
    var s := a + "\n" + b;
    assert s[|a|] == '\n';
    assert forall k :: 0 <= k < |a| ==> s[k] == a[k];
  }

  function Renders(lines: seq<Line>): seq<string> {
    if lines == [] then [] else [Render(lines[0])] + Renders(lines[1..])
  }

  lemma {:induction false} TextSplits(lines: seq<Line>)
    requires forall k :: 0 <= k < |lines| ==> LineOk(lines[k])
    ensures SplitLines(Text(lines)) == Renders(lines)
    decreases |lines|
  {
    hide LineOk, Render;
    if lines != [] {
      var a := Render(lines[0]);
      var b := Text(lines[1..]);
      RenderHasNoBreak(lines[0]);
      BreakComesFirst(a, b);
      var s := Text(lines);
      assert s == a + "\n" + b && |s| > 0;
      assert s[..|a|] == a && s[|a| + 1..] == b;
      TextSplits(lines[1..]);
    }
  }

  lemma {:induction false} RendersAppend(lines: seq<Line>, line: Line)
    ensures Renders(lines + [line]) == Renders(lines) + [Render(line)]
    decreases |lines|
  {
    if lines == [] {
      assert ([] + [line])[1..] == [];
    } else {
      assert (lines + [line])[1..] == lines[1..] + [line];
      RendersAppend(lines[1..], line);
    }
  }

  lemma {:induction false} LinesComeBack(lines: seq<Line>)
    requires forall k :: 0 <= k < |lines| ==> LineOk(lines[k])
    ensures LogicalLines(Renders(lines)) == Ok(lines)
    decreases |lines|
  {
    hide LineOk, Render;
    if lines != [] {
      var rest := lines[..|lines| - 1];
      var last := lines[|lines| - 1];
      assert lines == rest + [last];
      RendersAppend(rest, last);
      LinesComeBack(rest);
      LineComesBack(last);
      var raw := Renders(lines);
      assert raw[..|raw| - 1] == Renders(rest) && raw[|raw| - 1] == Render(last);
    }
  }

  // ----- printed lines survive -----

  /** Scanning outside quotes over a part without quotes or comments. */
  lemma {:induction false} PassPlain(line: string, from: nat, to: nat)
    requires from <= to <= |line|
    requires forall k :: from <= k < to ==> !IsQuote(line[k]) && !StartsComment(line, k)
    ensures CutComment(line, from, None) == CutComment(line, to, None)
    decreases |line| - from
  {
    if from < to { PassPlain(line, from + 1, to); }
  }

  /** Scanning inside quotes up to the closing one. */
  lemma {:induction false} PassQuoted(line: string, from: nat, to: nat, q: char)
    requires from <= to <= |line|
    requires forall k :: from <= k < to ==> line[k] != q
    ensures CutComment(line, from, Some(q)) == CutComment(line, to, Some(q))
    decreases |line| - from
  {
    if from < to { PassQuoted(line, from + 1, to, q); }
  }

  /** Quote-free, comment-free text: keys and the marks around them. */
  predicate PlainPart(s: string) {
    forall k :: 0 <= k < |s| ==> PlainAt(s, k)
  }

  predicate PlainAt(s: string, k: nat)
    requires k < |s|
  {
    !IsQuote(s[k]) && (s[k] == '#' ==> 0 < k && s[k - 1] != ' ' && s[k - 1] != '\t')
  }

  /** One character of an indented plain part. */
  lemma HeadAt(indent: nat, head: string, tail: string, k: nat)
    requires PlainPart(head) && k < indent + |head|
    ensures var line := Blanks(indent) + (head + tail);
            !IsQuote(line[k]) && !StartsComment(line, k)
  {
    var line := Blanks(indent) + (head + tail);
    if k < indent {
      assert line[k] == Blanks(indent)[k] == ' ';
    } else {
      var h := k - indent;
      assert line[k] == head[h] && PlainAt(head, h);
      if 0 < h { assert line[k - 1] == head[h - 1]; }
    }
  }

  lemma PassHead(indent: nat, head: string, tail: string)
    requires PlainPart(head)
    ensures var line := Blanks(indent) + (head + tail);
            CutComment(line, 0, None) == CutComment(line, indent + |head|, None)
  {
    hide CutComment, StartsComment, IsQuote, PlainPart;
    var line := Blanks(indent) + (head + tail);
    forall k | 0 <= k < indent + |head| ensures !IsQuote(line[k]) && !StartsComment(line, k) {
      HeadAt(indent, head, tail, k);
    }
    PassPlain(line, 0, indent + |head|);
  }

  lemma PassString(line: string, from: nat, text: string)
    requires Quotable(text) && from <= |line| && line[from..] == PrintScalar(Str(text))
    ensures CutComment(line, from, None) == line
  {
    var q := QuoteFor(text);
    var s := [q] + text + [q];
    assert |line| == from + |text| + 2;
    assert line[from] == s[0] && line[|line| - 1] == s[|s| - 1];
    forall k | from + 1 <= k < |line| - 1 ensures line[k] != q { assert line[k] == s[k - from]; }
    PassQuoted(line, from + 1, |line| - 1, q);
    assert CutComment(line, |line| - 1, Some(q)) == CutComment(line, |line|, None);
  }

  lemma OtherScalarIsPlain(v: Value)
    requires IsScalar(v) && !v.Str?
    ensures forall k :: 0 <= k < |PrintScalar(v)| ==> !IsQuote(PrintScalar(v)[k]) && PrintScalar(v)[k] != '#'
  {
  }

  lemma PassScalar(line: string, from: nat, v: Value)
    requires IsScalar(v) && from <= |line| && line[from..] == PrintScalar(v)
    ensures CutComment(line, from, None) == line
  {
    hide PrintScalar, CutComment;
    if v.Str? {
      PassString(line, from, v.text);
    } else {
      OtherScalarIsPlain(v);
      forall k | from <= k < |line| ensures !IsQuote(line[k]) && line[k] != '#' {
        assert line[k] == line[from..][k - from];
      }
      PassPlain(line, from, |line|);
      NothingLeft(line);
    }
  }

  lemma NothingLeft(line: string)
    ensures CutComment(line, |line|, None) == line
  {
  }

  lemma HeadUncut(head: string, v: Value)
    requires PlainPart(head) && IsScalar(v)
    ensures Uncut(head + PrintScalar(v))
  {
    hide IsScalar, PrintScalar;
    forall indent: nat ensures UncutAt(head + PrintScalar(v), indent) {
      var line := Blanks(indent) + (head + PrintScalar(v));
      PassHead(indent, head, PrintScalar(v));
      assert line[indent + |head|..] == PrintScalar(v);
      PassScalar(line, indent + |head|, v);
    }
  }

  lemma PlainUncut(head: string)
    requires PlainPart(head)
    ensures Uncut(head)
  {
    forall indent: nat ensures UncutAt(head, indent) {
      PassHead(indent, head, "");
      assert head + "" == head;
    }
  }

  lemma KeyIsPlain(key: string)
    requires PlainKey(key)
    ensures PlainPart(key + ":") && PlainPart(key + ": ") && PlainPart("- " + key + ": ")
    ensures PlainPart("- ")
  {
    forall k | 0 <= k < |"- " + key + ": "| ensures PlainAt("- " + key + ": ", k) {
      var s := "- " + key + ": ";
      if 2 <= k < 2 + |key| {
        assert s[k] == key[k - 2];
        if 2 < k { assert s[k - 1] == key[k - 3]; }
      }
    }
  }

  lemma ScalarStays(v: Value)
    requires IsScalar(v)
    ensures forall k :: 0 <= k < |PrintScalar(v)| ==> !IsBreak(PrintScalar(v)[k]) && PrintScalar(v)[k] != '\t'
  {
  }

  predicate OneLine(s: string) {
    forall k :: 0 <= k < |s| ==> !IsBreak(s[k]) && s[k] != '\t'
  }

  lemma PairIsOneLine(e: Entry)
    requires PlainKey(e.key) && IsScalar(e.value)
    ensures OneLine(PrintPair(e))
  {
    hide PrintScalar, IsScalar, IsItem, IsBreak, IsQuote, Trimmed;
    ScalarStays(e.value);
    assert !IsBreak(':') && !IsBreak(' ') by { BlankIsNoBreak(); }
  }

  lemma BlankIsNoBreak()
    ensures !IsBreak(':') && !IsBreak(' ') && !IsBreak('-') && !IsSpace('-')
  {
  }

  lemma PairLineOk(e: Entry, indent: nat)
    requires PlainKey(e.key) && IsScalar(e.value)
    ensures LineOk(Line(indent, PrintPair(e))) && LineOk(Line(indent, "- " + PrintPair(e)))
  {
    hide PrintScalar, IsScalar, Uncut, PlainPart, IsItem, PlainKey, IsBreak, IsSpace, SplitKey, ParseScalar,
      LooksLikeMapping;
    PairComesBack(e);
    PairIsOneLine(e);
    BlankIsNoBreak();
    KeyIsPlain(e.key);
    HeadUncut(e.key + ": ", e.value);
    HeadUncut("- " + e.key + ": ", e.value);
    var s := "- " + PrintPair(e);
    assert s == "- " + e.key + ": " + PrintScalar(e.value);
    assert s[|s| - 1] == PrintPair(e)[|PrintPair(e)| - 1];
    forall k | 0 <= k < |s| ensures !IsBreak(s[k]) && s[k] != '\t' {
      if 2 <= k { assert s[k] == PrintPair(e)[k - 2]; }
    }
  }

  lemma ScalarLineOk(v: Value, indent: nat)
    requires IsScalar(v)
    ensures LineOk(Line(indent, "- " + PrintScalar(v)))
  {
    hide PrintScalar, IsScalar, Uncut;
    ScalarComesBack(v);
    ScalarStays(v);
    HeadUncut("- ", v);
    var s := "- " + PrintScalar(v);
    assert s[|s| - 1] == PrintScalar(v)[|PrintScalar(v)| - 1];
  }

  lemma KeyLineOk(key: string, indent: nat)
    requires PlainKey(key)
    ensures LineOk(Line(indent, key + ":"))
  {
    hide Uncut;
    KeyIsPlain(key);
    PlainUncut(key + ":");
  }

  ghost predicate AllOk(lines: seq<Line>) {
    forall k :: 0 <= k < |lines| ==> LineOk(lines[k])
  }

  lemma {:induction false} FlatLinesOk(entries: seq<Entry>, indent: nat)
    requires forall k :: 0 <= k < |entries| ==> PlainKey(entries[k].key) && IsScalar(entries[k].value)
    ensures AllOk(PrintFlat(entries, indent))
    decreases |entries|
  {
    hide LineOk, PlainKey, IsScalar, PrintPair;
    if entries != [] {
      PairLineOk(entries[0], indent);
      FlatLinesOk(entries[1..], indent);
    }
  }

  lemma {:induction false} ItemLinesOk(items: seq<Value>, indent: nat)
    requires forall k :: 0 <= k < |items| ==> IsListItem(items[k])
    ensures AllOk(PrintItems(items, indent))
    decreases |items|
  {
    hide LineOk, PlainKey, IsScalar, PrintPair, PrintScalar;
    if items != [] {
      var v := items[0];
      if IsScalar(v) {
        ScalarLineOk(v, indent);
      } else {
        PairLineOk(v.entries[0], indent);
        FlatLinesOk(v.entries[1..], indent + 2);
      }
      ItemLinesOk(items[1..], indent);
    }
  }

  lemma {:induction false} EntryLinesOk(entries: seq<Entry>, indent: nat)
    requires SupportedEntries(entries)
    ensures AllOk(PrintEntries(entries, indent))
    decreases entries
  {
    hide LineOk, PlainKey, IsScalar, PrintPair, PrintScalar, IsListItem;
    if entries != [] {
      var e := entries[0];
      if IsScalar(e.value) {
        PairLineOk(e, indent);
      } else {
        KeyLineOk(e.key, indent);
        if e.value.List? { ItemLinesOk(e.value.items, indent + 2); } else { EntryLinesOk(e.value.entries, indent + 2); }
      }
      EntryLinesOk(entries[1..], indent);
    }
  }

  /** The document as a file. */
  function Print(entries: seq<Entry>): string
    requires SupportedEntries(entries)
  {
    Text(PrintEntries(entries, 0))
  }

  /** Every document of the subset is read back from its printing. */
  lemma RoundTrip(entries: seq<Entry>)
    requires SupportedEntries(entries)
    ensures Load(Print(entries)) == Ok(Map(entries))
  {
    hide SupportedEntries, PrintEntries, LineOk;
    var lines := PrintEntries(entries, 0);
    EntryLinesOk(entries, 0);
    TextSplits(lines);
    LinesComeBack(lines);
    DocumentComesBack(entries);
  }
}
