/** The indentation-driven parser: mappings and lists over a shared line cursor. */
module YamlParser {
  import opened YamlText

  /** A parsed value and the cursor behind it. */
  datatype Parsed<+T> = Parsed(value: T, pos: nat)

  predicate IsItem(content: string) {
    "- " <= content
  }

  predicate HasKey(entries: seq<Entry>, key: string) {
    exists k :: 0 <= k < |entries| && entries[k].key == key
  }

  /** The loop of `parse_mapping`, with the entries it has collected. */
  function Mapping(lines: seq<Line>, pos: nat, indent: nat, entries: seq<Entry>): (r: Result<Parsed<seq<Entry>>>)
    requires pos <= |lines|
    ensures r.Ok? ==> pos <= r.value.pos <= |lines|
    ensures r.Ok? ==> r.value.pos == |lines| || lines[r.value.pos].indent < indent
    ensures r.Ok? && pos < |lines| && indent <= lines[pos].indent ==> pos < r.value.pos
    decreases |lines| - pos, 1
  {
    if pos == |lines| || lines[pos].indent < indent then Ok(Parsed(entries, pos))
    else if indent < lines[pos].indent then Err(UnexpectedIndent)
    else if IsItem(lines[pos].content) then Err(ItemForKey)
    else
      var split :- SplitKey(lines[pos].content);
      if HasKey(entries, split.key) then Err(DuplicateKey(split.key))
      else if split.rest != "" then
        var value :- ParseScalar(split.rest);
        Mapping(lines, pos + 1, indent, entries + [Entry(split.key, value)])
      else if pos + 1 == |lines| || lines[pos + 1].indent <= indent then Err(MissingValue(split.key))
      else
        var child :- Child(lines, pos + 1);
        Mapping(lines, child.pos, indent, entries + [Entry(split.key, child.value)])
  }

  /** A nested list or mapping, told apart by its first line. */
  function Child(lines: seq<Line>, pos: nat): (r: Result<Parsed<Value>>)
    requires pos < |lines|
    ensures r.Ok? ==> pos < r.value.pos <= |lines|
    decreases |lines| - pos, 2
  {
    if IsItem(lines[pos].content) then
      var items :- Items(lines, pos, lines[pos].indent, []);
      Ok(Parsed(List(items.value), items.pos))
    else
      var entries :- Mapping(lines, pos, lines[pos].indent, []);
      Ok(Parsed(Map(entries.value), entries.pos))
  }

  /** The loop of `parse_list`. */
  function Items(lines: seq<Line>, pos: nat, indent: nat, items: seq<Value>): (r: Result<Parsed<seq<Value>>>)
    requires pos <= |lines|
    ensures r.Ok? ==> pos <= r.value.pos <= |lines|
    ensures r.Ok? ==> r.value.pos == |lines| || lines[r.value.pos].indent < indent
    ensures r.Ok? && pos < |lines| && indent <= lines[pos].indent ==> pos < r.value.pos
    decreases |lines| - pos, 1
  {
    if pos == |lines| || lines[pos].indent < indent then Ok(Parsed(items, pos))
    else if indent < lines[pos].indent || !IsItem(lines[pos].content) then Err(ListIndent)
    else
      var item :- Item(lines, pos, indent);
      Items(lines, item.pos, indent, items + [item.value])
  }

  /** One list item: a scalar, or a flat mapping that may go on below its dash. */
  function Item(lines: seq<Line>, pos: nat, indent: nat): (r: Result<Parsed<Value>>)
    requires pos < |lines| && IsItem(lines[pos].content)
    ensures r.Ok? ==> pos < r.value.pos <= |lines|
    decreases |lines| - pos, 0
  {
    var body := Strip(lines[pos].content[2..]);
    if body == "" then Err(EmptyItem)
    else if !LooksLikeMapping(body) then
      var value :- ParseScalar(body);
      Ok(Parsed(value, pos + 1))
    else
      var split :- SplitKey(body);
      if split.rest == "" then Err(ItemWithoutValue(split.key))
      else
        var value :- ParseScalar(split.rest);
        var entries :- Flat(lines, pos + 1, indent + 2, [Entry(split.key, value)]);
        Ok(Parsed(Map(entries.value), entries.pos))
  }

  /** The continuation lines of a flat mapping item. */
  function Flat(lines: seq<Line>, pos: nat, indent: nat, entries: seq<Entry>): (r: Result<Parsed<seq<Entry>>>)
    requires pos <= |lines|
    ensures r.Ok? ==> pos <= r.value.pos <= |lines|
    decreases |lines| - pos
  {
    if pos == |lines| || lines[pos].indent != indent || IsItem(lines[pos].content) then Ok(Parsed(entries, pos))
    else
      var split :- SplitKey(lines[pos].content);
      if HasKey(entries, split.key) then Err(DuplicateKey(split.key))
      else if split.rest == "" then Err(NestedItem)
      else
        var value :- ParseScalar(split.rest);
        Flat(lines, pos + 1, indent, entries + [Entry(split.key, value)])
  }

  /** `load_yaml` on the text of a file. */
  function Load(text: string): Result<Value> {
    var lines :- LogicalLines(SplitLines(text));
    var document :- Mapping(lines, 0, 0, []);
    Ok(Map(document.value))
  }

  /** The document's mapping always takes every line: the parser's last check cannot fail. */
  lemma EveryLineIsConsumed(lines: seq<Line>)
    requires Mapping(lines, 0, 0, []).Ok?
    ensures Mapping(lines, 0, 0, []).value.pos == |lines|
  {
  }

  /** Accepted documents have unique keys at every level. */
  predicate UniqueKeys(v: Value)
    decreases v
  {
    match v
    case List(items) => forall k :: 0 <= k < |items| ==> UniqueKeys(items[k])
    case Map(entries) => Unique(entries) && forall k :: 0 <= k < |entries| ==> UniqueKeys(entries[k].value)
    case _ => true
  }

  predicate Unique(entries: seq<Entry>) {
    forall i, j :: 0 <= i < j < |entries| ==> entries[i].key != entries[j].key
  }

  predicate AllUnique(entries: seq<Entry>) {
    Unique(entries) && forall k :: 0 <= k < |entries| ==> UniqueKeys(entries[k].value)
  }

  lemma ScalarUnique(text: string)
    requires ParseScalar(text).Ok?
    ensures UniqueKeys(ParseScalar(text).value)
  {
  }

  lemma AppendUnique(entries: seq<Entry>, e: Entry)
    requires AllUnique(entries) && !HasKey(entries, e.key) && UniqueKeys(e.value)
    ensures AllUnique(entries + [e])
  {
  }

  lemma {:induction false} FlatUnique(lines: seq<Line>, pos: nat, indent: nat, entries: seq<Entry>)
    requires pos <= |lines| && AllUnique(entries) && Flat(lines, pos, indent, entries).Ok?
    ensures AllUnique(Flat(lines, pos, indent, entries).value.value)
    decreases |lines| - pos
  {
    if pos < |lines| && lines[pos].indent == indent && !IsItem(lines[pos].content) {
      var split := SplitKey(lines[pos].content).value;
      ScalarUnique(split.rest);
      var e := Entry(split.key, ParseScalar(split.rest).value);
      AppendUnique(entries, e);
      FlatUnique(lines, pos + 1, indent, entries + [e]);
    }
  }

  lemma ItemUnique(lines: seq<Line>, pos: nat, indent: nat)
    requires pos < |lines| && IsItem(lines[pos].content) && Item(lines, pos, indent).Ok?
    ensures UniqueKeys(Item(lines, pos, indent).value.value)
  {
    var body := Strip(lines[pos].content[2..]);
    if !LooksLikeMapping(body) {
      ScalarUnique(body);
    } else {
      var split := SplitKey(body).value;
      ScalarUnique(split.rest);
      FlatUnique(lines, pos + 1, indent + 2, [Entry(split.key, ParseScalar(split.rest).value)]);
    }
  }

  lemma {:induction false} ItemsUnique(lines: seq<Line>, pos: nat, indent: nat, items: seq<Value>)
    requires pos <= |lines| && (forall k :: 0 <= k < |items| ==> UniqueKeys(items[k])) &&
             Items(lines, pos, indent, items).Ok?
    ensures UniqueKeys(List(Items(lines, pos, indent, items).value.value))
    decreases |lines| - pos
  {
    if pos < |lines| && lines[pos].indent == indent {
      ItemUnique(lines, pos, indent);
      var item := Item(lines, pos, indent).value;
      ItemsUnique(lines, item.pos, indent, items + [item.value]);
    }
  }

  lemma {:induction false} MappingUnique(lines: seq<Line>, pos: nat, indent: nat, entries: seq<Entry>)
    requires pos <= |lines| && AllUnique(entries) && Mapping(lines, pos, indent, entries).Ok?
    ensures AllUnique(Mapping(lines, pos, indent, entries).value.value)
    decreases |lines| - pos
  {
    if pos < |lines| && lines[pos].indent == indent {
      var split := SplitKey(lines[pos].content).value;
      if split.rest != "" {
        ScalarUnique(split.rest);
        var e := Entry(split.key, ParseScalar(split.rest).value);
        AppendUnique(entries, e);
        MappingUnique(lines, pos + 1, indent, entries + [e]);
      } else {
        var child := Child(lines, pos + 1).value;
        if IsItem(lines[pos + 1].content) {
          ItemsUnique(lines, pos + 1, lines[pos + 1].indent, []);
        } else {
          MappingUnique(lines, pos + 1, lines[pos + 1].indent, []);
        }
        AppendUnique(entries, Entry(split.key, child.value));
        MappingUnique(lines, child.pos, indent, entries + [Entry(split.key, child.value)]);
      }
    }
  }

  /** Whatever is accepted has unique keys in every mapping. */
  lemma LoadIsUnique(text: string)
    requires Load(text).Ok?
    ensures UniqueKeys(Load(text).value)
  {
    MappingUnique(LogicalLines(SplitLines(text)).value, 0, 0, []);
  }

  // ----- the parser with its cursor -----

  class Parser {
    const lines: seq<Line>
    var pos: nat

    constructor (lines: seq<Line>)
      ensures this.lines == lines && pos == 0
    {
      this.lines := lines;
      pos := 0;
    }

    /** `parse_mapping`: it leaves the cursor where the specification does. */
    method ParseMapping(indent: nat) returns (r: Result<seq<Entry>>)
      requires pos <= |lines|
      modifies this
      ensures old(pos) <= pos <= |lines|
      ensures var spec := Mapping(lines, old(pos), indent, []);
              if spec.Ok? then r == Ok(spec.value.value) && pos == spec.value.pos else r == Err(spec.error)
      decreases |lines| - pos, 1
    {
      hide SplitKey, ParseScalar, HasKey, IsItem;
      var mapping: seq<Entry> := [];
      while pos < |lines|
        invariant old(pos) <= pos <= |lines|
        invariant Mapping(lines, old(pos), indent, []) == Mapping(lines, pos, indent, mapping)
        decreases |lines| - pos
      {
        var line := lines[pos];
        if line.indent < indent { break; }
        if line.indent > indent { return Err(UnexpectedIndent); }
        if IsItem(line.content) { return Err(ItemForKey); }
        var split := SplitKey(line.content);
        if split.Err? { return Err(split.error); }
        var key, rest := split.value.key, split.value.rest;
        if HasKey(mapping, key) { return Err(DuplicateKey(key)); }
        pos := pos + 1;
        if rest != "" {
          var scalar := ParseScalar(rest);
          if scalar.Err? { return Err(scalar.error); }
          mapping := mapping + [Entry(key, scalar.value)];
          continue;
        }
        if pos >= |lines| || lines[pos].indent <= indent { return Err(MissingValue(key)); }
        var childIndent := lines[pos].indent;
        if IsItem(lines[pos].content) {
          var items := ParseList(childIndent);
          if items.Err? { return Err(items.error); }
          mapping := mapping + [Entry(key, List(items.value))];
        } else {
          var entries := ParseMapping(childIndent);
          if entries.Err? { return Err(entries.error); }
          mapping := mapping + [Entry(key, Map(entries.value))];
        }
      }
      return Ok(mapping);
    }

    /** `parse_list`. */
    method ParseList(indent: nat) returns (r: Result<seq<Value>>)
      requires pos <= |lines|
      modifies this
      ensures old(pos) <= pos <= |lines|
      ensures var spec := Items(lines, old(pos), indent, []);
              if spec.Ok? then r == Ok(spec.value.value) && pos == spec.value.pos else r == Err(spec.error)
      decreases |lines| - pos, 0
    {
      hide Item, IsItem;
      var items: seq<Value> := [];
      while pos < |lines|
        invariant old(pos) <= pos <= |lines|
        invariant Items(lines, old(pos), indent, []) == Items(lines, pos, indent, items)
        decreases |lines| - pos
      {
        var line := lines[pos];
        if line.indent < indent { break; }
        if line.indent > indent || !IsItem(line.content) { return Err(ListIndent); }
        var item := ParseItem(indent);
        if item.Err? { return Err(item.error); }
        items := items + [item.value];
      }
      return Ok(items);
    }

    /** One item of the list: its line, and the continuation lines of a flat mapping. */
    method ParseItem(indent: nat) returns (r: Result<Value>)
      requires pos < |lines| && IsItem(lines[pos].content)
      modifies this
      ensures old(pos) <= pos <= |lines|
      ensures var spec := Item(lines, old(pos), indent);
              if spec.Ok? then r == Ok(spec.value.value) && pos == spec.value.pos else r == Err(spec.error)
    {
      hide Strip, SplitKey, ParseScalar, LooksLikeMapping;
      var body := Strip(lines[pos].content[2..]);
      if body == "" { return Err(EmptyItem); }
      pos := pos + 1;
      if !LooksLikeMapping(body) { return ParseScalar(body); }
      var split := SplitKey(body);
      if split.Err? { return Err(split.error); }
      if split.value.rest == "" { return Err(ItemWithoutValue(split.value.key)); }
      var first := ParseScalar(split.value.rest);
      if first.Err? { return Err(first.error); }
      var entries := ParseFlat(indent + 2, [Entry(split.value.key, first.value)]);
      if entries.Err? { return Err(entries.error); }
      return Ok(Map(entries.value));
    }

    method ParseFlat(indent: nat, first: seq<Entry>) returns (r: Result<seq<Entry>>)
      requires pos <= |lines|
      modifies this
      ensures old(pos) <= pos <= |lines|
      ensures var spec := Flat(lines, old(pos), indent, first);
              if spec.Ok? then r == Ok(spec.value.value) && pos == spec.value.pos else r == Err(spec.error)
    {
      hide SplitKey, ParseScalar, HasKey, IsItem;
      var item := first;
      while pos < |lines|
        invariant old(pos) <= pos <= |lines|
        invariant Flat(lines, old(pos), indent, first) == Flat(lines, pos, indent, item)
        decreases |lines| - pos
      {
        var line := lines[pos];
        if line.indent != indent || IsItem(line.content) { break; }
        var split := SplitKey(line.content);
        if split.Err? { return Err(split.error); }
        if HasKey(item, split.value.key) { return Err(DuplicateKey(split.value.key)); }
        if split.value.rest == "" { return Err(NestedItem); }
        var scalar := ParseScalar(split.value.rest);
        if scalar.Err? { return Err(scalar.error); }
        item := item + [Entry(split.value.key, scalar.value)];
        pos := pos + 1;
      }
      return Ok(item);
    }
  }

  /** `load_yaml`: the numbering loop, then the document's mapping. */
  method LoadYaml(text: string) returns (r: Result<Value>)
    ensures r == Load(text)
  {
    var raw := SplitLines(text);
    var numbered: seq<Line> := [];
    for n := 0 to |raw|
      invariant LogicalLines(raw[..n]) == Ok(numbered)
    {
      assert raw[..n + 1][..n] == raw[..n];
      if '\t' in raw[n] {
        RefusalStays(raw, n + 1);
        return Err(TabFound);
      }
      var kept := StripComment(raw[n]);
      var stripped := RightStrip(kept);
      if Strip(stripped) != "" {
        numbered := numbered + [Line(Indent(stripped), Strip(stripped))];
      }
    }
    assert raw[..|raw|] == raw;
    var parser := new Parser(numbered);
    var mapping := parser.ParseMapping(0);
    if mapping.Err? { return Err(mapping.error); }
    EveryLineIsConsumed(numbered);
    assert parser.pos == |numbered|;
    return Ok(Map(mapping.value));
  }

  lemma {:induction false} RefusalStays(raw: seq<string>, n: nat)
    requires n <= |raw| && LogicalLines(raw[..n]).Err?
    ensures LogicalLines(raw) == LogicalLines(raw[..n])
    decreases |raw|
  {
    if n == |raw| {
      assert raw[..n] == raw;
    } else {
      assert raw[..|raw| - 1][..n] == raw[..n];
      RefusalStays(raw[..|raw| - 1], n);
    }
  }
}
