/**
 Lines and scalars of the strict YAML subset: comments, indentation, keys, and the values a
 single line can hold.
 */
module YamlText {
  import opened Basics

  /** Why a document is refused. */
  datatype Error =
    | TabFound | EmptyValue | BadQuotes | Unsupported | NullValue | EmptyKey | NoColon
    | UnexpectedIndent | ItemForKey | DuplicateKey(key: string) | MissingValue(key: string)
    | ListIndent | EmptyItem | ItemWithoutValue(key: string) | NestedItem

  datatype Result<+T> = Ok(value: T) | Err(error: Error) {
    predicate IsFailure() { Err? }
    function PropagateFailure<U>(): Result<U>
      requires Err?
    {
      Err(error)
    }
    function Extract(): T
      requires Ok?
    {
      value
    }
  }

  /** Plain values: a mapping keeps its keys in the order they were written. */
  datatype Value =
    | Str(text: string)
    | Int(number: int)
    | Bool(flag: bool)
    | List(items: seq<Value>)
    | Map(entries: seq<Entry>)

  datatype Entry = Entry(key: string, value: Value)

  // ----- white space -----

  /** `str.isspace` for one character. */
  predicate IsSpace(c: char) {
    c == ' ' || '\t' <= c <= '\r' || '\U{1C}' <= c <= '\U{1F}' || c == '\U{85}' || c == '\U{A0}' || c == '\U{1680}'
    || '\U{2000}' <= c <= '\U{200A}' || c == '\U{2028}' || c == '\U{2029}' || c == '\U{202F}' || c == '\U{205F}'
    || c == '\U{3000}'
  }

  function LeftStrip(s: string): string {
    if s != "" && IsSpace(s[0]) then LeftStrip(s[1..]) else s
  }

  function RightStrip(s: string): string {
    if s != "" && IsSpace(s[|s| - 1]) then RightStrip(s[..|s| - 1]) else s
  }

  function Strip(s: string): string {
    RightStrip(LeftStrip(s))
  }

  /** The number of leading blanks. */
  function Indent(s: string): nat {
    if s != "" && s[0] == ' ' then 1 + Indent(s[1..]) else 0
  }

  /** Neither end is white space. */
  predicate Trimmed(s: string) {
    s != "" ==> !IsSpace(s[0]) && !IsSpace(s[|s| - 1])
  }

  lemma StripTrimmed(s: string)
    requires Trimmed(s)
    ensures Strip(s) == s
  {
  }

  predicate IsQuote(c: char) {
    c == '"' || c == '\''
  }

  function Occurrences(s: string, c: char): nat {
    if s == "" then 0 else (if s[0] == c then 1 else 0) + Occurrences(s[1..], c)
  }

  // ----- numbers -----

  predicate IsDigit(c: char) {
    '0' <= c <= '9'
  }

  function Digit(c: char): nat
    requires IsDigit(c)
  {
    c as int - '0' as int
  }

  /** Decimal digits, single underscores between them; `after` tells whether a digit came last. */
  function Digits(s: string, sofar: nat, after: bool): Option<nat> {
    if s == "" then (if after then Some(sofar) else None)
    else if IsDigit(s[0]) then Digits(s[1..], 10 * sofar + Digit(s[0]), true)
    else if s[0] == '_' && after then Digits(s[1..], sofar, false)
    else None
  }

  /** `int(raw, 10)` for ASCII text; `None` is a `ValueError`. */
  function ParseInt(raw: string): Option<int> {
    if raw != "" && (raw[0] == '-' || raw[0] == '+') then
      match Digits(raw[1..], 0, false)
      case None => None
      case Some(n) =>
        var signed: int := if raw[0] == '-' then 0 - n else n;
        Some(signed)
    else match Digits(raw, 0, false)
      case None => None
      case Some(n) => Some(n)
  }

  // ----- scalars -----

  predicate Marker(c: char) {
    c in "&*|>{[%@`"
  }

  /** `_parse_scalar`. */
  function ParseScalar(text: string): Result<Value> {
    var raw := Strip(text);
    if raw == "" then Err(EmptyValue)
    else if IsQuote(raw[0]) then
      if |raw| < 2 || raw[|raw| - 1] != raw[0] || Occurrences(raw, raw[0]) != 2 then Err(BadQuotes)
      else Ok(Str(raw[1..|raw| - 1]))
    else if raw == "[]" then Ok(List([]))
    else if raw == "{}" then Ok(Map([]))
    else if Marker(raw[0]) then Err(Unsupported)
    else if raw == "true" then Ok(Bool(true))
    else if raw == "false" then Ok(Bool(false))
    else if raw == "null" || raw == "~" then Err(NullValue)
    else match ParseInt(raw)
      case Some(n) => Ok(Int(n))
      case None => Ok(Str(raw))
  }

  // ----- keys -----

  /** A colon that ends a key: the last character, or followed by a blank. */
  predicate EndsKey(line: string, pos: nat)
    requires pos < |line|
  {
    line[pos] == ':' && (pos + 1 == |line| || line[pos + 1] == ' ')
  }

  /** The first colon at or after `pos` that ends a key, or the length. */
  function KeyEnd(line: string, pos: nat): (e: nat)
    requires pos <= |line|
    ensures pos <= e <= |line|
    ensures e < |line| ==> EndsKey(line, e)
    ensures forall k :: pos <= k < e ==> !EndsKey(line, k)
    decreases |line| - pos
  {
    if pos == |line| || EndsKey(line, pos) then pos else KeyEnd(line, pos + 1)
  }

  /** `_looks_like_mapping`. */
  predicate LooksLikeMapping(body: string) {
    KeyEnd(body, 0) < |body|
  }

  /** A key and the rest of its line. */
  datatype Split = Split(key: string, rest: string)

  /** `_split_key`. */
  function SplitKey(line: string): Result<Split> {
    var e := KeyEnd(line, 0);
    if e == |line| then Err(NoColon)
    else
      var key := Strip(line[..e]);
      if key == "" then Err(EmptyKey)
      else if IsQuote(key[0]) then
        match ParseScalar(key)
        case Ok(Str(text)) => Ok(Split(text, Strip(line[e + 1..])))
        case Ok(_) => Err(BadQuotes)
        case Err(error) => Err(error)
      else Ok(Split(key, Strip(line[e + 1..])))
  }

  // ----- comments -----

  /** A comment starts at `pos`, outside quotes. */
  predicate StartsComment(line: string, pos: nat)
    requires pos < |line|
  {
    line[pos] == '#' && (pos == 0 || line[pos - 1] == ' ' || line[pos - 1] == '\t')
  }

  /** The scan of `_strip_comment` from `pos`, inside `quote` if there is one. */
  function CutComment(line: string, pos: nat, quote: Option<char>): string
    requires pos <= |line|
    decreases |line| - pos
  {
    if pos == |line| then line
    else if quote.Some? then CutComment(line, pos + 1, if line[pos] == quote.value then None else quote)
    else if IsQuote(line[pos]) then CutComment(line, pos + 1, Some(line[pos]))
    else if StartsComment(line, pos) then line[..pos]
    else CutComment(line, pos + 1, None)
  }

  /** `_strip_comment` with its loop. */
  method StripComment(line: string) returns (kept: string)
    ensures kept == CutComment(line, 0, None)
    ensures kept <= line
  {
    var quote: Option<char> := None;
    for pos := 0 to |line|
      invariant CutComment(line, 0, None) == CutComment(line, pos, quote)
    {
      var c := line[pos];
      if quote.Some? {
        if c == quote.value { quote := None; }
      } else if IsQuote(c) {
        quote := Some(c);
      } else if StartsComment(line, pos) {
        return line[..pos];
      }
    }
    return line;
  }

  // ----- logical lines -----

  datatype Line = Line(indent: nat, content: string)

  /** The logical line of a raw one, if it holds anything. */
  function LogicalLine(raw: string): Option<Line> {
    var stripped := RightStrip(CutComment(raw, 0, None));
    if Strip(stripped) == "" then None else Some(Line(Indent(stripped), Strip(stripped)))
  }

  function LogicalLines(raw: seq<string>): Result<seq<Line>> {
    if raw == [] then Ok([])
    else
      var before :- LogicalLines(raw[..|raw| - 1]);
      var last := raw[|raw| - 1];
      if '\t' in last then Err(TabFound)
      else match LogicalLine(last)
        case None => Ok(before)
        case Some(line) => Ok(before + [line])
  }

  /** `str.splitlines` on text whose newlines are already `\n`. */
  predicate IsBreak(c: char) {
    '\n' <= c <= '\r' || '\U{1C}' <= c <= '\U{1E}' || c == '\U{85}' || c == '\U{2028}' || c == '\U{2029}'
  }

  function FirstBreak(text: string): (n: nat)
    ensures n <= |text|
    ensures forall k :: 0 <= k < n ==> !IsBreak(text[k])
    ensures n < |text| ==> IsBreak(text[n])
  {
    if text == "" || IsBreak(text[0]) then 0 else 1 + FirstBreak(text[1..])
  }

  function SplitLines(text: string): seq<string>
    decreases |text|
  {
    if text == "" then []
    else
      var n := FirstBreak(text);
      if n == |text| then [text] else [text[..n]] + SplitLines(text[n + 1..])
  }
}
