/** The hashed buffer of a TEE policy: sorted allowlists, their lengths, the minimum version. */
module TeePolicy {
  import opened Basics
  import opened ByteOrder
  import opened HexText

  /** A measurement as it is read: 32 bytes, or fewer where its text holds white space. */
  type Measurement = seq<Byte>

  /** The allowlists as texts, and the minimum version. */
  datatype Policy = Policy(signers: seq<string>, enclaves: seq<string>, minimumSvn: nat)

  // ----- the texts -----

  /** `b256_bytes` on every text of a list; `None` if one is refused. */
  function Measurements(texts: seq<string>): Option<seq<Measurement>> {
    if texts == [] then Some([])
    else
      var front, last := Measurements(texts[..|texts| - 1]), Read(texts[|texts| - 1], 64);
      if front.None? || last.None? then None else Some(front.value + [last.value])
  }

  lemma {:induction false} MeasurementsAt(texts: seq<string>)
    ensures Measurements(texts).Some? <==> forall k :: 0 <= k < |texts| ==> Read(texts[k], 64).Some?
    ensures Measurements(texts).Some? ==>
              && |Measurements(texts).value| == |texts|
              && forall k :: 0 <= k < |texts| ==> Some(Measurements(texts).value[k]) == Read(texts[k], 64)
    decreases |texts|
  {
    hide Read;
    if texts != [] {
      var front := texts[..|texts| - 1];
      MeasurementsAt(front);
      if forall k :: 0 <= k < |texts| ==> Read(texts[k], 64).Some? {
        forall k | 0 <= k < |front| ensures Read(front[k], 64).Some? { assert Read(texts[k], 64).Some?; }
      }
    }
  }

  /** No text of the list holds white space. */
  predicate NoBlanks(texts: seq<string>) {
    forall k :: 0 <= k < |texts| ==> Blankless(texts[k])
  }

  predicate FullWidth(s: seq<Measurement>) {
    forall k :: 0 <= k < |s| ==> |s[k]| == 32
  }

  /** The measurements have their full width exactly when no text holds white space. */
  lemma FullWidthExactlyWhen(texts: seq<string>)
    requires Measurements(texts).Some?
    ensures FullWidth(Measurements(texts).value) <==> NoBlanks(texts)
  {
    hide Measurements, Read, Blankless;
    MeasurementsAt(texts);
    forall k | 0 <= k < |texts| ensures |Measurements(texts).value[k]| == 32 <==> Blankless(texts[k]) {
      assert Read(texts[k], 64) == Some(Measurements(texts).value[k]);
      FullExactlyWhen(texts[k], 32);
    }
  }

  // ----- sorting -----

  predicate Ordered(s: seq<Measurement>) {
    forall i, j :: 0 <= i < j < |s| ==> AtMost(s[i], s[j])
  }

  function Insert(m: Measurement, s: seq<Measurement>): seq<Measurement> {
    if s == [] || AtMost(m, s[0]) then [m] + s else [s[0]] + Insert(m, s[1..])
  }

  /** `sorted(...)`. */
  function Sorted(s: seq<Measurement>): seq<Measurement> {
    if s == [] then [] else Insert(s[0], Sorted(s[1..]))
  }

  lemma {:induction false} InsertSorts(m: Measurement, s: seq<Measurement>)
    requires Ordered(s)
    ensures Ordered(Insert(m, s)) && multiset(Insert(m, s)) == multiset(s) + multiset{m}
    ensures |Insert(m, s)| == |s| + 1
    decreases |s|
  {
    hide AtMost;
    if s == [] {
    } else if AtMost(m, s[0]) {
      forall k | 0 <= k < |s| ensures AtMost(m, s[k]) {
        if k > 0 { AtMostTransitive(m, s[0], s[k]); }
      }
    } else {
      InsertSorts(m, s[1..]);
      AtMostTotal(m, s[0]);
      var rest := Insert(m, s[1..]);
      assert s == [s[0]] + s[1..];
      forall k | 0 <= k < |rest| ensures AtMost(s[0], rest[k]) {
        assert rest[k] in multiset(rest);
        if rest[k] != m { assert rest[k] in multiset(s[1..]); assert rest[k] in s[1..]; }
      }
    }
  }

  lemma {:induction false} SortedSorts(s: seq<Measurement>)
    ensures Ordered(Sorted(s)) && multiset(Sorted(s)) == multiset(s) && |Sorted(s)| == |s|
    decreases |s|
  {
    if s != [] {
      SortedSorts(s[1..]);
      InsertSorts(s[0], Sorted(s[1..]));
      assert s == [s[0]] + s[1..];
    }
  }

  lemma FirstAgrees(a: seq<Measurement>, b: seq<Measurement>)
    requires Ordered(a) && Ordered(b) && multiset(a) == multiset(b) && a != [] && b != []
    ensures a[0] == b[0]
  {
    hide AtMost;
    assert a[0] in multiset(a) && b[0] in multiset(b);
    assert a[0] in b && b[0] in a;
    var i :| 0 <= i < |b| && b[i] == a[0];
    var j :| 0 <= j < |a| && a[j] == b[0];
    if i > 0 && j > 0 { AtMostAntisymmetric(a[0], b[0]); }
  }

  lemma TailHolds(a: seq<Measurement>)
    requires a != []
    ensures multiset(a[1..]) == multiset(a) - multiset{a[0]}
  {
    assert a == [a[0]] + a[1..];
  }

  /** An ordered list is determined by what it holds. */
  lemma {:induction false} OrderedUnique(a: seq<Measurement>, b: seq<Measurement>)
    requires Ordered(a) && Ordered(b) && multiset(a) == multiset(b)
    ensures a == b
    decreases |a|
  {
    hide AtMost;
    assert |a| == |multiset(a)| && |b| == |multiset(b)|;
    if a != [] {
      FirstAgrees(a, b);
      TailHolds(a);
      TailHolds(b);
      OrderedUnique(a[1..], b[1..]);
      assert a == [a[0]] + a[1..] && b == [b[0]] + b[1..];
    }
  }

  /** Sorting forgets exactly the order. */
  lemma SortedAgree(a: seq<Measurement>, b: seq<Measurement>)
    ensures Sorted(a) == Sorted(b) <==> multiset(a) == multiset(b)
  {
    SortedSorts(a);
    SortedSorts(b);
    if multiset(a) == multiset(b) { OrderedUnique(Sorted(a), Sorted(b)); }
  }

  // ----- the buffer -----

  /** `n.to_bytes(2, "big")`; a larger number does not fit. */
  predicate Fits(n: nat) {
    n < 0x1_0000
  }

  function U16(n: nat): (s: seq<Byte>)
    requires Fits(n)
    ensures |s| == 2
  {
    [n / 256, n % 256]
  }

  function Flat(s: seq<Measurement>): (f: seq<Byte>)
    ensures FullWidth(s) ==> |f| == 32 * |s|
  {
    if s == [] then [] else Flat(s[..|s| - 1]) + s[|s| - 1]
  }

  /** The tag "outbe/tee/policy/v1" in bytes. */
  const TAG: seq<Byte> := [111, 117, 116, 98, 101, 47, 116, 101, 101, 47, 112, 111, 108, 105, 99, 121, 47, 118, 49]

  /** The texts are accepted, and the lengths and the version fit two bytes. */
  predicate Encodable(p: Policy) {
    && Measurements(p.signers).Some? && Measurements(p.enclaves).Some?
    && Fits(|p.signers|) && Fits(|p.enclaves|) && Fits(p.minimumSvn)
  }

  function Encoded(signers: seq<Measurement>, enclaves: seq<Measurement>, svn: nat): seq<Byte>
    requires Fits(|signers|) && Fits(|enclaves|) && Fits(svn)
  {
    TAG + (U16(|signers|) + (Flat(signers) + (U16(|enclaves|) + (Flat(enclaves) + U16(svn)))))
  }

  /** The buffer that is hashed; `None` where a text is refused or a number does not fit. */
  function Buffer(p: Policy): Option<seq<Byte>> {
    if !Encodable(p) then None
    else
      var signers, enclaves := Sorted(Measurements(p.signers).value), Sorted(Measurements(p.enclaves).value);
      SortedFits(p.signers);
      SortedFits(p.enclaves);
      Some(Encoded(signers, enclaves, p.minimumSvn))
  }

  lemma SortedFits(texts: seq<string>)
    requires Measurements(texts).Some?
    ensures |Sorted(Measurements(texts).value)| == |texts|
  {
    hide Measurements, Sorted;
    MeasurementsAt(texts);
    SortedSorts(Measurements(texts).value);
  }

  /** `compute_tee_policy_hash` up to the hash: the texts are read and the buffer grows in loops. */
  method PolicyBuffer(p: Policy) returns (r: Option<seq<Byte>>)
    ensures r == Buffer(p)
  {
    hide Sorted, Measurements, Flat, U16;
    var signed := ReadAll(p.signers);
    var enclaved := ReadAll(p.enclaves);
    if signed.None? || enclaved.None? { return None; }
    SortedFits(p.signers);
    SortedFits(p.enclaves);
    var signers, enclaves := Sorted(signed.value), Sorted(enclaved.value);
    var buf := TAG;
    if !Fits(|signers|) { return None; }
    buf := buf + U16(|signers|);
    buf := Append(buf, signers);
    if !Fits(|enclaves|) { return None; }
    buf := buf + U16(|enclaves|);
    buf := Append(buf, enclaves);
    if !Fits(p.minimumSvn) { return None; }
    buf := buf + U16(p.minimumSvn);
    Regroup(TAG, U16(|signers|), Flat(signers), U16(|enclaves|), Flat(enclaves), U16(p.minimumSvn));
    return Some(buf);
  }

  method ReadAll(texts: seq<string>) returns (r: Option<seq<Measurement>>)
    ensures r == Measurements(texts)
  {
    hide Read;
    var read: seq<Measurement> := [];
    for k := 0 to |texts|
      invariant Measurements(texts[..k]) == Some(read)
    {
      assert texts[..k + 1][..k] == texts[..k];
      var m := Read(texts[k], 64);
      if m.None? {
        MeasurementsAt(texts);
        return None;
      }
      read := read + [m.value];
    }
    assert texts[..|texts|] == texts;
    return Some(read);
  }

  lemma Regroup(a: seq<Byte>, b: seq<Byte>, c: seq<Byte>, d: seq<Byte>, e: seq<Byte>, f: seq<Byte>)
    ensures ((((a + b) + c) + d) + e) + f == a + (b + (c + (d + (e + f))))
  {
  }

  method Append(buf: seq<Byte>, list: seq<Measurement>) returns (r: seq<Byte>)
    ensures r == buf + Flat(list)
  {
    r := buf;
    for k := 0 to |list|
      invariant r == buf + Flat(list[..k])
    {
      assert list[..k + 1][..k] == list[..k];
      r := r + list[k];
    }
    assert list[..|list|] == list;
  }

  // ----- canonicity -----

  lemma {:induction false} FlatInjective(a: seq<Measurement>, b: seq<Measurement>)
    requires |a| == |b| && FullWidth(a) && FullWidth(b) && Flat(a) == Flat(b)
    ensures a == b
    decreases |a|
  {
    if a != [] {
      var a', b' := a[..|a| - 1], b[..|b| - 1];
      assert Flat(a)[..32 * |a'|] == Flat(a') && Flat(b)[..32 * |b'|] == Flat(b');
      assert Flat(a)[32 * |a'|..] == a[|a| - 1] && Flat(b)[32 * |b'|..] == b[|b| - 1];
      FlatInjective(a', b');
      assert a == a' + [a[|a| - 1]] && b == b' + [b[|b| - 1]];
    }
  }

  lemma U16Injective(m: nat, n: nat)
    requires Fits(m) && Fits(n) && U16(m) == U16(n)
    ensures m == n
  {
    assert U16(m)[0] == U16(n)[0] && U16(m)[1] == U16(n)[1];
  }

  /** Equal heads of equal length can be cut off. */
  lemma CutHead(a: seq<Byte>, x: seq<Byte>, b: seq<Byte>, y: seq<Byte>)
    requires |a| == |b| && a + x == b + y
    ensures a == b && x == y
  {
    assert (a + x)[..|a|] == a && (b + y)[..|b|] == b;
    assert (a + x)[|a|..] == x && (b + y)[|b|..] == y;
  }

  /** With full-width measurements the buffer is uniquely decodable. */
  lemma EncodedInjective(a: seq<Measurement>, b: seq<Measurement>, m: nat, c: seq<Measurement>, d: seq<Measurement>,
      n: nat)
    requires Fits(|a|) && Fits(|b|) && Fits(m) && Fits(|c|) && Fits(|d|) && Fits(n)
    requires FullWidth(a) && FullWidth(b) && FullWidth(c) && FullWidth(d) && Encoded(a, b, m) == Encoded(c, d, n)
    ensures a == c && b == d && m == n
  {
    hide Flat, U16;
    var s, t, u, v, x, y := Flat(a), Flat(c), Flat(b), Flat(d), U16(m), U16(n);
    CutHead(TAG, U16(|a|) + (s + (U16(|b|) + (u + x))), TAG, U16(|c|) + (t + (U16(|d|) + (v + y))));
    CutHead(U16(|a|), s + (U16(|b|) + (u + x)), U16(|c|), t + (U16(|d|) + (v + y)));
    U16Injective(|a|, |c|);
    CutHead(s, U16(|b|) + (u + x), t, U16(|d|) + (v + y));
    FlatInjective(a, c);
    CutHead(U16(|b|), u + x, U16(|d|), v + y);
    U16Injective(|b|, |d|);
    CutHead(u, x, v, y);
    FlatInjective(b, d);
    U16Injective(m, n);
  }

  /** The same measurements, each as often, and the same minimum version. */
  predicate SamePolicy(p: Policy, q: Policy)
    requires Encodable(p) && Encodable(q)
  {
    && multiset(Measurements(p.signers).value) == multiset(Measurements(q.signers).value)
    && multiset(Measurements(p.enclaves).value) == multiset(Measurements(q.enclaves).value)
    && p.minimumSvn == q.minimumSvn
  }

  /** Policies that allow the same share the buffer, whatever their texts and their order. */
  lemma SamePolicySameBuffer(p: Policy, q: Policy)
    requires Encodable(p) && Encodable(q) && SamePolicy(p, q)
    ensures Buffer(p) == Buffer(q)
  {
    hide Sorted, Measurements, Encoded;
    SortedAgree(Measurements(p.signers).value, Measurements(q.signers).value);
    SortedAgree(Measurements(p.enclaves).value, Measurements(q.enclaves).value);
  }

  predicate PolicyNoBlanks(p: Policy) {
    NoBlanks(p.signers) && NoBlanks(p.enclaves)
  }

  /**
   Where no text holds white space, two policies share the hashed buffer exactly when they
   allow the same measurements, as often, from the same version on.
   */
  lemma BufferIsCanonical(p: Policy, q: Policy)
    requires Encodable(p) && Encodable(q) && PolicyNoBlanks(p) && PolicyNoBlanks(q)
    ensures Buffer(p) == Buffer(q) <==> SamePolicy(p, q)
  {
    hide Sorted, Measurements, Encoded, NoBlanks, FullWidth;
    if SamePolicy(p, q) { SamePolicySameBuffer(p, q); }
    if Buffer(p) == Buffer(q) {
      SortedFull(p.signers); SortedFull(p.enclaves); SortedFull(q.signers); SortedFull(q.enclaves);
      EncodedInjective(Sorted(Measurements(p.signers).value), Sorted(Measurements(p.enclaves).value), p.minimumSvn,
                       Sorted(Measurements(q.signers).value), Sorted(Measurements(q.enclaves).value), q.minimumSvn);
      SortedAgree(Measurements(p.signers).value, Measurements(q.signers).value);
      SortedAgree(Measurements(p.enclaves).value, Measurements(q.enclaves).value);
    }
  }

  lemma SortedFull(texts: seq<string>)
    requires Measurements(texts).Some? && NoBlanks(texts)
    ensures FullWidth(Sorted(Measurements(texts).value)) && |Sorted(Measurements(texts).value)| == |texts|
  {
    hide Measurements, Sorted, NoBlanks;
    FullWidthExactlyWhen(texts);
    SortedFits(texts);
    var s := Measurements(texts).value;
    SortedSorts(s);
    forall k | 0 <= k < |Sorted(s)| ensures |Sorted(s)[k]| == 32 {
      assert Sorted(s)[k] in multiset(Sorted(s));
      assert Sorted(s)[k] in s;
    }
  }

  // ----- white space breaks it -----

  /** Byte strings that are cut in different places make the same buffer. */
  lemma CutElsewhere(a: seq<Byte>, b: seq<Byte>, c: seq<Byte>, d: seq<Byte>)
    requires AtMost(a, b) && AtMost(c, d) && a + b == c + d
    ensures Flat(Sorted([a, b])) == Flat(Sorted([c, d]))
  {
    PairSorts(a, b);
    PairSorts(c, d);
  }

  lemma PairSorts(a: seq<Byte>, b: seq<Byte>)
    requires AtMost(a, b)
    ensures Sorted([a, b]) == [a, b] && Flat([a, b]) == a + b
  {
    assert Sorted([b]) == [b] by { assert Sorted([b][1..]) == []; }
    assert [a, b][1..] == [b];
    assert [a, b][..1] == [a] && [a][..0] == [];
    assert Flat([a]) == a;
  }

  /**
   Two policies of two signers each that allow different measurements and share the buffer:
   31 zero bytes and 32 ones, against 31 zero bytes with a one and 31 ones.
   */
  lemma BlanksBreakCanonicity(svn: nat)
    requires Fits(svn)
    ensures var p := Policy([Repeated("00", 31) + "  ", Repeated("01", 32)], [], svn);
            var q := Policy([Repeated("00", 31) + "01", Repeated("01", 31) + "  "], [], svn);
            Encodable(p) && Encodable(q) && !SamePolicy(p, q) && Buffer(p) == Buffer(q)
  {
    hide Sorted, Flat, Measurements, Repeated, Copies, Read, AtMost, Encoded;
    var p := Policy([Repeated("00", 31) + "  ", Repeated("01", 32)], [], svn);
    var q := Policy([Repeated("00", 31) + "01", Repeated("01", 31) + "  "], [], svn);
    var a, b, c, d := Copies(0, 31), Copies(1, 32), Copies(0, 31) + [1], Copies(1, 31);
    TextsRead();
    TwoMeasurements(p.signers[0], p.signers[1], a, b);
    TwoMeasurements(q.signers[0], q.signers[1], c, d);
    NoMeasurements();
    Orders();
    CutElsewhere(a, b, c, d);
    NotTheSame(a, b, c, d);
    SameEncoding([a, b], [c, d], svn);
  }

  /** Lists of one length that are written to the same bytes make the same buffer. */
  lemma SameEncoding(a: seq<Measurement>, b: seq<Measurement>, svn: nat)
    requires |a| == |b| && Fits(|a|) && Fits(svn) && Flat(Sorted(a)) == Flat(Sorted(b))
    ensures |Sorted(a)| == |Sorted(b)| == |a| && |Sorted([])| == 0
    ensures Encoded(Sorted(a), Sorted([]), svn) == Encoded(Sorted(b), Sorted([]), svn)
  {
    hide Sorted, Flat, U16;
    SortedSorts(a);
    SortedSorts(b);
    SortedSorts([]);
  }

  lemma NotTheSame(a: seq<Byte>, b: seq<Byte>, c: seq<Byte>, d: seq<Byte>)
    requires a != c && a != d
    ensures multiset([a, b]) != multiset([c, d])
  {
    assert a in multiset([a, b]) && a !in multiset([c, d]);
  }

  lemma NoMeasurements()
    ensures Measurements([]) == Some([])
  {
  }

  lemma TwoMeasurements(s: string, t: string, a: seq<Byte>, b: seq<Byte>)
    requires Read(s, 64) == Some(a) && Read(t, 64) == Some(b)
    ensures Measurements([s, t]) == Some([a, b])
  {
    hide Read;
    assert [s][..0] == [] && [] + [a] == [a];
    assert Measurements([s]) == Some([a]);
    assert [s, t][..1] == [s] && [a] + [b] == [a, b];
  }

  /** Texts of these digits and blanks are read as they stand. */
  lemma ReadsPlain(text: string)
    requires |text| == 64 && forall k :: 0 <= k < |text| ==> text[k] == '0' || text[k] == '1' || text[k] == ' '
    ensures Read(text, 64) == Pairs(text)
  {
    LowerPlain(text);
    NothingToRemove(text);
  }

  lemma TextsRead()
    ensures Read(Repeated("00", 31) + "  ", 64) == Some(Copies(0, 31)) &&
            Read(Repeated("01", 32), 64) == Some(Copies(1, 32))
    ensures Read(Repeated("00", 31) + "01", 64) == Some(Copies(0, 31) + [1]) &&
            Read(Repeated("01", 31) + "  ", 64) == Some(Copies(1, 31))
  {
    hide Pairs, Repeated, Read;
    RepeatedPlain("00", 31); RepeatedPlain("01", 31); RepeatedPlain("01", 32);
    ReadsPlain(Repeated("00", 31) + "  "); ReadsPlain(Repeated("01", 32));
    ReadsPlain(Repeated("00", 31) + "01"); ReadsPlain(Repeated("01", 31) + "  ");
    TailsRead();
    RepeatedReads("00", 0, 31, "  ");
    RepeatedReads("01", 1, 32, "");
    RepeatedReads("00", 0, 31, "01");
    RepeatedReads("01", 1, 31, "  ");
    assert Repeated("01", 32) + "" == Repeated("01", 32);
    assert Copies(0, 31) + [] == Copies(0, 31) && Copies(1, 32) + [] == Copies(1, 32) &&
           Copies(1, 31) + [] == Copies(1, 31);
  }

  lemma TailsRead()
    ensures Pairs("  ") == Some([]) && Pairs("") == Some([]) && Pairs("01") == Some([1])
  {
    assert "  "[1..] == " " && " "[1..] == "";
    assert "01"[2..] == "" && [1] + [] == [1];
    assert HexDigit('0') == Some(0) && HexDigit('1') == Some(1);
  }

  lemma Orders()
    ensures Copies(0, 31) != Copies(0, 31) + [1] && Copies(0, 31) != Copies(1, 31)
    ensures AtMost(Copies(0, 31), Copies(1, 32)) && AtMost(Copies(0, 31) + [1], Copies(1, 31))
    ensures Copies(0, 31) + Copies(1, 32) == (Copies(0, 31) + [1]) + Copies(1, 31)
  {
    assert Copies(0, 31)[0] == 0 && Copies(1, 31)[0] == 1;
  }

  // ----- white space on one side is enough -----

  /** 255 texts of nothing but blanks, and one of a single zero byte. */
  function BlankEnclaves(): seq<string> {
    seq(256, k => if k < 255 then Repeated(" ", 64) else "00" + Repeated(" ", 62))
  }

  function BlankMeasurements(): seq<Measurement> {
    seq(256, k => if k < 255 then [] else [0])
  }

  lemma BlankEnclavesRead()
    ensures Measurements(BlankEnclaves()) == Some(BlankMeasurements())
  {
    hide Measurements, Read, Repeated;
    BlanksRead(64);
    BlanksRead(62);
    ReadsPlain(Repeated(" ", 64));
    ReadsPlain("00" + Repeated(" ", 62));
    DigitsThenBlanks();
    MeasurementsAt(BlankEnclaves());
    assert Measurements(BlankEnclaves()).value == BlankMeasurements();
  }

  lemma DigitsThenBlanks()
    ensures Pairs("00" + Repeated(" ", 62)) == Some([0])
  {
    hide Repeated;
    BlanksRead(62);
    BlanksBehind("00", Repeated(" ", 62));
    assert "00"[2..] == "" && [0] + [] == [0];
  }

  lemma {:induction false} EmptyFlat(s: seq<Measurement>)
    requires forall k :: 0 <= k < |s| ==> s[k] == []
    ensures Flat(s) == []
    decreases |s|
  {
    if s != [] { EmptyFlat(s[..|s| - 1]); }
  }

  lemma BlankMeasurementsFlat()
    ensures Sorted(BlankMeasurements()) == BlankMeasurements() && Flat(BlankMeasurements()) == [0]
  {
    hide Sorted;
    var s := BlankMeasurements();
    SortedSorts(s);
    OrderedUnique(Sorted(s), s);
    EmptyFlat(s[..255]);
  }

  /**
   One policy without any white space and one with it share the buffer too: the count of the
   second one's enclaves is read from the first one's signer.
   */
  lemma BlanksOnOneSideBreakCanonicity(svn: nat)
    requires Fits(svn)
    ensures var p := Policy([Repeated("00", 31) + "01"], [], svn);
            var q := Policy([Repeated("00", 31) + "  "], BlankEnclaves(), svn);
            Encodable(p) && PolicyNoBlanks(p) && Encodable(q) && !SamePolicy(p, q) && Buffer(p) == Buffer(q)
  {
    hide Sorted, Flat, Measurements, Repeated, Copies, Read, AtMost, BlankEnclaves, BlankMeasurements;
    var p := Policy([Repeated("00", 31) + "01"], [], svn);
    var q := Policy([Repeated("00", 31) + "  "], BlankEnclaves(), svn);
    TextsRead();
    RepeatedPlain("00", 31);
    NoMeasurements();
    OneMeasurement(p.signers[0], Copies(0, 31) + [1]);
    OneMeasurement(q.signers[0], Copies(0, 31));
    BlankEnclavesRead();
    BlankMeasurementsFlat();
    assert |BlankMeasurements()| == 256 && |BlankEnclaves()| == 256 by { Sizes(); }
    assert multiset(BlankMeasurements()) != multiset([]) by { assert |multiset(BlankMeasurements())| == 256; }
    OneSided(Copies(0, 31), svn);
  }

  lemma Sizes()
    ensures |BlankMeasurements()| == 256 && |BlankEnclaves()| == 256
  {
  }

  lemma OneMeasurement(s: string, a: seq<Byte>)
    requires Read(s, 64) == Some(a)
    ensures Measurements([s]) == Some([a]) && Sorted([a]) == [a] && Flat([a]) == a && Sorted([]) == []
  {
    hide Read;
    assert [s][..0] == [] && [] + [a] == [a];
    assert [a][1..] == [] && [a][..0] == [];
  }

  lemma OneSided(a: seq<Byte>, svn: nat)
    requires Fits(svn) && |BlankMeasurements()| == 256 && Flat(BlankMeasurements()) == [0]
    requires Flat([a]) == a && Flat([a + [1]]) == a + [1]
    ensures Encoded([a + [1]], [], svn) == Encoded([a], BlankMeasurements(), svn)
  {
    hide Flat, BlankMeasurements;
    assert Flat([]) == [] by { EmptyFlat([]); }
    assert U16(256) == [1, 0] && U16(0) == [0, 0] && U16(1) == [0, 1];
    assert (a + [1]) + ([0, 0] + ([] + U16(svn))) == a + ([1, 0] + ([0] + U16(svn)));
  }
}
