/** Validator p2p addresses and their tagged encoding, version 1. */
module P2pAddress {
  import opened Basics
  import YamlText

  datatype Ip = V4(packed: seq<Byte>) | V6(packed: seq<Byte>)

  datatype Socket = Socket(ip: Ip, port: nat)

  datatype Ingress = AtSocket(socket: Socket) | AtHost(host: string, port: nat)

  datatype Address = Symmetric(socket: Socket) | Asymmetric(ingress: Ingress, egress: Socket)

  predicate PortOk(port: int) {
    0 < port <= 65535
  }

  predicate IpOk(ip: Ip) {
    |ip.packed| == if ip.V4? then 4 else 16
  }

  predicate SocketOk(s: Socket) {
    IpOk(s.ip) && PortOk(s.port)
  }

  // ----- host names -----

  /** `host.split(".")`. */
  function Labels(host: string): (labels: seq<string>)
    ensures labels != []
  {
    if host == "" then [""]
    else
      var rest := Labels(host[1..]);
      if host[0] == '.' then [""] + rest else [[host[0]] + rest[0]] + rest[1..]
  }

  predicate IsLabelChar(c: char) {
    '0' <= c <= '9' || 'a' <= c <= 'z' || 'A' <= c <= 'Z' || c == '-'
  }

  predicate LabelOk(name: string) {
    && name != "" && |name| <= 63 && name[0] != '-' && name[|name| - 1] != '-'
    && forall k :: 0 <= k < |name| ==> IsLabelChar(name[k])
  }

  /** `validate_hostname`. */
  predicate HostOk(host: string) {
    host != "" && |host| <= 253 && forall k :: 0 <= k < |Labels(host)| ==> LabelOk(Labels(host)[k])
  }

  /** An accepted host name is plain ASCII. */
  lemma {:induction false} HostIsAscii(host: string, k: nat)
    requires k < |host| && forall i :: 0 <= i < |Labels(host)| ==> AllLabelChars(Labels(host)[i])
    ensures IsLabelChar(host[k]) || host[k] == '.'
    decreases |host|
  {
    var rest := Labels(host[1..]);
    if host[0] == '.' {
      forall i | 0 <= i < |rest| ensures AllLabelChars(rest[i]) { assert Labels(host)[i + 1] == rest[i]; }
    } else {
      assert AllLabelChars(Labels(host)[0]);
      assert Labels(host)[0][0] == host[0];
      forall i | 0 <= i < |rest| ensures AllLabelChars(rest[i]) {
        if i == 0 { assert rest[0] == Labels(host)[0][1..]; } else { assert Labels(host)[i] == rest[i]; }
      }
    }
    if k > 0 { HostIsAscii(host[1..], k - 1); }
  }

  predicate AllLabelChars(name: string) {
    forall k :: 0 <= k < |name| ==> IsLabelChar(name[k])
  }

  predicate IsAscii(s: string) {
    forall k :: 0 <= k < |s| ==> s[k] as int < 128
  }

  lemma HostBytesFit(host: string)
    requires HostOk(host)
    ensures IsAscii(host)
  {
    forall k | 0 <= k < |host| ensures host[k] as int < 128 { HostIsAscii(host, k); }
  }

  /** `host.encode()` for ASCII text. */
  function HostBytes(host: string): (s: seq<Byte>)
    requires IsAscii(host)
    ensures |s| == |host| && forall k :: 0 <= k < |s| ==> s[k] == host[k] as int
  {
    seq(|host|, k requires 0 <= k < |host| => host[k] as int)
  }

  predicate IngressOk(i: Ingress) {
    match i
    case AtSocket(s) => SocketOk(s)
    case AtHost(host, port) => HostOk(host) && PortOk(port)
  }

  predicate AddressOk(a: Address) {
    match a
    case Symmetric(s) => SocketOk(s)
    case Asymmetric(i, e) => IngressOk(i) && SocketOk(e)
  }

  // ----- encoding -----

  function U16(n: nat): (s: seq<Byte>)
    requires n < 0x1_0000
    ensures |s| == 2
  {
    [n / 256, n % 256]
  }

  function FromU16(s: seq<Byte>): (n: nat)
    requires |s| == 2
    ensures n < 0x1_0000
  {
    var high: nat := s[0];
    256 * high + s[1]
  }

  lemma U16RoundTrip(n: nat)
    requires n < 0x1_0000
    ensures FromU16(U16(n)) == n
  {
  }

  /** `encode_p2p_socket`, from the parsed socket. */
  function EncodeSocket(s: Socket): (e: seq<Byte>)
    requires SocketOk(s)
    ensures |e| <= 19
  {
    [if s.ip.V4? then 4 else 6] + s.ip.packed + U16(s.port)
  }

  /** `encode_p2p_ingress`. */
  function EncodeIngress(i: Ingress): (e: seq<Byte>)
    requires IngressOk(i)
    ensures |e| <= 258
  {
    match i
    case AtSocket(s) => [0] + EncodeSocket(s)
    case AtHost(host, port) =>
      HostBytesFit(host);
      [1] + U16(|host|) + HostBytes(host) + U16(port)
  }

  function Encode(a: Address): (e: seq<Byte>)
    requires AddressOk(a)
    ensures |e| <= 278
  {
    match a
    case Symmetric(s) => [0] + EncodeSocket(s)
    case Asymmetric(i, egress) => [1] + EncodeIngress(i) + EncodeSocket(egress)
  }

  // ----- decoding -----

  /** A decoded part and what follows it. */
  datatype Decoded<+T> = Decoded(value: T, rest: seq<Byte>)

  function DecodeSocket(s: seq<Byte>): Option<Decoded<Socket>> {
    if s == [] then None
    else
      var size := if s[0] == 4 then 4 else if s[0] == 6 then 16 else 0;
      if size == 0 || |s| < size + 3 then None
      else
        var packed := s[1..size + 1];
        Some(Decoded(Socket(if s[0] == 4 then V4(packed) else V6(packed), FromU16(s[size + 1..size + 3])),
          s[size + 3..]))
  }

  function DecodeHost(s: seq<Byte>): (host: string)
    ensures |host| == |s|
  {
    seq(|s|, k requires 0 <= k < |s| => s[k] as char)
  }

  function DecodeIngress(s: seq<Byte>): Option<Decoded<Ingress>> {
    if s == [] then None
    else if s[0] == 0 then
      match DecodeSocket(s[1..])
      case None => None
      case Some(d) => Some(Decoded(AtSocket(d.value), d.rest))
    else if s[0] != 1 || |s| < 3 then None
    else
      var size := FromU16(s[1..3]);
      if |s| < size + 5 then None
      else Some(Decoded(AtHost(DecodeHost(s[3..size + 3]), FromU16(s[size + 3..size + 5])), s[size + 5..]))
  }

  function Decode(s: seq<Byte>): Option<Address> {
    if s == [] then None
    else if s[0] == 0 then
      match DecodeSocket(s[1..])
      case None => None
      case Some(d) => if d.rest == [] then Some(Symmetric(d.value)) else None
    else if s[0] != 1 then None
    else
      match DecodeIngress(s[1..])
      case None => None
      case Some(i) =>
        match DecodeSocket(i.rest)
        case None => None
        case Some(e) => if e.rest == [] then Some(Asymmetric(i.value, e.value)) else None
  }

  // ----- unique decoding -----

  /** A socket says where it ends. */
  lemma SocketComesBack(s: Socket, rest: seq<Byte>)
    requires SocketOk(s)
    ensures DecodeSocket(EncodeSocket(s) + rest) == Some(Decoded(s, rest))
  {
    var e := EncodeSocket(s) + rest;
    var size := |s.ip.packed|;
    assert e[1..size + 1] == s.ip.packed;
    assert e[size + 1..size + 3] == U16(s.port);
    assert e[size + 3..] == rest;
    U16RoundTrip(s.port);
  }

  lemma HostComesBack(host: string)
    requires IsAscii(host)
    ensures DecodeHost(HostBytes(host)) == host
  {
  }

  lemma IngressComesBack(i: Ingress, rest: seq<Byte>)
    requires IngressOk(i)
    ensures DecodeIngress(EncodeIngress(i) + rest) == Some(Decoded(i, rest))
  {
    match i
    case AtSocket(s) =>
      assert (EncodeIngress(i) + rest)[1..] == EncodeSocket(s) + rest;
      SocketComesBack(s, rest);
    case AtHost(host, port) =>
      HostBytesFit(host);
      var e := EncodeIngress(i) + rest;
      var size := |host|;
      assert e[1..3] == U16(size);
      assert e[3..size + 3] == HostBytes(host);
      assert e[size + 3..size + 5] == U16(port);
      assert e[size + 5..] == rest;
      U16RoundTrip(size);
      U16RoundTrip(port);
      HostComesBack(host);
  }

  /** Every accepted address is decoded from its payload. */
  lemma AddressComesBack(a: Address)
    requires AddressOk(a)
    ensures Decode(Encode(a)) == Some(a)
  {
    hide DecodeSocket, DecodeIngress, EncodeSocket, EncodeIngress;
    match a
    case Symmetric(s) =>
      assert Encode(a)[1..] == EncodeSocket(s) + [];
      SocketComesBack(s, []);
    case Asymmetric(i, egress) =>
      assert Encode(a)[1..] == EncodeIngress(i) + EncodeSocket(egress);
      IngressComesBack(i, EncodeSocket(egress));
      assert EncodeSocket(egress) == EncodeSocket(egress) + [];
      SocketComesBack(egress, []);
  }

  /** So distinct addresses have distinct payloads. */
  lemma EncodingIsInjective(a: Address, b: Address)
    requires AddressOk(a) && AddressOk(b) && Encode(a) == Encode(b)
    ensures a == b
  {
    AddressComesBack(a);
    AddressComesBack(b);
  }

  // ----- seeds -----

  /** The `p2p_address` values a seed file can hold; texts are socket addresses. */
  datatype IngressSeed = IngressText(text: string) | IngressDns(host: string, port: int) | IngressOther

  datatype Seed = Absent | SymmetricSeed(text: string) | AsymmetricSeed(ingress: IngressSeed, egress: string)
      | OtherSeed

  function Find(s: string, c: char, from: nat): (i: nat)
    requires from <= |s|
    ensures from <= i <= |s| && (i < |s| ==> s[i] == c) && forall k :: from <= k < i ==> s[k] != c
    decreases |s| - from
  {
    if from == |s| || s[from] == c then from else Find(s, c, from + 1)
  }

  /** The last position of a character, or -1. */
  function FindLast(s: string, c: char): (i: int)
    ensures -1 <= i < |s| && (0 <= i ==> s[i] == c) && forall k :: i < k < |s| ==> s[k] != c
  {
    if s == "" then -1 else if s[|s| - 1] == c then |s| - 1 else FindLast(s[..|s| - 1], c)
  }

  datatype HostPort = HostPort(host: string, port: nat)

  /** `parse_host_port`. */
  function ParseHostPort(value: string): Option<HostPort> {
    if "[" <= value then
      var end := Find(value, ']', 0);
      if end == |value| || end + 1 >= |value| || value[end + 1] != ':' then None
      else WithPort(value[1..end], value[end + 2..])
    else
      var colon := FindLast(value, ':');
      if colon < 0 then None else WithPort(value[..colon], value[colon + 1..])
  }

  function WithPort(host: string, portText: string): Option<HostPort> {
    match YamlText.ParseInt(YamlText.Strip(portText))
    case Some(port) => if PortOk(port) then Some(HostPort(host, port)) else None
    case None => None
  }

  /** The socket a text denotes; `ip` is the library's address parser. */
  function ResolveSocket(ip: string -> Option<Ip>, text: string): Option<Socket> {
    match ParseHostPort(text)
    case None => None
    case Some(hp) =>
      match ip(hp.host)
      case None => None
      case Some(parsed) => Some(Socket(parsed, hp.port))
  }

  function ResolveIngress(ip: string -> Option<Ip>, i: IngressSeed): Option<Ingress> {
    match i
    case IngressText(text) =>
      (match ResolveSocket(ip, text)
       case None => None
       case Some(s) => Some(AtSocket(s)))
    case IngressDns(host, port) => if PortOk(port) && HostOk(host) then Some(AtHost(host, port)) else None
    case IngressOther => None
  }

  /** The address a seed denotes; `None` is a `ValueError`. */
  function Resolve(ip: string -> Option<Ip>, seed: Seed): Option<Address> {
    match seed
    case SymmetricSeed(text) =>
      (match ResolveSocket(ip, text)
       case None => None
       case Some(s) => Some(Symmetric(s)))
    case AsymmetricSeed(ingress, egress) =>
      (match (ResolveIngress(ip, ingress), ResolveSocket(ip, egress))
       case (Some(i), Some(e)) => Some(Asymmetric(i, e))
       case _ => None)
    case _ => None
  }

  datatype Payload = NoPayload | Payload(version: nat, bytes: seq<Byte>) | Refused

  const VERSION: nat := 1
  const LONGEST: nat := 512

  ghost predicate ParsesIps(ip: string -> Option<Ip>) {
    forall host :: ip(host).Some? ==> IpOk(ip(host).value)
  }

  lemma PortIsOk(host: string, portText: string)
    ensures var r := WithPort(host, portText);
            r.Some? ==> r.value.host == host && PortOk(r.value.port)
  {
    hide YamlText.ParseInt, YamlText.Strip;
  }

  lemma HostPortIsOk(value: string)
    ensures ParseHostPort(value).Some? ==> PortOk(ParseHostPort(value).value.port)
  {
    hide WithPort, PortOk;
    if "[" <= value {
      var end := Find(value, ']', 0);
      if end + 1 < |value| && value[end + 1] == ':' { PortIsOk(value[1..end], value[end + 2..]); }
    } else {
      var colon := FindLast(value, ':');
      if colon >= 0 { PortIsOk(value[..colon], value[colon + 1..]); }
    }
  }

  lemma SocketIsOk(ip: string -> Option<Ip>, text: string)
    requires ParsesIps(ip)
    ensures ResolveSocket(ip, text).Some? ==> SocketOk(ResolveSocket(ip, text).value)
  {
    hide ParseHostPort, IpOk;
    HostPortIsOk(text);
  }

  lemma ResolvedIsOk(ip: string -> Option<Ip>, seed: Seed)
    requires ParsesIps(ip) && Resolve(ip, seed).Some?
    ensures AddressOk(Resolve(ip, seed).value)
  {
    hide ResolveSocket, SocketOk, HostOk, PortOk, ParsesIps;
    match seed
    case SymmetricSeed(text) =>
      SocketIsOk(ip, text);
    case AsymmetricSeed(ingress, egress) =>
      SocketIsOk(ip, egress);
      if ingress.IngressText? { SocketIsOk(ip, ingress.text); }
    case _ =>
  }

  /** `encode_p2p_address_payload`. */
  function EncodePayload(ip: string -> Option<Ip>, seed: Seed): Payload
    requires ParsesIps(ip)
  {
    if seed.Absent? then NoPayload
    else
      match Resolve(ip, seed)
      case None => Refused
      case Some(a) =>
        ResolvedIsOk(ip, seed);
        if |Encode(a)| > LONGEST then Refused else Payload(VERSION, Encode(a))
  }

  /** A seed that denotes an address always gets its payload, which decodes to that address: the length check never
      refuses. */
  lemma PayloadDenotes(ip: string -> Option<Ip>, seed: Seed)
    requires ParsesIps(ip) && !seed.Absent?
    ensures match Resolve(ip, seed)
            case None => EncodePayload(ip, seed).Refused?
            case Some(a) => EncodePayload(ip, seed).Payload? && |EncodePayload(ip, seed).bytes| <= 278
                            && Decode(EncodePayload(ip, seed).bytes) == Some(a)
  {
    hide Decode, Encode, AddressOk;
    if Resolve(ip, seed).Some? {
      ResolvedIsOk(ip, seed);
      AddressComesBack(Resolve(ip, seed).value);
    }
  }
}
