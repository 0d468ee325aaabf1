/**
 pkt-line framing, as the "pkt-line Format" section of gitprotocol-common has it: four hex digits
 of length, themselves included, then the payload; 0000 is a flush.  Strings stand for Go's byte
 strings, one character a byte.
 */
module PktLine {
  import opened Options

  // --- numbers in hex ---------------------------------------------------------------------

  function HexDigit(d: int): char
    requires 0 <= d < 16
  {
    "0123456789abcdef"[d]
  }

  /** `%04x` of a number of at most four digits. */
  function Hex4(n: int): string
    requires 0 <= n < 0x1_0000
  {
    [HexDigit(n / 4096), HexDigit(n / 256 % 16), HexDigit(n / 16 % 16), HexDigit(n % 16)]
  }

  function DigitValue(c: char): Option<int> {
    if '0' <= c <= '9' then Some(c as int - '0' as int)
    else if 'a' <= c <= 'f' then Some(c as int - 'a' as int + 10)
    else if 'A' <= c <= 'F' then Some(c as int - 'A' as int + 10)
    else None
  }

  function ParseDigits(s: string, value: int): Option<int>
    decreases |s|
  {
    if s == "" then Some(value)
    else match DigitValue(s[0]) case None => None case Some(d) => ParseDigits(s[1..], 16 * value + d)
  }

  /** Go's `strconv.ParseInt(s, 16, 32)` on a string too short to overflow: a sign, then digits of either case. */
  function ParseInt(s: string): Option<int> {
    if s == "" then None
    else if s[0] == '+' || s[0] == '-' then
      if |s| == 1 then None
      else
        match ParseDigits(s[1..], 0)
        case None => None
        case Some(n) => Some(if s[0] == '-' then -n else n)
    else ParseDigits(s, 0)
  }

  lemma DigitRoundTrip(d: int)
    requires 0 <= d < 16
    ensures DigitValue(HexDigit(d)) == Some(d)
    ensures HexDigit(d) != '+' && HexDigit(d) != '-'
  {
  }

  lemma ParseFour(s: string)
    requires |s| == 4 && forall i :: 0 <= i < 4 ==> DigitValue(s[i]).Some?
    ensures ParseDigits(s, 0) ==
            Some(4096 * DigitValue(s[0]).value + 256 * DigitValue(s[1]).value + 16 * DigitValue(s[2]).value + DigitValue(s[3]).value)
  {
    var a, b, c := s[1..], s[2..], s[3..];
    assert a[0] == s[1] && a[1..] == b && b[0] == s[2] && b[1..] == c && c[0] == s[3] && c[1..] == "";
    var v0 := DigitValue(s[0]).value;
    var v1 := 16 * v0 + DigitValue(s[1]).value;
    var v2 := 16 * v1 + DigitValue(s[2]).value;
    assert ParseDigits(s, 0) == ParseDigits(a, v0);
    assert ParseDigits(a, v0) == ParseDigits(b, v1);
    assert ParseDigits(b, v1) == ParseDigits(c, v2);
    assert ParseDigits(c, v2) == ParseDigits("", 16 * v2 + DigitValue(s[3]).value);
  }

  lemma FourDigits(a: int, b: int, c: int, d: int)
    requires 0 <= a < 16 && 0 <= b < 16 && 0 <= c < 16 && 0 <= d < 16
    ensures ParseInt([HexDigit(a), HexDigit(b), HexDigit(c), HexDigit(d)]) == Some(4096 * a + 256 * b + 16 * c + d)
  {
    DigitRoundTrip(a);
    DigitRoundTrip(b);
    DigitRoundTrip(c);
    DigitRoundTrip(d);
    ParseFour([HexDigit(a), HexDigit(b), HexDigit(c), HexDigit(d)]);
  }

  lemma HexRoundTrip(n: int)
    requires 0 <= n < 0x1_0000
    ensures ParseInt(Hex4(n)) == Some(n)
  {
    HexDigitsOf(n);
    FourDigits(n / 4096, n / 256 % 16, n / 16 % 16, n % 16);
  }

  lemma HexDigitsOf(n: int)
    requires 0 <= n < 0x1_0000
    ensures 0 <= n / 4096 < 16
    ensures n == 4096 * (n / 4096) + 256 * (n / 256 % 16) + 16 * (n / 16 % 16) + n % 16
  {
    var q := n / 16;
    assert q / 16 == n / 256;
    assert n / 256 / 16 == n / 4096;
  }

  // --- packets --------------------------------------------------------------------------------

  datatype Item = Flush | Data(payload: string)

  const MAX_LENGTH := 65520

  predicate Writable(item: Item) {
    item.Data? ==> 4 + |item.payload| <= MAX_LENGTH
  }

  function Packet(item: Item): string
    requires Writable(item)
  {
    match item
    case Flush => "0000"
    case Data(payload) => Hex4(4 + |payload|) + payload
  }

  predicate AllWritable(items: seq<Item>) {
    forall i :: 0 <= i < |items| ==> Writable(items[i])
  }

  function Encode(items: seq<Item>): string
    requires AllWritable(items)
    decreases |items|
  {
    if items == [] then "" else Packet(items[0]) + Encode(items[1..])
  }

  /** The longest payload has 65516 bytes. */
  lemma WritableIff(payload: string)
    ensures Writable(Data(payload)) <==> |payload| <= 65516
    ensures Writable(Flush)
  {
  }

  // --- what is on the wire -------------------------------------------------------------------

  /** The value of a hex digit, by its place among the digits. */
  predicate IsDigit(c: char, d: int) {
    0 <= d < 16 && (c == "0123456789abcdef"[d] || c == "0123456789ABCDEF"[d])
  }

  lemma DigitIff(c: char, d: int)
    ensures DigitValue(c) == Some(d) <==> IsDigit(c, d)
  {
  }

  ghost predicate IsHex(c: char) {
    exists d :: IsDigit(c, d)
  }

  ghost predicate AllHex(s: string) {
    forall i :: 0 <= i < |s| ==> IsHex(s[i])
  }

  lemma HexIff(c: char)
    ensures DigitValue(c).Some? <==> IsHex(c)
  {
    if DigitValue(c).Some? {
      DigitIff(c, DigitValue(c).value);
    }
    if d :| IsDigit(c, d) {
      DigitIff(c, d);
    }
  }

  lemma {:induction false} DigitsParse(s: string, value: int)
    ensures ParseDigits(s, value).Some? <==> AllHex(s)
    decreases |s|
  {
    if s != "" {
      HexIff(s[0]);
      assert AllHex(s) <==> IsHex(s[0]) && AllHex(s[1..]) by {
        assert s == [s[0]] + s[1..];
      }
      if IsHex(s[0]) {
        DigitsParse(s[1..], 16 * value + DigitValue(s[0]).value);
      }
    }
  }

  function Unsigned(s: string): string {
    if s != "" && (s[0] == '+' || s[0] == '-') then s[1..] else s
  }

  /** A length field is one exactly if it is all hex digits, of either case, after at most one sign. */
  lemma LengthIff(s: string)
    ensures ParseInt(s).Some? <==> Unsigned(s) != "" && AllHex(Unsigned(s))
  {
    DigitsParse(Unsigned(s), 0);
  }

  /** And it says what its digits say, most significant first. */
  lemma LengthSays(s: string, a: int, b: int, c: int, d: int)
    requires |s| == 4 && IsDigit(s[1], b) && IsDigit(s[2], c) && IsDigit(s[3], d)
    ensures IsDigit(s[0], a) ==> ParseInt(s) == Some(4096 * a + 256 * b + 16 * c + d)
    ensures s[0] == '+' ==> ParseInt(s) == Some(256 * b + 16 * c + d)
    ensures s[0] == '-' ==> ParseInt(s) == Some(-(256 * b + 16 * c + d))
  {
    DigitIff(s[0], a);
    DigitIff(s[1], b);
    DigitIff(s[2], c);
    DigitIff(s[3], d);
    ParseThree(s);
    if IsDigit(s[0], a) { ParseFour(s); }
  }

  /** A packet on the wire: the whole length in four lower-case hex digits, and the payload; 0000 is a flush. */
  lemma PacketIs(payload: string)
    requires |payload| <= 65516
    ensures var n, packet := 4 + |payload|, Packet(Data(payload));
            && |packet| == n && packet[4..] == payload
            && packet[0] == "0123456789abcdef"[n / 4096] && packet[1] == "0123456789abcdef"[n / 256 % 16]
            && packet[2] == "0123456789abcdef"[n / 16 % 16] && packet[3] == "0123456789abcdef"[n % 16]
    ensures Packet(Flush) == "0000"
  {
  }

  datatype Failure = NoLength | BadLength | TooShort | NoPayload

  datatype Reading = Got(payload: string) | Fails(failure: Failure)

  /** What one read answers, and what it leaves unread. */
  function Read(stream: string): (Reading, string) {
    if |stream| < 4 then (Fails(NoLength), "")
    else
      match ParseInt(stream[..4])
      case None => (Fails(BadLength), stream[4..])
      case Some(length) => ReadBody(length, stream[4..])
  }

  function ReadBody(length: int, rest: string): (Reading, string) {
    if length == 0 then (Got(""), rest)
    else if length < 4 then (Fails(TooShort), rest)
    else if |rest| < length - 4 then (Fails(NoPayload), "")
    else (Got(rest[..length - 4]), rest[length - 4..])
  }

  function ReadMany(stream: string, n: nat): (seq<Reading>, string)
    decreases n
  {
    if n == 0 then ([], stream)
    else
      var (first, rest) := Read(stream);
      var (others, left) := ReadMany(rest, n - 1);
      ([first] + others, left)
  }

  /** What the reader can tell of an item: a flush reads like an empty payload. */
  function Seen(item: Item): Reading {
    match item case Flush => Got("") case Data(payload) => Got(payload)
  }

  function AllSeen(items: seq<Item>): seq<Reading> {
    seq(|items|, i requires 0 <= i < |items| => Seen(items[i]))
  }

  lemma ReadFramed(header: string, body: string, tail: string)
    requires |header| == 4 && ParseInt(header) == Some(if header == "0000" then 0 else 4 + |body|)
    requires header == "0000" ==> body == ""
    ensures Read(header + body + tail) == (Got(body), tail)
  {
    var stream := header + body + tail;
    assert stream[..4] == header && stream[4..] == body + tail;
    assert (body + tail)[..|body|] == body && (body + tail)[|body|..] == tail;
  }

  lemma FlushHeader(n: int)
    requires 0 <= n < 0x1_0000
    ensures Hex4(n) == "0000" <==> n == 0
    ensures ParseInt("0000") == Some(0)
  {
    HexRoundTrip(0);
    HexRoundTrip(n);
    assert Hex4(0) == "0000";
  }

  lemma ReadPacket(item: Item, tail: string)
    requires Writable(item)
    ensures Read(Packet(item) + tail) == (Seen(item), tail)
  {
    match item
    case Flush =>
      FlushHeader(0);
      ReadFramed("0000", "", tail);
      assert "0000" + "" + tail == Packet(item) + tail;
    case Data(payload) =>
      HexRoundTrip(4 + |payload|);
      FlushHeader(4 + |payload|);
      ReadFramed(Hex4(4 + |payload|), payload, tail);
  }

  lemma ReadsFirst(stream: string, first: Reading, rest: string, n: nat)
    requires Read(stream) == (first, rest) && n > 0
    ensures ReadMany(stream, n) == ([first] + ReadMany(rest, n - 1).0, ReadMany(rest, n - 1).1)
  {
  }

  /** Written and read back: as many reads give the same items, a flush as "", and leave what follows unread. */
  lemma {:induction false} StreamRoundTrip(items: seq<Item>, tail: string)
    requires AllWritable(items)
    ensures ReadMany(Encode(items) + tail, |items|) == (AllSeen(items), tail)
    decreases |items|
  {
    if items == [] {
      assert Encode(items) + tail == tail && AllSeen(items) == [];
    } else {
      var rest := Encode(items[1..]) + tail;
      EncodeSplits(items, tail);
      ReadPacket(items[0], rest);
      ReadsFirst(Packet(items[0]) + rest, Seen(items[0]), rest, |items|);
      StreamRoundTrip(items[1..], tail);
      SeenSplits(items);
    }
  }

  lemma EncodeSplits(items: seq<Item>, tail: string)
    requires AllWritable(items) && items != []
    ensures Encode(items) + tail == Packet(items[0]) + (Encode(items[1..]) + tail)
  {
  }

  lemma SeenSplits(items: seq<Item>)
    requires items != []
    ensures AllSeen(items) == [Seen(items[0])] + AllSeen(items[1..])
  {
  }

  /** What one packet says can be told apart, a flush from an empty payload too. */
  lemma PacketsApart(a: Item, b: Item, x: string, y: string)
    requires Writable(a) && Writable(b) && Packet(a) + x <= Packet(b) + y
    ensures a == b && x <= y
  {
    HeaderSays(a);
    HeaderSays(b);
    FramesApart(Header(a), Body(a), Header(b), Body(b), x, y);
  }

  function Length(item: Item): int {
    match item case Flush => 0 case Data(payload) => 4 + |payload|
  }

  lemma HeaderSays(item: Item)
    requires Writable(item)
    ensures |Header(item)| == 4 && ParseInt(Header(item)) == Some(Length(item))
    ensures Packet(item) == Header(item) + Body(item)
  {
    FlushHeader(0);
    HexRoundTrip(Length(item));
  }

  function Header(item: Item): string
    requires Writable(item)
  {
    match item case Flush => "0000" case Data(payload) => Hex4(4 + |payload|)
  }

  function Body(item: Item): string {
    match item case Flush => "" case Data(payload) => payload
  }

  lemma FramesApart(h: string, a: string, h': string, b: string, x: string, y: string)
    requires |h| == |h'| == 4 && (h == h' ==> |a| == |b|)
    requires h + a + x <= h' + b + y
    ensures h == h' && a == b && x <= y
  {
    var s, t := h + a + x, h' + b + y;
    assert s[..4] == h && t[..4] == h' && s[..4] == t[..4];
    var n := 4 + |a|;
    assert s[4..n] == a && t[4..n] == b;
    assert s[n..] == x && t[n..] == y;
  }

  /** The encoding is free of prefixes: one stream begins with another only if its items do, so distinct lists never share an encoding. */
  lemma {:induction false} EncodingIsPrefixFree(xs: seq<Item>, ys: seq<Item>)
    requires AllWritable(xs) && AllWritable(ys)
    ensures Encode(xs) <= Encode(ys) <==> xs <= ys
    decreases |xs|
  {
    if xs != [] && ys != [] {
      var p, q, x, y := Packet(xs[0]), Packet(ys[0]), Encode(xs[1..]), Encode(ys[1..]);
      if p + x <= q + y {
        PacketsApart(xs[0], ys[0], x, y);
      }
      EncodingIsPrefixFree(xs[1..], ys[1..]);
      assert x <= y ==> p + x <= p + y;
      assert xs <= ys <==> xs[0] == ys[0] && xs[1..] <= ys[1..];
    } else if xs != [] {
      assert |Packet(xs[0])| >= 4;
    }
  }

  /** The reader confuses two written lists exactly when they differ by empty payloads for flushes. */
  lemma ReaderConfuses(xs: seq<Item>, ys: seq<Item>)
    requires AllWritable(xs) && AllWritable(ys) && |xs| == |ys|
    ensures ReadMany(Encode(xs), |xs|).0 == ReadMany(Encode(ys), |ys|).0 <==>
            forall i :: 0 <= i < |xs| ==> xs[i] == ys[i] || (Blank(xs[i]) && Blank(ys[i]))
  {
    StreamRoundTrip(xs, "");
    StreamRoundTrip(ys, "");
    assert Encode(xs) + "" == Encode(xs) && Encode(ys) + "" == Encode(ys);
    if AllSeen(xs) == AllSeen(ys) {
      forall i | 0 <= i < |xs|
        ensures xs[i] == ys[i] || (Blank(xs[i]) && Blank(ys[i]))
      {
        assert AllSeen(xs)[i] == AllSeen(ys)[i];
      }
    }
  }

  /** A flush and an empty payload, written differently, read alike. */
  lemma FlushReadsLikeEmpty()
    ensures Encode([Flush]) != Encode([Data("")])
    ensures ReadMany(Encode([Flush]), 1).0 == ReadMany(Encode([Data("")]), 1).0
  {
    EncodingIsPrefixFree([Flush], [Data("")]);
    assert [Flush][0] != [Data("")][0];
    ReaderConfuses([Flush], [Data("")]);
  }

  predicate Blank(item: Item) {
    item.Flush? || item.payload == ""
  }

  /**
   What the reader takes, whoever wrote it: a length of digits in either case, signed or not, that
   says 0, or at least 4 with that much behind it.
   */
  lemma ReadSucceedsIff(stream: string)
    ensures var (r, rest) := Read(stream);
            && (r.Got? <==>
                && |stream| >= 4
                && ParseInt(stream[..4]).Some?
                && var n := ParseInt(stream[..4]).value; n == 0 || 4 <= n <= |stream|)
            && (r.Got? ==> |r.payload| <= 65531 && stream == stream[..4] + r.payload + rest)
  {
    if |stream| >= 4 {
      ParseBounds(stream[..4]);
    }
  }

  lemma {:induction false} DigitsBound(s: string, value: int)
    requires value >= 0
    ensures ParseDigits(s, value).Some? ==> 0 <= ParseDigits(s, value).value < Power16(|s|) * (value + 1)
    decreases |s|
  {
    if s != "" && DigitValue(s[0]).Some? {
      var d := DigitValue(s[0]).value;
      DigitsBound(s[1..], 16 * value + d);
      Scales(Power16(|s| - 1), value, d);
    }
  }

  lemma Scales(p: int, value: int, d: int)
    requires p >= 1 && d < 16
    ensures p * (16 * value + d + 1) <= 16 * p * (value + 1)
  {
    assert 16 * p * (value + 1) - p * (16 * value + d + 1) == p * (15 - d);
    assert p * (15 - d) >= 0;
  }

  function Power16(n: nat): (p: int)
    ensures p >= 1
  {
    if n == 0 then 1 else 16 * Power16(n - 1)
  }

  lemma ParseBounds(s: string)
    requires |s| == 4
    ensures ParseInt(s).Some? ==> -0x1000 < ParseInt(s).value < 0x1_0000
  {
    DigitsBound(s, 0);
    DigitsBound(s[1..], 0);
    assert Power16(3) == 0x1000 && Power16(4) == 0x1_0000;
  }

  /** Each way a read fails, and what it has consumed: a payload cut short is gone, a bad length costs four bytes. */
  lemma ReadFailsIff(stream: string)
    ensures var (r, rest) := Read(stream);
            && (r == Fails(NoLength) <==> |stream| < 4)
            && (r == Fails(BadLength) <==> |stream| >= 4 && !AllHex(Unsigned(stream[..4])))
            && (r == Fails(TooShort) <==>
                |stream| >= 4 && ParseInt(stream[..4]).Some? && ParseInt(stream[..4]).value < 4 && ParseInt(stream[..4]).value != 0)
            && (r == Fails(NoPayload) <==> |stream| >= 4 && ParseInt(stream[..4]).Some? && ParseInt(stream[..4]).value >= 4 && |stream| < ParseInt(stream[..4]).value)
            && (r == Fails(BadLength) || r == Fails(TooShort) ==> rest == stream[4..])
            && (r == Fails(NoLength) || r == Fails(NoPayload) ==> rest == "")
  {
    if |stream| >= 4 { LengthIff(stream[..4]); }
  }

  /** The writer's form is not the only one that reads: upper case, a sign and a negative zero do too. */
  lemma LenientLengths()
    ensures Read("000A" + "123456").0 == Got("123456")
    ensures Read("+005" + "x") == (Got("x"), "")
    ensures Read("-000") == (Got(""), "")
  {
    ParseFour("000A");
    assert ("000A" + "123456")[..4] == "000A" && ("000A" + "123456")[4..] == "123456";
    ParseThree("+005");
    ParseThree("-000");
    assert ("+005" + "x")[..4] == "+005" && ("+005" + "x")[4..] == "x";
    assert ParseInt("+005") == Some(5) && "x"[..1] == "x" && "x"[1..] == "";
    assert "-000"[..4] == "-000";
  }

  lemma ParseThree(s: string)
    requires |s| == 4 && forall i :: 1 <= i < 4 ==> DigitValue(s[i]).Some?
    ensures ParseDigits(s[1..], 0) == Some(256 * DigitValue(s[1]).value + 16 * DigitValue(s[2]).value + DigitValue(s[3]).value)
  {
    var a, b, c := s[1..], s[2..], s[3..];
    assert a[0] == s[1] && a[1..] == b && b[0] == s[2] && b[1..] == c && c[0] == s[3] && c[1..] == "";
    var v1 := DigitValue(s[1]).value;
    var v2 := 16 * v1 + DigitValue(s[2]).value;
    assert ParseDigits(a, 0) == ParseDigits(b, v1);
    assert ParseDigits(b, v1) == ParseDigits(c, v2);
    assert ParseDigits(c, v2) == ParseDigits("", 16 * v2 + DigitValue(s[3]).value);
  }

  // --- writer and reader --------------------------------------------------------------------------

  /** The packets before the ref advertisement. */
  function ServiceItems(service: string): seq<Item> {
    [Data("# service=" + service + "\n"), Flush]
  }

  class Pipe {
    var bytes: string

    constructor ()
      ensures bytes == ""
    {
      bytes := "";
    }

    /** Writes nothing when the packet would be too long. */
    method PacketWrite(data: string) returns (ok: bool)
      modifies this
      ensures ok <==> |data| <= 65516
      ensures bytes == if ok then old(bytes) + Encode([Data(data)]) else old(bytes)
    {
      var length := 4 + |data|;
      if length > 65520 {
        return false;
      }
      bytes := bytes + Hex4(length) + data;
      assert Encode([Data(data)]) == Packet(Data(data)) + Encode([]);
      ok := true;
    }

    method PacketFlush()
      modifies this
      ensures bytes == old(bytes) + Encode([Flush])
    {
      bytes := bytes + "0000";
      assert Encode([Flush]) == Packet(Flush) + Encode([]);
    }

    /** The next n bytes, or None and nothing left when there are fewer. */
    method ReadFull(n: nat) returns (r: Option<string>)
      modifies this
      ensures |old(bytes)| >= n ==> r == Some(old(bytes)[..n]) && bytes == old(bytes)[n..]
      ensures |old(bytes)| < n ==> r == None && bytes == ""
    {
      if |bytes| < n {
        r, bytes := None, "";
      } else {
        r, bytes := Some(bytes[..n]), bytes[n..];
      }
    }

    method PacketRead() returns (r: Reading)
      modifies this
      ensures (r, bytes) == Read(old(bytes))
    {
      var lenBuf := ReadFull(4);
      if lenBuf.None? {
        return Fails(NoLength);
      }
      var length := ParseInt(lenBuf.value);
      if length.None? {
        return Fails(BadLength);
      }
      r := ReadPayload(length.value);
    }

    /** What the length announces. */
    method ReadPayload(length: int) returns (r: Reading)
      modifies this
      ensures (r, bytes) == ReadBody(length, old(bytes))
    {
      if length == 0 {
        return Got("");
      }
      if length < 4 {
        return Fails(TooShort);
      }
      var payload := ReadFull(length - 4);
      r := if payload.None? then Fails(NoPayload) else Got(payload.value);
    }

    method WriteServiceHeader(service: string) returns (ok: bool)
      modifies this
      ensures ok <==> |service| <= 65516 - 11
      ensures ok ==> bytes == old(bytes) + Encode(ServiceItems(service))
      ensures !ok ==> bytes == old(bytes)
    {
      var line := "# service=" + service + "\n";
      ok := PacketWrite(line);
      if ok {
        PacketFlush();
        EncodeTwo(Data(line), Flush);
      }
    }
  }

  lemma EncodeOne(a: Item)
    requires Writable(a)
    ensures Encode([a]) == Packet(a)
  {
    assert Encode([a]) == Packet(a) + Encode([]);
  }

  lemma EncodeTwo(a: Item, b: Item)
    requires Writable(a) && Writable(b)
    ensures Encode([a, b]) == Encode([a]) + Encode([b])
  {
    assert [a, b][1..] == [b];
    EncodeOne(a);
  }

  /** A service header reads back as its line and a flush, and the advertisement behind it is left. */
  lemma ServiceHeaderReads(service: string, advertisement: string)
    requires |service| <= 65516 - 11
    ensures ReadMany(Encode(ServiceItems(service)) + advertisement, 2) ==
            ([Got("# service=" + service + "\n"), Got("")], advertisement)
  {
    var items := ServiceItems(service);
    StreamRoundTrip(items, advertisement);
    assert AllSeen(items) == [Seen(items[0]), Seen(items[1])];
  }
}
