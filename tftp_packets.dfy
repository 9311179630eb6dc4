/**
 * The datagrams exchanged by the TFTP write client (tftp_client/tftp_client.py)
 * and the loader-simulator server (tftp_loader_sim/tftp_server.c): the
 * write-request subset of RFC 1350, section 5, with option pairs in the
 * style of RFC 2347, and a non-standard checksum trailer with opcode 0x10.
 * Builders produce the bytes one side sends; the readers are how the other
 * side takes them apart.
 */
module TftpPackets {
  import opened Bytes

  const OpWrq: u16 := 2
  const OpData: u16 := 3
  const OpAck: u16 := 4
  const OpCrc: u16 := 0x10

  /** `BLOCK_SIZE`, and the payload limit of one `f.read(512)`. */
  const BlockSize: nat := 512
  /** `MAX_PACKET_SIZE`, the server's receive buffer. */
  const MaxPacket: nat := 516

  // ---------------------------------------------------------------------------
  // Builders.
  // ---------------------------------------------------------------------------

  /** One zero-terminated string field. */
  function Field(s: string): seq<byte> {
    Utf8(s) + [0]
  }

  /** `k.encode() + b"\x00" + str(v).encode() + b"\x00"` for each option, in
    * iteration order (values are given already converted by `str`). */
  function OptionBytes(options: seq<(string, string)>): seq<byte>
    decreases |options|
  {
    if options == [] then []
    else
      var last := options[|options| - 1];
      OptionBytes(options[..|options| - 1]) + Field(last.0) + Field(last.1)
  }

  /** The write request `send_wrq` sends. */
  function WrqPacket(filename: string, mode: string, options: seq<(string, string)>): seq<byte> {
    [0, 2] + Field(filename) + Field(mode) + OptionBytes(options)
  }

  /** Appending one option's bytes to a request built from the first `i`
    * options gives the request built from the first `i + 1`. */
  lemma WrqPacketSnoc(filename: string, mode: string, options: seq<(string, string)>, i: nat)
    requires i < |options|
    ensures WrqPacket(filename, mode, options[..i + 1])
         == WrqPacket(filename, mode, options[..i]) + Utf8(options[i].0) + [0] + Utf8(options[i].1) + [0]
  {
    assert options[..i + 1][..i] == options[..i];
  }

  /** `b"\x00\x03" + block_num.to_bytes(2, 'big') + data`. */
  function DataPacket(block: u16, data: seq<byte>): seq<byte> {
    [0, 3] + Be16(block) + data
  }

  /** `b'\x00' + b'\x10' + crc.to_bytes(4, 'big')`. */
  function CrcPacket(crc: u32): seq<byte> {
    [0, 0x10] + Be32(crc)
  }

  /** `udp_send_ack`: `{ 0, 4, block >> 8, block & 0xFF }`. */
  function AckPacket(block: u16): seq<byte> {
    [0, 4, block / 0x100, block % 0x100]
  }

  // ---------------------------------------------------------------------------
  // Readers.
  // ---------------------------------------------------------------------------

  /** `(packet[0] << 8) | packet[1]`. */
  function Opcode(p: seq<byte>): u16
    requires |p| >= 2
  {
    Be16Value(p[0], p[1])
  }

  /** `(packet[2] << 8) | packet[3]`. */
  function BlockField(p: seq<byte>): u16
    requires |p| >= 4
  {
    Be16Value(p[2], p[3])
  }

  /** The checksum in bytes 2..5 of a trailer, big-endian. */
  function CrcField(p: seq<byte>): u32
    requires |p| >= 6
  {
    Be32Value(p[2], p[3], p[4], p[5])
  }

  /** `receive_ack`'s test on a received datagram. */
  predicate AckMatches(d: seq<byte>, expected: int) {
    |d| >= 4 && Opcode(d) == OpAck && BlockField(d) == expected
  }

  /** Index of the first zero byte, or `|bs|` when there is none. */
  function FirstZero(bs: seq<byte>): (i: nat)
    ensures i <= |bs|
  {
    if bs == [] then 0 else if bs[0] == 0 then 0 else 1 + FirstZero(bs[1..])
  }

  /** The C string at the start of `bs`, as `(const char*)&packet[2]` reads it. */
  function CString(bs: seq<byte>): seq<byte> {
    bs[..FirstZero(bs)]
  }

  /** The zero-terminated fields of `bs`; a last field without a terminator
    * is kept as it is. */
  function Fields(bs: seq<byte>): seq<seq<byte>>
    decreases |bs|
  {
    if bs == [] then []
    else
      var i := FirstZero(bs);
      if i == |bs| then [bs] else [bs[..i]] + Fields(bs[i + 1..])
  }

  /** The fields `OptionBytes` lays down, in order. */
  function OptionFields(options: seq<(string, string)>): seq<seq<byte>>
    decreases |options|
  {
    if options == [] then []
    else
      var last := options[|options| - 1];
      OptionFields(options[..|options| - 1]) + [Utf8(last.0), Utf8(last.1)]
  }

  // ---------------------------------------------------------------------------
  // Each reader takes back what the matching builder wrote.
  // ---------------------------------------------------------------------------

  /** The server reads a DATA packet's opcode, block number and payload back. */
  lemma DataRoundTrip(block: u16, data: seq<byte>)
    ensures |DataPacket(block, data)| == 4 + |data|
    ensures Opcode(DataPacket(block, data)) == OpData
    ensures BlockField(DataPacket(block, data)) == block
    ensures DataPacket(block, data)[4..] == data
  {
    Be16RoundTrip(block);
  }

  /** DATA packets for different blocks or payloads differ. */
  lemma DataInjective(b1: u16, d1: seq<byte>, b2: u16, d2: seq<byte>)
    ensures DataPacket(b1, d1) == DataPacket(b2, d2) <==> b1 == b2 && d1 == d2
  {
    DataRoundTrip(b1, d1);
    DataRoundTrip(b2, d2);
  }

  /** Every write request starts with opcode 2, whatever its strings hold. */
  lemma WrqOpcode(filename: string, mode: string, options: seq<(string, string)>)
    ensures |WrqPacket(filename, mode, options)| >= 4 && Opcode(WrqPacket(filename, mode, options)) == OpWrq
  {
    var p := WrqPacket(filename, mode, options);
    assert p[0] == 0 && p[1] == 2;
  }

  /** The server reads the trailer's checksum back, and it is 6 bytes long. */
  lemma CrcRoundTrip(crc: u32)
    ensures |CrcPacket(crc)| == 6
    ensures Opcode(CrcPacket(crc)) == OpCrc
    ensures CrcField(CrcPacket(crc)) == crc
  {
    Be32RoundTrip(crc);
  }

  /** `receive_ack(expected)` accepts exactly the datagrams whose first four
    * bytes are the server's ACK for `expected`. */
  lemma AckMatchesIff(d: seq<byte>, expected: u16)
    ensures AckMatches(d, expected) <==> |d| >= 4 && d[..4] == AckPacket(expected)
  {
    if |d| >= 4 && d[..4] == AckPacket(expected) {
      assert d[0] == 0 && d[1] == 4 && d[2] == expected / 0x100 && d[3] == expected % 0x100;
    }
  }

  /** The server's ACK for `block` satisfies `receive_ack(expected)` iff the
    * two numbers agree. */
  lemma AckOfServer(block: u16, expected: int)
    ensures AckMatches(AckPacket(block), expected) <==> block == expected
  {
  }

  lemma {:induction false} FirstZeroOfField(a: seq<byte>, rest: seq<byte>)
    requires 0 !in a
    ensures FirstZero(a + [0] + rest) == |a|
  {
    if a != [] {
      assert (a + [0] + rest)[1..] == a[1..] + [0] + rest;
      FirstZeroOfField(a[1..], rest);
    }
  }

  lemma FieldsCons(a: seq<byte>, rest: seq<byte>)
    requires 0 !in a
    ensures Fields(a + [0] + rest) == [a] + Fields(rest)
  {
    var bs := a + [0] + rest;
    FirstZeroOfField(a, rest);
    assert bs[..|a|] == a;
    assert bs[|a| + 1..] == rest;
  }

  predicate NoNul(s: string) {
    '\0' !in s
  }

  lemma FieldCons(s: string, rest: seq<byte>)
    requires NoNul(s)
    ensures Fields(Field(s) + rest) == [Utf8(s)] + Fields(rest)
    ensures CString(Field(s) + rest) == Utf8(s)
  {
    Utf8NoZero(s);
    assert Field(s) + rest == Utf8(s) + [0] + rest;
    FieldsCons(Utf8(s), rest);
    FirstZeroOfField(Utf8(s), rest);
    assert (Utf8(s) + [0] + rest)[..|Utf8(s)|] == Utf8(s);
  }

  lemma FieldPair(a: string, b: string, rest: seq<byte>)
    requires NoNul(a) && NoNul(b)
    ensures Fields(Field(a) + Field(b) + rest) == [Utf8(a), Utf8(b)] + Fields(rest)
  {
    calc {
      Fields(Field(a) + Field(b) + rest);
      { assert Field(a) + Field(b) + rest == Field(a) + (Field(b) + rest); }
      Fields(Field(a) + (Field(b) + rest));
      { FieldCons(a, Field(b) + rest); }
      [Utf8(a)] + Fields(Field(b) + rest);
      { FieldCons(b, rest); }
      [Utf8(a)] + ([Utf8(b)] + Fields(rest));
      [Utf8(a), Utf8(b)] + Fields(rest);
    }
  }

  lemma {:induction false} OptionFieldsSplit(options: seq<(string, string)>, rest: seq<byte>)
    requires forall i :: 0 <= i < |options| ==> NoNul(options[i].0) && NoNul(options[i].1)
    ensures Fields(OptionBytes(options) + rest) == OptionFields(options) + Fields(rest)
    decreases |options|
  {
    if options == [] {
      assert OptionBytes(options) + rest == rest;
      assert OptionFields(options) + Fields(rest) == Fields(rest);
    } else {
      var init, last := options[..|options| - 1], options[|options| - 1];
      var tail := Field(last.0) + Field(last.1) + rest;
      var pair := [Utf8(last.0), Utf8(last.1)];
      calc {
        Fields(OptionBytes(options) + rest);
        { assert OptionBytes(options) + rest == OptionBytes(init) + tail; }
        Fields(OptionBytes(init) + tail);
        { OptionFieldsSplit(init, tail); }
        OptionFields(init) + Fields(tail);
        { FieldPair(last.0, last.1, rest); }
        OptionFields(init) + (pair + Fields(rest));
        (OptionFields(init) + pair) + Fields(rest);
      }
    }
  }

  lemma WrqBody(filename: string, mode: string, options: seq<(string, string)>)
    ensures Opcode(WrqPacket(filename, mode, options)) == OpWrq
    ensures WrqPacket(filename, mode, options)[2..]
         == Field(filename) + (Field(mode) + OptionBytes(options))
  {
    var body := Field(filename) + (Field(mode) + OptionBytes(options));
    assert WrqPacket(filename, mode, options) == [0, 2] + body;
    assert ([0, 2] + body)[2..] == body;
    WrqOpcode(filename, mode, options);
  }

  lemma {:induction false} RequestFields(filename: string, mode: string, options: seq<(string, string)>)
    requires NoNul(filename) && NoNul(mode)
    requires forall i :: 0 <= i < |options| ==> NoNul(options[i].0) && NoNul(options[i].1)
    ensures Fields(Field(filename) + (Field(mode) + OptionBytes(options)))
         == [Utf8(filename), Utf8(mode)] + OptionFields(options)
  {
    var opts := OptionBytes(options);
    calc {
      Fields(Field(filename) + (Field(mode) + opts));
      { FieldCons(filename, Field(mode) + opts); }
      [Utf8(filename)] + Fields(Field(mode) + opts);
      { FieldCons(mode, opts); }
      [Utf8(filename)] + ([Utf8(mode)] + Fields(opts));
      { OptionFieldsSplit(options, []); assert opts + [] == opts; }
      [Utf8(filename)] + ([Utf8(mode)] + (OptionFields(options) + Fields([])));
      [Utf8(filename), Utf8(mode)] + OptionFields(options);
    }
  }

  /** A write request splits back into its file name, mode and option
    * strings, and its first field is the name the server prints. */
  lemma WrqFields(filename: string, mode: string, options: seq<(string, string)>)
    requires NoNul(filename) && NoNul(mode)
    requires forall i :: 0 <= i < |options| ==> NoNul(options[i].0) && NoNul(options[i].1)
    ensures Opcode(WrqPacket(filename, mode, options)) == OpWrq
    ensures Fields(WrqPacket(filename, mode, options)[2..])
         == [Utf8(filename), Utf8(mode)] + OptionFields(options)
    ensures CString(WrqPacket(filename, mode, options)[2..]) == Utf8(filename)
  {
    WrqBody(filename, mode, options);
    RequestFields(filename, mode, options);
    FieldCons(filename, Field(mode) + OptionBytes(options));
  }
}
