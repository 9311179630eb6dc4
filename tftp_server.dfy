/**
 * The TFTP receiver of tftp_loader_sim/tftp_server.c: the body of the
 * `while (1)` loop in `handle_tftp` as one transition `Next` over the four
 * statics `current_state`, `expected_block`, `calculated_crc` and the output
 * file, and the class `TftpServer` whose `Step` performs that transition in
 * place. The ACK the server sends back, if any, is the transition's reply.
 *
 * `fopen("received.sre", "wb")` either succeeds, truncating the file, or
 * fails: its outcome is the parameter `canOpen` of one turn, and a run over
 * several datagrams takes one outcome per datagram (`opens`), so a failed
 * `fopen` can be followed by a successful one on a later WRQ. The file's content is the
 * byte sequence `output`. What the server prints about the trailer's
 * checksum is recorded as `report`.
 */
module LoaderSimServer {
  import opened Bytes
  import opened TftpPackets
  import opened Crc

  /** `ServerState`. */
  datatype Mode = Idle | Receiving | Completed

  /** The verdict printed when the trailer arrives. */
  datatype CrcReport =
    | NoReport       // no trailer processed yet
    | CrcPassed      // "CRC check passed"
    | CrcFailed      // "CRC check failed!"
    | CrcInvalid     // "Invalid CRC packet received": fewer than 6 bytes

  datatype Server = Server(mode: Mode, expectedBlock: u16, crc: u32, output: seq<byte>, report: CrcReport)

  /** The statics before the first datagram. */
  const Initial: Server := Server(Idle, 1, 0, [], NoReport)

  /** `udp_recv` into a 516-byte buffer: the datagram's length, or -1 when
    * `recvfrom` fails because the datagram does not fit (WSAEMSGSIZE). */
  function RecvLen(d: seq<byte>): int {
    if |d| > MaxPacket then -1 else |d|
  }

  /** One turn of the receive loop on datagram `d`: the new statics and the
    * ACK sent, if any. */
  function Next(h: Checksum, s: Server, d: seq<byte>, canOpen: bool): (Server, Option<seq<byte>>) {
    if RecvLen(d) < 4 then (s, None)
    else if Opcode(d) == OpWrq && s.mode == Idle then
      if canOpen then (s.(mode := Receiving, expectedBlock := 1, crc := 0, output := []), Some(AckPacket(0)))
      else (s, None)
    else if Opcode(d) == OpData && s.mode == Receiving then
      if BlockField(d) == s.expectedBlock then
        var payload := d[4..];
        (s.(expectedBlock := (s.expectedBlock + 1) % 0x1_0000, crc := h(s.crc, payload),
            output := s.output + payload),
         Some(AckPacket(BlockField(d))))
      else (s, None)
    else if Opcode(d) == OpCrc && s.mode == Receiving then
      var report := if |d| >= 6 then (if CrcField(d) == s.crc then CrcPassed else CrcFailed) else CrcInvalid;
      (s.(mode := Completed, report := report), None)
    else (s, None)
  }

  /** The receive loop over the datagrams `ds`, in arrival order, where
    * `opens[i]` is what `fopen` would do on the turn of `ds[i]`: the final
    * statics and one reply per datagram. */
  function Replay(h: Checksum, s: Server, ds: seq<seq<byte>>, opens: seq<bool>): (r: (Server, seq<Option<seq<byte>>>))
    requires |opens| == |ds|
    ensures |r.1| == |ds|
    decreases |ds|
  {
    if ds == [] then (s, [])
    else
      var (s1, reply) := Next(h, s, ds[0], opens[0]);
      var (s2, replies) := Replay(h, s1, ds[1..], opens[1..]);
      (s2, [reply] + replies)
  }

  /** The loop over `a + b` is the loop over `b` continued from where the
    * loop over `a` left off. */
  lemma {:induction false} ReplayAppend(h: Checksum, s: Server, a: seq<seq<byte>>, b: seq<seq<byte>>,
                                        oa: seq<bool>, ob: seq<bool>)
    requires |oa| == |a| && |ob| == |b|
    ensures var (s1, r1) := Replay(h, s, a, oa);
            var (s2, r2) := Replay(h, s1, b, ob);
            Replay(h, s, a + b, oa + ob) == (s2, r1 + r2)
    decreases |a|
  {
    if a == [] {
      assert a + b == b && oa + ob == ob;
      var r2 := Replay(h, s, b, ob).1;
      assert [] + r2 == r2;
    } else {
      assert (a + b)[1..] == a[1..] + b && (oa + ob)[1..] == oa[1..] + ob;
      assert (a + b)[0] == a[0] && (oa + ob)[0] == oa[0];
      var (t, reply) := Next(h, s, a[0], oa[0]);
      ReplayAppend(h, t, a[1..], b, oa[1..], ob);
      var (s1, r1) := Replay(h, t, a[1..], oa[1..]);
      var (s2, r2) := Replay(h, s1, b, ob);
      assert Replay(h, s, a, oa) == (s1, [reply] + r1);
      assert [reply] + (r1 + r2) == [reply] + r1 + r2;
    }
  }

  // ---------------------------------------------------------------------------
  // Properties of one transition.
  // ---------------------------------------------------------------------------

  /** A datagram shorter than 4 bytes, or too long for the buffer, is dropped. */
  lemma ShortDropped(h: Checksum, s: Server, d: seq<byte>, canOpen: bool)
    requires |d| < 4 || |d| > MaxPacket
    ensures Next(h, s, d, canOpen) == (s, None)
  {
  }

  /** A WRQ is acted on only in IDLE: if the file cannot be created nothing
    * changes and nothing is sent; otherwise RECEIVING from block 1 with a
    * zero checksum and an empty file, and ACK 0. */
  lemma WrqHandling(h: Checksum, s: Server, d: seq<byte>, canOpen: bool)
    requires 4 <= |d| <= MaxPacket && Opcode(d) == OpWrq
    ensures s.mode != Idle || !canOpen ==> Next(h, s, d, canOpen) == (s, None)
    ensures s.mode == Idle && canOpen ==>
              Next(h, s, d, canOpen) == (Server(Receiving, 1, 0, [], s.report), Some([0, 4, 0, 0]))
  {
  }

  /** DATA in RECEIVING with the expected block number appends its payload,
    * folds it into the checksum, is acknowledged with its own number and
    * advances the expected number modulo 2^16; any other DATA is ignored. */
  lemma DataHandling(h: Checksum, s: Server, d: seq<byte>, canOpen: bool)
    requires 4 <= |d| <= MaxPacket && Opcode(d) == OpData
    ensures s.mode == Receiving && BlockField(d) == s.expectedBlock ==>
              var (s', reply) := Next(h, s, d, canOpen);
              s'.mode == Receiving && s'.output == s.output + d[4..] && s'.crc == h(s.crc, d[4..])
              && s'.expectedBlock == (s.expectedBlock + 1) % 0x1_0000 && s'.report == s.report
              && reply == Some(d[..4][1 := 4])
    ensures s.mode != Receiving || BlockField(d) != s.expectedBlock ==> Next(h, s, d, canOpen) == (s, None)
  {
    if s.mode == Receiving && BlockField(d) == s.expectedBlock {
      var b := BlockField(d);
      assert AckPacket(b) == [0, 4, b / 0x100, b % 0x100];
      assert d[0] == 0 by {
        assert Opcode(d) == d[0] * 0x100 + d[1];
      }
      assert d[..4][1 := 4] == [0, 4, d[2], d[3]];
    }
  }

  /** The trailer in RECEIVING ends the transfer whatever its length: the
    * file is closed and the state is COMPLETED; with at least 6 bytes its
    * big-endian checksum is compared with the running one. */
  lemma TrailerHandling(h: Checksum, s: Server, d: seq<byte>, canOpen: bool)
    requires 4 <= |d| <= MaxPacket && Opcode(d) == OpCrc && s.mode == Receiving
    ensures var (s', reply) := Next(h, s, d, canOpen);
            reply == None && s'.mode == Completed
            && s'.output == s.output && s'.crc == s.crc && s'.expectedBlock == s.expectedBlock
            && (|d| < 6 ==> s'.report == CrcInvalid)
            && (|d| >= 6 ==> (s'.report == CrcPassed <==> Be32Value(d[2], d[3], d[4], d[5]) == s.crc))
            && (|d| >= 6 ==> s'.report != CrcInvalid)
  {
  }

  /** COMPLETED is absorbing, and opcodes other than WRQ, DATA and the
    * trailer (RRQ, ACK, ERROR, anything else) are ignored in every state. */
  lemma Ignored(h: Checksum, s: Server, d: seq<byte>, canOpen: bool)
    requires s.mode == Completed || (|d| >= 2 && Opcode(d) !in {OpWrq, OpData, OpCrc})
    ensures Next(h, s, d, canOpen) == (s, None)
  {
  }

  /** The invariant of the loop: the running checksum is the checksum of
    * the file written so far. */
  ghost predicate Inv(h: Checksum, s: Server) {
    s.crc == h(0, s.output)
  }

  lemma InitialInv(h: Checksum)
    requires Incremental(h)
    ensures Inv(h, Initial)
  {
  }

  lemma NextInv(h: Checksum, s: Server, d: seq<byte>, canOpen: bool)
    requires Incremental(h) && Inv(h, s)
    ensures Inv(h, Next(h, s, d, canOpen).0)
  {
    if RecvLen(d) >= 4 && Opcode(d) == OpData && s.mode == Receiving && BlockField(d) == s.expectedBlock {
      assert h(h(0, s.output), d[4..]) == h(0, s.output + d[4..]);
    }
  }

  lemma {:induction false} ReplayInv(h: Checksum, s: Server, ds: seq<seq<byte>>, opens: seq<bool>)
    requires Incremental(h) && Inv(h, s) && |opens| == |ds|
    ensures Inv(h, Replay(h, s, ds, opens).0)
    decreases |ds|
  {
    if ds != [] {
      NextInv(h, s, ds[0], opens[0]);
      ReplayInv(h, Next(h, s, ds[0], opens[0]).0, ds[1..], opens[1..]);
    }
  }

  /** A WRQ whose `fopen` fails leaves the server IDLE and silent, so the
    * client's retransmitted WRQ is acted on afresh: when that `fopen`
    * succeeds, only the second copy is acknowledged. */
  lemma RetriedWrqOpens(h: Checksum, wrq: seq<byte>)
    requires 4 <= |wrq| <= MaxPacket && Opcode(wrq) == OpWrq
    ensures Replay(h, Initial, [wrq, wrq], [false, true])
         == (Server(Receiving, 1, 0, [], NoReport), [None, Some(AckPacket(0))])
  {
    WrqHandling(h, Initial, wrq, false);
    WrqHandling(h, Initial, wrq, true);
    var started := Server(Receiving, 1, 0, [], NoReport);
    assert AckPacket(0) == [0, 4, 0, 0];
    assert Next(h, Initial, wrq, true) == (started, Some(AckPacket(0)));
    assert Replay(h, started, [], []) == (started, []);
    assert Replay(h, Initial, [wrq], [true]) == (started, [Some(AckPacket(0))]) by {
      assert [wrq][1..] == [] && [true][1..] == [];
      assert [Some(AckPacket(0))] + [] == [Some(AckPacket(0))];
    }
    assert [None] + [Some(AckPacket(0))] == [None, Some(AckPacket(0))];
    assert [wrq, wrq][1..] == [wrq] && [false, true][1..] == [true];
  }

  /** Nothing leaves COMPLETED, so nothing after the trailer is ever written
    * or acknowledged. */
  lemma {:induction false} ReplayCompleted(h: Checksum, s: Server, ds: seq<seq<byte>>, opens: seq<bool>)
    requires s.mode == Completed && |opens| == |ds|
    ensures Replay(h, s, ds, opens).0 == s
    ensures forall i :: 0 <= i < |ds| ==> Replay(h, s, ds, opens).1[i] == None
    decreases |ds|
  {
    if ds != [] {
      Ignored(h, s, ds[0], opens[0]);
      ReplayCompleted(h, s, ds[1..], opens[1..]);
      var rs := Replay(h, s, ds, opens).1;
      assert rs == [None] + Replay(h, s, ds[1..], opens[1..]).1;
      forall i | 1 <= i < |ds| ensures rs[i] == None {
        assert rs[i] == Replay(h, s, ds[1..], opens[1..]).1[i - 1];
      }
    }
  }

  // ---------------------------------------------------------------------------
  // The server.
  // ---------------------------------------------------------------------------

  class TftpServer {
    var currentState: Mode
    var expectedBlock: u16
    var calculatedCrc: u32
    /** The content of received.sre. */
    var output: seq<byte>
    var report: CrcReport
    /** `crc32` of crc32.c, which the constructor installs. */
    const checksum: Checksum

    function State(): Server
      reads this
    {
      Server(currentState, expectedBlock, calculatedCrc, output, report)
    }

    constructor ()
      ensures State() == Initial && checksum == Crc32
    {
      checksum := Crc32;
      currentState := Idle;
      expectedBlock := 1;
      calculatedCrc := 0;
      output := [];
      report := NoReport;
    }

    /** Lines 36-95: one datagram. */
    method Step(packet: seq<byte>, canOpen: bool) returns (reply: Option<seq<byte>>)
      modifies this
      ensures (State(), reply) == Next(checksum, old(State()), packet, canOpen)
    {
      var recvLen := if |packet| > MaxPacket then -1 else |packet|;
      if recvLen < 4 {
        return None;
      }
      var opcode := Be16Value(packet[0], packet[1]);
      if opcode == 2 && currentState == Idle {
        if !canOpen {
          return None;
        }
        output := [];
        currentState := Receiving;
        expectedBlock := 1;
        calculatedCrc := 0;
        reply := Some(AckPacket(0));
      } else if opcode == 3 && currentState == Receiving {
        reply := ReceiveData(packet, canOpen);
      } else if opcode == 0x10 && currentState == Receiving {
        ReceiveTrailer(packet, canOpen);
        reply := None;
      } else {
        reply := None;
      }
    }

    /** Lines 55-66: DATA while receiving. */
    method ReceiveData(packet: seq<byte>, canOpen: bool) returns (reply: Option<seq<byte>>)
      requires 4 <= |packet| <= MaxPacket && Opcode(packet) == OpData && currentState == Receiving
      modifies this
      ensures (State(), reply) == Next(checksum, old(State()), packet, canOpen)
    {
      var block := Be16Value(packet[2], packet[3]);
      if block != expectedBlock {
        return None;
      }
      var data := packet[4..];
      output := output + data;
      calculatedCrc := checksum(calculatedCrc, data);
      reply := Some(AckPacket(block));
      expectedBlock := (expectedBlock + 1) % 0x1_0000;
    }

    /** Lines 67-95: the trailer while receiving. */
    method ReceiveTrailer(packet: seq<byte>, canOpen: bool)
      requires 4 <= |packet| <= MaxPacket && Opcode(packet) == OpCrc && currentState == Receiving
      modifies this
      ensures (State(), None) == Next(checksum, old(State()), packet, canOpen)
    {
      if |packet| >= 6 {
        var receivedCrc := Be32Value(packet[2], packet[3], packet[4], packet[5]);
        report := if receivedCrc == calculatedCrc then CrcPassed else CrcFailed;
      } else {
        report := CrcInvalid;
      }
      currentState := Completed;
    }

    /** `handle_tftp` over the datagrams `packets`, in arrival order, with
      * `opens[i]` the outcome of an `fopen` on the turn of `packets[i]`. */
    method Serve(packets: seq<seq<byte>>, opens: seq<bool>) returns (replies: seq<Option<seq<byte>>>)
      requires |opens| == |packets|
      modifies this
      ensures (State(), replies) == Replay(checksum, old(State()), packets, opens)
    {
      ghost var target := Replay(checksum, State(), packets, opens);
      replies := [];
      var i := 0;
      while i < |packets|
        invariant 0 <= i <= |packets|
        invariant var (s, rs) := Replay(checksum, State(), packets[i..], opens[i..]); s == target.0 && replies + rs == target.1
      {
        assert packets[i..][1..] == packets[i + 1..] && opens[i..][1..] == opens[i + 1..];
        var reply := Step(packets[i], opens[i]);
        replies := replies + [reply];
        i := i + 1;
      }
      assert packets[i..] == [];
      assert replies + [] == replies;
    }
  }
}
