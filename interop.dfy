/**
 * The write client of tftp_client/tftp_client.py against the receiver of
 * tftp_loader_sim/tftp_server.c.
 *
 * Without loss, what a successful upload sends, delivered once each, leaves
 * the server COMPLETED with exactly the client's file written and the CRC
 * check passed (`Delivered`).
 *
 * The server acknowledges a block only when its number is the one it
 * expects, and accepting a block advances that number; a retransmission of
 * an accepted block is therefore never acknowledged. Once the first ACK for
 * block k is lost the client hears nothing more, sends block k `retries`
 * times in all and gives up, and the server has written the block once.
 */
module Interop {
  import opened Bytes
  import opened TftpPackets
  import opened Crc
  import C = TftpClient
  import S = LoaderSimServer

  /** `n` turns of the server's loop that send nothing. */
  function NoReplies(n: nat): (r: seq<Option<seq<byte>>>)
    ensures |r| == n && forall i :: 0 <= i < n ==> r[i] == None
  {
    seq(n, _ => None)
  }

  /** A retransmission of the block just accepted finds the server expecting
    * the next one, and is ignored. */
  lemma DuplicateIgnored(h: Checksum, s: S.Server, k: u16, data: seq<byte>, canOpen: bool)
    requires s.mode == S.Receiving && s.expectedBlock == (k + 1) % 0x1_0000 && |data| <= BlockSize
    ensures S.Next(h, s, DataPacket(k, data), canOpen) == (s, None)
  {
    DataRoundTrip(k, data);
    S.DataHandling(h, s, DataPacket(k, data), canOpen);
  }

  lemma {:induction false} DuplicatesIgnored(h: Checksum, s: S.Server, k: u16, data: seq<byte>, n: nat,
                                             opens: seq<bool>)
    requires s.mode == S.Receiving && s.expectedBlock == (k + 1) % 0x1_0000 && |data| <= BlockSize
    requires |opens| == n
    ensures S.Replay(h, s, C.Repeat(DataPacket(k, data), n), opens) == (s, NoReplies(n))
    decreases n
  {
    var ps := C.Repeat(DataPacket(k, data), n);
    if n > 0 {
      DuplicateIgnored(h, s, k, data, opens[0]);
      assert ps[1..] == C.Repeat(DataPacket(k, data), n - 1);
      DuplicatesIgnored(h, s, k, data, n - 1, opens[1..]);
      assert [None] + NoReplies(n - 1) == NoReplies(n);
    } else {
      assert ps == [];
    }
  }

  /** `n` copies of block k reaching a server that expects block k: the
    * first is written and acknowledged, and every later one is ignored. */
  lemma ServerSide(h: Checksum, s: S.Server, k: u16, data: seq<byte>, n: nat, opens: seq<bool>)
    requires s.mode == S.Receiving && s.expectedBlock == k && |data| <= BlockSize && n >= 1
    requires |opens| == n
    ensures var (s1, replies) := S.Replay(h, s, C.Repeat(DataPacket(k, data), n), opens);
            s1.mode == S.Receiving && s1.output == s.output + data && s1.expectedBlock == (k + 1) % 0x1_0000
            && s1.crc == h(s.crc, data) && s1.report == s.report
            && replies == [Some(AckPacket(k))] + NoReplies(n - 1)
  {
    var p := DataPacket(k, data);
    DataRoundTrip(k, data);
    S.DataHandling(h, s, p, opens[0]);
    var (s1, ack) := S.Next(h, s, p, opens[0]);
    assert ack == Some(AckPacket(k)) by {
      assert p[..4][1 := 4] == [0, 4, p[2], p[3]];
      Be16RoundTrip(k);
    }
    assert C.Repeat(p, n)[1..] == C.Repeat(p, n - 1);
    DuplicatesIgnored(h, s1, k, data, n - 1, opens[1..]);
  }

  /** Waits that only time out never match. */
  lemma {:induction false} TimeoutsMiss(replies: seq<C.Reply>, n: nat, expected: nat)
    requires forall i :: 0 <= i < |replies| ==> replies[i] == C.Timeout
    ensures C.Misses(replies, n, expected)
    decreases n
  {
    if n > 0 && replies != [] {
      TimeoutsMiss(replies[1..], n - 1, expected);
    } else if n > 0 {
      TimeoutsMiss([], n - 1, expected);
    }
  }

  /** With no ACK arriving, the client sends block k exactly `retries` times
    * and `upload_file` fails with no further block, no trailer and no
    * further progress call. */
  lemma ClientSide(h: Checksum, retries: nat, rest: seq<byte>, k: u16, total: nat, crc: u32,
                   net: C.Net, progress: seq<(nat, nat)>)
    requires rest != []
    requires forall i :: 0 <= i < |net.replies| ==> net.replies[i] == C.Timeout
    ensures var run := C.DataLoop(h, retries, rest, k, total, crc, net, progress);
            !run.ok && run.progress == progress
            && run.net.sent == net.sent + C.Repeat(DataPacket(k, C.Chunk(rest)), retries)
  {
    var data := C.Chunk(rest);
    TimeoutsMiss(net.replies, retries, k);
    C.BlockLoopExhausted(retries, k, data, net);
    C.BlockLoopSends(retries, k, data, net);
  }

  /** The lost ACK. The server has accepted block k from the client's first
    * send and its ACK never arrives, so every wait of the client times out:
    * the client sends block k `retries` times and fails, and the server,
    * given all of them, writes the block once and acknowledges only the
    * first (the ACK that was lost). */
  lemma LostAck(h: Checksum, retries: nat, rest: seq<byte>, k: u16, total: nat, crc: u32,
                net: C.Net, progress: seq<(nat, nat)>, s: S.Server, opens: seq<bool>)
    requires rest != [] && retries >= 1 && |opens| == retries
    requires forall i :: 0 <= i < |net.replies| ==> net.replies[i] == C.Timeout
    requires s.mode == S.Receiving && s.expectedBlock == k
    ensures var run := C.DataLoop(h, retries, rest, k, total, crc, net, progress);
            var sent := C.Repeat(DataPacket(k, C.Chunk(rest)), retries);
            !run.ok && run.net.sent == net.sent + sent
            && var (s1, replies) := S.Replay(h, s, sent, opens);
               s1.mode == S.Receiving && s1.output == s.output + C.Chunk(rest)
               && s1.expectedBlock == (k + 1) % 0x1_0000
               && replies == [Some(AckPacket(k))] + NoReplies(retries - 1)
  {
    ClientSide(h, retries, rest, k, total, crc, net, progress);
    ServerSide(h, s, k, C.Chunk(rest), retries, opens);
  }

  // ---------------------------------------------------------------------------
  // A transfer without loss.
  // ---------------------------------------------------------------------------

  /** The replies ACK k, ACK k + 1, ..., ACK k + n - 1. */
  function AckRun(k: nat, n: nat): (r: seq<Option<seq<byte>>>)
    requires k + n <= 0x1_0000
    ensures |r| == n
    decreases n
  {
    if n == 0 then [] else [Some(AckPacket(k))] + AckRun(k + 1, n - 1)
  }

  /** Reply `i` of the run acknowledges block `k + i`. */
  lemma {:induction false} AckRunAt(k: nat, n: nat, i: nat)
    requires k + n <= 0x1_0000 && i < n
    ensures AckRun(k, n)[i] == Some(AckPacket(k + i))
    decreases i
  {
    if i > 0 {
      AckRunAt(k + 1, n - 1, i - 1);
    }
  }

  /** One DATA packet per block, as long as the block count fits. */
  lemma BlockPacketsCount(rest: seq<byte>, k: nat)
    requires k + C.TotalBlocks(|rest|) <= 0x1_0000
    ensures |C.BlockPackets(rest, k)| == C.TotalBlocks(|rest|)
  {
    C.BlockPacketsShape(rest, k);
    C.ChunksOfFile(rest);
  }

  /** `S.ReplayAppend`, component by component. */
  lemma ReplaySplit(h: Checksum, s: S.Server, a: seq<seq<byte>>, b: seq<seq<byte>>, oa: seq<bool>, ob: seq<bool>)
    requires |oa| == |a| && |ob| == |b|
    ensures S.Replay(h, s, a + b, oa + ob).0 == S.Replay(h, S.Replay(h, s, a, oa).0, b, ob).0
    ensures S.Replay(h, s, a + b, oa + ob).1 == S.Replay(h, s, a, oa).1 + S.Replay(h, S.Replay(h, s, a, oa).0, b, ob).1
  {
    S.ReplayAppend(h, s, a, b, oa, ob);
  }

  /** A run whose first datagram is the block the server expects goes on
    * from the state after that block is written, with its ACK first. */
  lemma BlockFirst(h: Checksum, s: S.Server, k: u16, data: seq<byte>, ds: seq<seq<byte>>, os: seq<bool>)
    requires s.mode == S.Receiving && s.expectedBlock == k && |data| <= BlockSize
    requires ds != [] && ds[0] == DataPacket(k, data) && |os| == |ds|
    ensures var s1 := s.(expectedBlock := (k + 1) % 0x1_0000, crc := h(s.crc, data), output := s.output + data);
            var r := S.Replay(h, s, ds, os);
            r.0 == S.Replay(h, s1, ds[1..], os[1..]).0 && r.1 == [Some(AckPacket(k))] + S.Replay(h, s1, ds[1..], os[1..]).1
  {
    var p := DataPacket(k, data);
    DataRoundTrip(k, data);
    S.DataHandling(h, s, p, os[0]);
    assert p[..4][1 := 4] == [0, 4, p[2], p[3]];
    Be16RoundTrip(k);
  }

  /** `ds` are consecutive DATA packets from block `k`, carrying the chunks `cs`. */
  predicate Consecutive(cs: seq<seq<byte>>, k: nat, ds: seq<seq<byte>>) {
    |ds| == |cs| && k + |cs| <= 0x1_0000
    && forall i :: 0 <= i < |cs| ==> |cs[i]| <= BlockSize && ds[i] == DataPacket(k + i, cs[i])
  }

  lemma ConsecutiveTail(cs: seq<seq<byte>>, k: nat, ds: seq<seq<byte>>)
    requires Consecutive(cs, k, ds) && cs != []
    ensures k < 0x1_0000 && |cs[0]| <= BlockSize && ds[0] == DataPacket(k, cs[0])
    ensures Consecutive(cs[1..], k + 1, ds[1..])
  {
    forall i | 0 <= i < |cs[1..]| ensures |cs[1..][i]| <= BlockSize && ds[1..][i] == DataPacket(k + 1 + i, cs[1..][i]) {
      assert cs[1..][i] == cs[i + 1] && ds[1..][i] == ds[i + 1];
    }
  }

  /** Consecutive blocks from the one the server expects are all
    * acknowledged in order. */
  lemma {:induction false} ChunksAcked(h: Checksum, s: S.Server, cs: seq<seq<byte>>, k: nat,
                                       ds: seq<seq<byte>>, opens: seq<bool>)
    requires s.mode == S.Receiving && s.expectedBlock == k % 0x1_0000
    requires Consecutive(cs, k, ds) && |opens| == |cs|
    ensures S.Replay(h, s, ds, opens).1 == AckRun(k, |cs|)
    decreases |cs|
  {
    if cs != [] {
      ConsecutiveTail(cs, k, ds);
      var s1 := s.(expectedBlock := (k + 1) % 0x1_0000, crc := h(s.crc, cs[0]), output := s.output + cs[0]);
      BlockFirst(h, s, k, cs[0], ds, opens);
      ChunksAcked(h, s1, cs[1..], k + 1, ds[1..], opens[1..]);
    }
  }

  /** Block k (< 0x1_0000) of payload `d` and then `n` blocks of payload `c`
    * take the state to the same place as the payload `d + c` at once. */
  lemma Advance(h: Checksum, s: S.Server, k: nat, d: seq<byte>, c: seq<byte>, n: nat)
    requires Incremental(h) && k < 0x1_0000
    ensures var s1 := s.(expectedBlock := (k + 1) % 0x1_0000, crc := h(s.crc, d), output := s.output + d);
            s1.(expectedBlock := (k + 1 + n) % 0x1_0000, crc := h(s1.crc, c), output := s1.output + c)
            == s.(expectedBlock := (k + 1 + n) % 0x1_0000, crc := h(s.crc, d + c), output := s.output + (d + c))
  {
    assert s.output + d + c == s.output + (d + c);
  }

  /** Consecutive blocks from the one the server expects, carrying the chunks
    * `cs`, are all written, and the running CRC takes in all of their
    * payload. */
  lemma {:induction false} ChunksWritten(h: Checksum, s: S.Server, cs: seq<seq<byte>>, k: nat,
                                         ds: seq<seq<byte>>, opens: seq<bool>)
    requires Incremental(h)
    requires s.mode == S.Receiving && s.expectedBlock == k % 0x1_0000
    requires Consecutive(cs, k, ds) && |opens| == |cs|
    ensures S.Replay(h, s, ds, opens).0
            == s.(expectedBlock := (k + |cs|) % 0x1_0000, crc := h(s.crc, C.Concat(cs)), output := s.output + C.Concat(cs))
    decreases |cs|
  {
    if cs == [] {
      assert s.output + [] == s.output;
    } else {
      ConsecutiveTail(cs, k, ds);
      var s1 := s.(expectedBlock := (k + 1) % 0x1_0000, crc := h(s.crc, cs[0]), output := s.output + cs[0]);
      BlockFirst(h, s, k, cs[0], ds, opens);
      ChunksWritten(h, s1, cs[1..], k + 1, ds[1..], opens[1..]);
      assert C.Concat(cs) == cs[0] + C.Concat(cs[1..]);
      Advance(h, s, k, cs[0], C.Concat(cs[1..]), |cs[1..]|);
    }
  }

  /** The DATA packets of file `f` are consecutive from block 1 and carry
    * its chunks, which together are `f`. */
  lemma FileBlocks(f: seq<byte>)
    requires C.TotalBlocks(|f|) <= 0xFFFF
    ensures Consecutive(C.Chunks(f), 1, C.BlockPackets(f, 1))
    ensures |C.Chunks(f)| == C.TotalBlocks(|f|) && C.Concat(C.Chunks(f)) == f
  {
    C.BlockPacketsShape(f, 1);
    C.ChunksOfFile(f);
  }

  /** The DATA packets of file `f` from block 1, reaching a server that has
    * just accepted the WRQ, write exactly `f`, with its CRC. */
  lemma FileWritten(h: Checksum, f: seq<byte>, opens: seq<bool>)
    requires Incremental(h)
    requires C.TotalBlocks(|f|) <= 0xFFFF && |opens| == C.TotalBlocks(|f|)
    ensures |C.BlockPackets(f, 1)| == |opens|
    ensures S.Replay(h, S.Server(S.Receiving, 1, 0, [], S.NoReport), C.BlockPackets(f, 1), opens).0
            == S.Server(S.Receiving, (1 + C.TotalBlocks(|f|)) % 0x1_0000, h(0, f), f, S.NoReport)
  {
    FileBlocks(f);
    ChunksWritten(h, S.Server(S.Receiving, 1, 0, [], S.NoReport), C.Chunks(f), 1, C.BlockPackets(f, 1), opens);
    assert [] + f == f;
  }

  /** ... and acknowledge blocks 1, 2, ... in turn. */
  lemma FileAcked(h: Checksum, f: seq<byte>, opens: seq<bool>)
    requires C.TotalBlocks(|f|) <= 0xFFFF && |opens| == C.TotalBlocks(|f|)
    ensures |C.BlockPackets(f, 1)| == |opens|
    ensures S.Replay(h, S.Server(S.Receiving, 1, 0, [], S.NoReport), C.BlockPackets(f, 1), opens).1 == AckRun(1, |opens|)
  {
    FileBlocks(f);
    ChunksAcked(h, S.Server(S.Receiving, 1, 0, [], S.NoReport), C.Chunks(f), 1, C.BlockPackets(f, 1), opens);
  }

  /** The first WRQ whose `fopen` succeeds starts the transfer. */
  lemma WrqStarts(h: Checksum, wrq: seq<byte>)
    requires 4 <= |wrq| <= MaxPacket && Opcode(wrq) == OpWrq
    ensures S.Replay(h, S.Initial, [wrq], [true]) == (S.Server(S.Receiving, 1, 0, [], S.NoReport), [Some(AckPacket(0))])
  {
    S.WrqHandling(h, S.Initial, wrq, true);
    assert AckPacket(0) == [0, 4, 0, 0];
    assert [wrq][1..] == [] && [true][1..] == [];
    assert [Some(AckPacket(0))] + [] == [Some(AckPacket(0))];
  }

  /** A WRQ that opens the file, followed by `later`: the run goes on from
    * the freshly started transfer, and ACK 0 heads the replies. */
  lemma WrqThenLater(h: Checksum, wrq: seq<byte>, later: seq<seq<byte>>, os: seq<bool>)
    requires 4 <= |wrq| <= MaxPacket && Opcode(wrq) == OpWrq && |os| == |later|
    ensures var started := S.Server(S.Receiving, 1, 0, [], S.NoReport);
            var r := S.Replay(h, S.Initial, [wrq] + later, [true] + os);
            r.0 == S.Replay(h, started, later, os).0 && r.1 == [Some(AckPacket(0))] + S.Replay(h, started, later, os).1
  {
    WrqStarts(h, wrq);
    ReplaySplit(h, S.Initial, [wrq], later, [true], os);
  }

  /** A trailer carrying the running CRC passes the check. */
  lemma TrailerPasses(h: Checksum, s: S.Server, open: bool)
    requires s.mode == S.Receiving
    ensures S.Replay(h, s, [CrcPacket(s.crc)], [open]) == (s.(mode := S.Completed, report := S.CrcPassed), [None])
  {
    CrcRoundTrip(s.crc);
    S.TrailerHandling(h, s, CrcPacket(s.crc), open);
    assert [CrcPacket(s.crc)][1..] == [] && [open][1..] == [];
    var none: seq<Option<seq<byte>>> := [None];
    assert none + [] == none;
  }

  /** The blocks of `f` and then the trailer with `f`'s CRC, reaching a server
    * that has just accepted the WRQ: every block is acknowledged, and the
    * trailer completes the transfer with the check passed. */
  lemma FileThenTrailer(h: Checksum, f: seq<byte>, mid: seq<bool>, last: bool)
    requires Incremental(h)
    requires C.TotalBlocks(|f|) <= 0xFFFF && |mid| == C.TotalBlocks(|f|)
    ensures |C.BlockPackets(f, 1)| == |mid|
    ensures var r := S.Replay(h, S.Server(S.Receiving, 1, 0, [], S.NoReport), C.BlockPackets(f, 1) + [CrcPacket(h(0, f))], mid + [last]);
            r.0 == S.Server(S.Completed, (1 + C.TotalBlocks(|f|)) % 0x1_0000, h(0, f), f, S.CrcPassed)
            && r.1 == AckRun(1, |mid|) + [None]
  {
    var started := S.Server(S.Receiving, 1, 0, [], S.NoReport);
    var bp := C.BlockPackets(f, 1);
    FileWritten(h, f, mid);
    FileAcked(h, f, mid);
    var s2 := S.Server(S.Receiving, (1 + C.TotalBlocks(|f|)) % 0x1_0000, h(0, f), f, S.NoReport);
    TrailerPasses(h, s2, last);
    ReplaySplit(h, started, bp, [CrcPacket(h(0, f))], mid, [last]);
  }

  lemma Regroup<T>(a: seq<T>, b: seq<T>, c: seq<T>)
    ensures a + b + c == a + (b + c)
  {
  }

  lemma MiddleThenLast<T>(s: seq<T>, t: nat)
    requires |s| == t + 2
    ensures s == [s[0]] + (s[1..t + 1] + [s[t + 1]])
  {
  }

  /** What the client sends on a successful upload (`C.TransferTrace`, with
    * retransmissions collapsed): the WRQ, the blocks of `f` from 1, and the
    * trailer with `f`'s CRC. */
  function CleanUpload(h: Checksum, wrq: seq<byte>, f: seq<byte>): seq<seq<byte>> {
    [wrq] + C.BlockPackets(f, 1) + [CrcPacket(h(0, f))]
  }

  /** A clean upload delivered once each to the server in IDLE: the WRQ
    * opens the file, every block is written and acknowledged with its own
    * number, and the trailer ends the transfer with the CRC check passed
    * and the file's content exactly the client's file. */
  lemma Delivered(h: Checksum, wrq: seq<byte>, f: seq<byte>, opens: seq<bool>)
    requires Incremental(h)
    requires 4 <= |wrq| <= MaxPacket && Opcode(wrq) == OpWrq
    requires C.TotalBlocks(|f|) <= 0xFFFF
    requires |opens| == C.TotalBlocks(|f|) + 2 && opens[0]
    ensures |CleanUpload(h, wrq, f)| == |opens|
    ensures S.Replay(h, S.Initial, CleanUpload(h, wrq, f), opens).0
            == S.Server(S.Completed, (1 + C.TotalBlocks(|f|)) % 0x1_0000, h(0, f), f, S.CrcPassed)
    ensures S.Replay(h, S.Initial, CleanUpload(h, wrq, f), opens).1 == AckRun(0, C.TotalBlocks(|f|) + 1) + [None]
  {
    var t := C.TotalBlocks(|f|);
    BlockPacketsCount(f, 1);
    var rest := C.BlockPackets(f, 1) + [CrcPacket(h(0, f))];
    Regroup([wrq], C.BlockPackets(f, 1), [CrcPacket(h(0, f))]);
    var mid := opens[1..t + 1];
    MiddleThenLast(opens, t);
    WrqThenLater(h, wrq, rest, mid + [opens[t + 1]]);
    FileThenTrailer(h, f, mid, opens[t + 1]);
    Regroup([Some(AckPacket(0))], AckRun(1, t), [None]);
  }
}
