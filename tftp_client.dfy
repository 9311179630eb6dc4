/**
 * The TFTP write client of tftp_client/tftp_client.py: packet sending,
 * `receive_ack`, and `upload_file` with its two bounded-retry phases, the
 * running CRC-32 and the progress callback.
 *
 * The UDP socket is an oracle: it records every datagram sent and answers
 * each wait from a script fixed in advance; an exhausted script answers
 * every further wait with a timeout. `upload_file` is proved equal to the
 * pure function `Upload`, and the promised properties are lemmas on `Upload`.
 */
module TftpClient {
  import opened Bytes
  import opened TftpPackets
  import opened Crc

  /** What the network delivers to one `sock.recvfrom(516)`. */
  datatype Reply =
    | Timeout                       // `socket.timeout`
    | Datagram(bytes: seq<byte>)    // a datagram, of any length
    | SocketError                   // any other `OSError`, which `receive_ack` lets through

  /** The socket's observable state: the datagrams sent so far, and the
    * replies the network has yet to deliver. */
  datatype Net = Net(sent: seq<seq<byte>>, replies: seq<Reply>)

  class UdpSocket {
    var sent: seq<seq<byte>>
    var replies: seq<Reply>

    constructor (script: seq<Reply>)
      ensures sent == [] && replies == script
    {
      sent := [];
      replies := script;
    }

    method SendTo(packet: seq<byte>)
      modifies this
      ensures sent == old(sent) + [packet] && replies == old(replies)
    {
      sent := sent + [packet];
    }

    method RecvFrom() returns (r: Reply)
      modifies this
      ensures sent == old(sent)
      ensures old(replies) == [] ==> r == Timeout && replies == []
      ensures old(replies) != [] ==> replies == old(replies)[1..]
      ensures old(replies) != [] ==> r == Received(old(replies)[0])
    {
      if replies == [] {
        r := Timeout;
      } else {
        r := replies[0];
        if r.Datagram? && |r.bytes| > MaxPacket {
          r := SocketError;
        }
        replies := replies[1..];
      }
    }
  }

  /** What `recvfrom(516)` returns or raises for a delivered reply. On
    * Windows (Winsock) a datagram longer than the buffer is not truncated:
    * the call fails with WSAEMSGSIZE, an `OSError`. */
  function Received(r: Reply): Reply {
    if r.Datagram? && |r.bytes| > MaxPacket then SocketError else r
  }

  // ---------------------------------------------------------------------------
  // Waiting for an ACK.
  // ---------------------------------------------------------------------------

  /** `receive_ack`: True, False, or an exception that propagates. */
  datatype AckResult = Matched | NotMatched | SocketRaised

  function Classify(r: Reply, expected: nat): AckResult {
    match Received(r)
    case Timeout => NotMatched
    case Datagram(d) => if AckMatches(d, expected) then Matched else NotMatched
    case SocketError => SocketRaised
  }

  /** `receive_ack`'s verdict on one reply: a datagram longer than 516 bytes
    * raises whatever it holds, a shorter one matches exactly when it is the
    * ACK expected, a timeout is a miss and a socket error propagates. */
  lemma ReplyVerdict(r: Reply, expected: nat)
    ensures r.Datagram? && |r.bytes| > MaxPacket ==> Classify(r, expected) == SocketRaised
    ensures r.Datagram? && |r.bytes| <= MaxPacket ==>
      (Classify(r, expected) == Matched <==> AckMatches(r.bytes, expected)) &&
      Classify(r, expected) != SocketRaised
    ensures r.Timeout? ==> Classify(r, expected) == NotMatched
    ensures r.SocketError? ==> Classify(r, expected) == SocketRaised
  {
  }

  /** One wait: the verdict and the replies left. */
  function WaitFor(replies: seq<Reply>, expected: nat): (AckResult, seq<Reply>) {
    if replies == [] then (NotMatched, []) else (Classify(replies[0], expected), replies[1..])
  }

  // ---------------------------------------------------------------------------
  // Specification of `upload_file`.
  // ---------------------------------------------------------------------------

  /** How a bounded-retry phase ends. */
  datatype Phase = Acked(net: Net) | Exhausted(net: Net) | Raised(net: Net)

  /** The result of `upload_file`, with the datagrams and progress calls
    * it produced. */
  datatype Run = Run(ok: bool, net: Net, progress: seq<(nat, nat)>)

  /** `for _ in range(n)`: wait for ACK 0, re-sending the WRQ after a miss. */
  function WrqLoop(n: nat, wrq: seq<byte>, net: Net): Phase
    decreases n
  {
    if n == 0 then Exhausted(net)
    else
      var (r, rest) := WaitFor(net.replies, 0);
      match r
      case Matched => Acked(Net(net.sent, rest))
      case SocketRaised => Raised(Net(net.sent, rest))
      case NotMatched => WrqLoop(n - 1, wrq, Net(net.sent + [wrq], rest))
  }

  /** `for attempt in range(1, n + 1)`: send block `k` and wait for its ACK.
    * A block number that does not fit in 16 bits makes `to_bytes` raise. */
  function BlockLoop(n: nat, k: nat, data: seq<byte>, net: Net): Phase
    decreases n
  {
    if n == 0 then Exhausted(net)
    else if k > 0xFFFF then Raised(net)
    else
      var (r, rest) := WaitFor(net.replies, k);
      var net' := Net(net.sent + [DataPacket(k, data)], rest);
      match r
      case Matched => Acked(net')
      case SocketRaised => Raised(net')
      case NotMatched => BlockLoop(n - 1, k, data, net')
  }

  /** `f.read(512)` on the unread part of the file. */
  function Chunk(rest: seq<byte>): (data: seq<byte>)
    ensures data <= rest && |data| <= BlockSize
    ensures |data| == if |rest| < BlockSize then |rest| else BlockSize
  {
    if |rest| <= BlockSize then rest else rest[..BlockSize]
  }

  /** The `while True` loop over the unread part `rest` of the file, from
    * block `k` with running checksum `crc`: each chunk is folded into the
    * checksum before its retry loop; at end of file the trailer is sent and
    * no ACK is awaited for it. */
  function DataLoop(h: Checksum, retries: nat, rest: seq<byte>, k: nat, total: nat, crc: u32,
                    net: Net, progress: seq<(nat, nat)>): Run
    decreases |rest|
  {
    if rest == [] then Run(true, Net(net.sent + [CrcPacket(crc)], net.replies), progress)
    else
      var data := Chunk(rest);
      var crc' := h(crc, data);
      match BlockLoop(retries, k, data, net)
      case Acked(net') => DataLoop(h, retries, rest[|data|..], k + 1, total, crc', net', progress + [(k, total)])
      case Exhausted(net') => Run(false, net', progress)
      case Raised(net') => Run(false, net', progress)
  }

  /** `filepath.split('/')[-1]`: the longest suffix without a '/'. */
  function Basename(path: string): (name: string)
    ensures '/' !in name
    ensures |name| <= |path| && name == path[|path| - |name|..]
    ensures |name| < |path| ==> path[|path| - |name| - 1] == '/'
    decreases |path|
  {
    if path == [] || path[|path| - 1] == '/' then []
    else Basename(path[..|path| - 1]) + [path[|path| - 1]]
  }

  const Octet: string := "octet"

  /** The block count `(filesize + 511) // 512` handed to the progress callback. */
  function TotalBlocks(size: nat): nat {
    (size + BlockSize - 1) / BlockSize
  }

  /** `upload_file(filepath)` where `file` is the file's content, or `None`
    * when opening it raises. */
  function Upload(h: Checksum, retries: nat, path: string, file: Option<seq<byte>>, net: Net): Run {
    match file
    case None => Run(false, net, [])
    case Some(f) => Transfer(h, retries, WrqPacket(Basename(path), Octet, []), f, net)
  }

  /** Lines 60-105 of `upload_file`, for the write request `wrq` and the
    * file content `f`. */
  function Transfer(h: Checksum, retries: nat, wrq: seq<byte>, f: seq<byte>, net: Net): Run {
    match WrqLoop(retries, wrq, Net(net.sent + [wrq], net.replies))
    case Acked(net1) => DataLoop(h, retries, f, 1, TotalBlocks(|f|), 0, net1, [])
    case Exhausted(net1) => Run(false, net1, [])
    case Raised(net1) => Run(false, net1, [])
  }

  /** Once the WRQ phase is acknowledged: the data phase. */
  lemma TransferAcked(h: Checksum, retries: nat, wrq: seq<byte>, f: seq<byte>, net: Net, net1: Net)
    requires WrqLoop(retries, wrq, Net(net.sent + [wrq], net.replies)) == Acked(net1)
    ensures Transfer(h, retries, wrq, f, net) == DataLoop(h, retries, f, 1, TotalBlocks(|f|), 0, net1, [])
  {
  }

  /** When the WRQ phase ends without an ACK: False, no progress. */
  lemma TransferRefused(h: Checksum, retries: nat, wrq: seq<byte>, f: seq<byte>, net: Net, p: Phase)
    requires WrqLoop(retries, wrq, Net(net.sent + [wrq], net.replies)) == p && !p.Acked?
    ensures Transfer(h, retries, wrq, f, net) == Run(false, p.net, [])
  {
  }

  // ---------------------------------------------------------------------------
  // What `upload_file` sends.
  // ---------------------------------------------------------------------------

  /** `j` copies of one datagram. */
  function Repeat(p: seq<byte>, j: nat): (r: seq<seq<byte>>)
    ensures |r| == j && forall i :: 0 <= i < j ==> r[i] == p
  {
    seq(j, _ => p)
  }

  /** The first `n` waits for ACK `expected` all fail without an exception. */
  predicate Misses(replies: seq<Reply>, n: nat, expected: nat)
    decreases n
  {
    n == 0 || (WaitFor(replies, expected).0 == NotMatched && Misses(WaitFor(replies, expected).1, n - 1, expected))
  }

  /** The WRQ phase only ever re-sends the WRQ, at most once per wait, and
    * always after each failed wait. */
  lemma {:induction false} WrqLoopSends(n: nat, wrq: seq<byte>, net: Net)
    ensures var p := WrqLoop(n, wrq, net);
            |net.sent| <= |p.net.sent| <= |net.sent| + n
            && p.net.sent == net.sent + Repeat(wrq, |p.net.sent| - |net.sent|)
            && (p.Exhausted? ==> |p.net.sent| == |net.sent| + n)
    decreases n
  {
    if n == 0 {
      assert net.sent + Repeat(wrq, 0) == net.sent;
    } else {
      var (r, rest) := WaitFor(net.replies, 0);
      if r == NotMatched {
        var net' := Net(net.sent + [wrq], rest);
        WrqLoopSends(n - 1, wrq, net');
        var j := |WrqLoop(n - 1, wrq, net').net.sent| - |net'.sent|;
        assert net'.sent + Repeat(wrq, j) == net.sent + Repeat(wrq, j + 1);
      } else {
        assert net.sent + Repeat(wrq, 0) == net.sent;
      }
    }
  }

  /** The WRQ phase runs out exactly when all its waits fail. */
  lemma {:induction false} WrqLoopExhausted(n: nat, wrq: seq<byte>, net: Net)
    ensures WrqLoop(n, wrq, net).Exhausted? <==> Misses(net.replies, n, 0)
    decreases n
  {
    if n > 0 {
      var (r, rest) := WaitFor(net.replies, 0);
      if r == NotMatched {
        WrqLoopExhausted(n - 1, wrq, Net(net.sent + [wrq], rest));
      }
    }
  }

  /** Block `k` is sent only as identical copies of its one DATA packet, at
    * most `n` of them, at least one before an ACK and all `n` on exhaustion;
    * a block number beyond 16 bits sends nothing. */
  lemma {:induction false} BlockLoopSends(n: nat, k: nat, data: seq<byte>, net: Net)
    ensures var p := BlockLoop(n, k, data, net);
            |net.sent| <= |p.net.sent| <= |net.sent| + n
            && (k > 0xFFFF ==> p.net.sent == net.sent && (n > 0 ==> p.Raised?))
            && (k <= 0xFFFF ==> p.net.sent == net.sent + Repeat(DataPacket(k, data), |p.net.sent| - |net.sent|))
            && (p.Acked? ==> |p.net.sent| > |net.sent|)
            && (p.Exhausted? ==> |p.net.sent| == |net.sent| + n)
    decreases n
  {
    if n == 0 || k > 0xFFFF {
      assert net.sent + Repeat([], 0) == net.sent;
    } else {
      var (r, rest) := WaitFor(net.replies, k);
      var net' := Net(net.sent + [DataPacket(k, data)], rest);
      if r == NotMatched {
        BlockLoopSends(n - 1, k, data, net');
        var j := |BlockLoop(n - 1, k, data, net').net.sent| - |net'.sent|;
        assert net'.sent + Repeat(DataPacket(k, data), j) == net.sent + Repeat(DataPacket(k, data), j + 1);
      } else {
        assert net'.sent == net.sent + Repeat(DataPacket(k, data), 1);
      }
    }
  }

  /** A block's retry loop runs out exactly when all its waits fail. */
  lemma {:induction false} BlockLoopExhausted(n: nat, k: nat, data: seq<byte>, net: Net)
    requires k <= 0xFFFF
    ensures BlockLoop(n, k, data, net).Exhausted? <==> Misses(net.replies, n, k)
    decreases n
  {
    if n > 0 {
      var (r, rest) := WaitFor(net.replies, k);
      if r == NotMatched {
        BlockLoopExhausted(n - 1, k, data, Net(net.sent + [DataPacket(k, data)], rest));
      }
    }
  }

  /** A reply too long for the 516-byte buffer, even one whose first four
    * bytes are the expected ACK, makes `recvfrom` raise during the block's
    * first wait: `upload_file` fails after sending that block once, with no
    * further progress call. */
  lemma OversizedReplyFails(h: Checksum, retries: nat, rest: seq<byte>, k: nat, total: nat, crc: u32,
                            net: Net, progress: seq<(nat, nat)>)
    requires rest != [] && retries >= 1 && k <= 0xFFFF
    requires net.replies != [] && net.replies[0].Datagram? && |net.replies[0].bytes| > MaxPacket
    ensures var run := DataLoop(h, retries, rest, k, total, crc, net, progress);
            !run.ok && run.progress == progress
            && run.net == Net(net.sent + [DataPacket(k, Chunk(rest))], net.replies[1..])
  {
  }

  /** The datagrams with each run of retransmissions reduced to one copy. */
  function Collapse(s: seq<seq<byte>>): seq<seq<byte>>
    decreases |s|
  {
    if |s| <= 1 then s
    else if s[0] == s[1] then Collapse(s[1..])
    else [s[0]] + Collapse(s[1..])
  }

  lemma {:induction false} CollapseHead(s: seq<seq<byte>>)
    requires s != []
    ensures Collapse(s) != [] && Collapse(s)[0] == s[0]
    decreases |s|
  {
    if |s| > 1 && s[0] == s[1] {
      CollapseHead(s[1..]);
    }
  }

  /** A run of copies of `p` collapses to one copy when what follows differs. */
  lemma {:induction false} CollapseRepeat(p: seq<byte>, j: nat, t: seq<seq<byte>>)
    requires j >= 1 && (t == [] || t[0] != p)
    ensures Collapse(Repeat(p, j) + t) == [p] + Collapse(t)
    decreases j
  {
    var s := Repeat(p, j) + t;
    if j == 1 {
      assert s == [p] + t;
      if t != [] {
        assert s[1..] == t;
      }
    } else {
      assert s[1..] == Repeat(p, j - 1) + t;
      CollapseRepeat(p, j - 1, t);
    }
  }

  /** What a run of retransmissions `Repeat(p, j)` followed by `later` adds
    * to the collapsed trace: one copy of `p` in front. */
  lemma CollapseRun(p: seq<byte>, j: nat, later: seq<seq<byte>>, blocks: seq<seq<byte>>)
    requires j >= 1 && (later == [] || later[0] != p)
    ensures var x := Repeat(p, j) + later;
            (later != [] && Collapse(later) == blocks + [later[|later| - 1]] ==>
               Collapse(x) == [p] + blocks + [x[|x| - 1]])
            && (Collapse(later) <= blocks ==> Collapse(x) <= [p] + blocks)
  {
    CollapseRepeat(p, j, later);
    var x := Repeat(p, j) + later;
    if later != [] {
      assert x[|x| - 1] == later[|later| - 1];
    }
  }

  /** A trace that extends `a + Repeat(p, j)` adds `Repeat(p, j)` to `a` and
    * then the rest. */
  lemma SplitAdded(a: seq<seq<byte>>, p: seq<byte>, j: nat, b: seq<seq<byte>>, c: seq<seq<byte>>)
    requires b == a + Repeat(p, j) && b <= c
    ensures a <= c && c[|a|..] == Repeat(p, j) + c[|b|..]
  {
  }

  /** The successive `f.read(512)` results on `rest`. */
  function Chunks(rest: seq<byte>): seq<seq<byte>>
    decreases |rest|
  {
    if rest == [] then [] else [Chunk(rest)] + Chunks(rest[|Chunk(rest)|..])
  }

  /** The concatenation of a sequence of byte strings. */
  function Concat(cs: seq<seq<byte>>): seq<byte>
    decreases |cs|
  {
    if cs == [] then [] else cs[0] + Concat(cs[1..])
  }

  /** Reading 512 bytes at a time splits the file into ceil(N/512) chunks,
    * all full except possibly the last, none empty, which together are
    * the file: no zero-length final block even when N is a multiple of 512. */
  lemma {:induction false} ChunksOfFile(rest: seq<byte>)
    ensures var cs := Chunks(rest);
            |cs| == TotalBlocks(|rest|) && Concat(cs) == rest
            && (forall i :: 0 <= i < |cs| ==> 0 < |cs[i]| <= BlockSize)
            && (forall i :: 0 <= i < |cs| - 1 ==> |cs[i]| == BlockSize)
    decreases |rest|
  {
    if rest != [] {
      var data := Chunk(rest);
      var rest' := rest[|data|..];
      ChunksOfFile(rest');
      assert data + rest' == rest;
      var cs := Chunks(rest);
      assert cs[1..] == Chunks(rest');
      assert |rest| <= BlockSize ==> rest' == [];
    }
  }

  /** One DATA packet per chunk, numbered from `k`, as far as block numbers
    * fit in 16 bits. */
  function BlockPackets(rest: seq<byte>, k: nat): seq<seq<byte>>
    decreases |rest|
  {
    if rest == [] || k > 0xFFFF then []
    else [DataPacket(k, Chunk(rest))] + BlockPackets(rest[|Chunk(rest)|..], k + 1)
  }

  /** Packet `i` is block `k + i` carrying chunk `i`. */
  lemma {:induction false} BlockPacketsShape(rest: seq<byte>, k: nat)
    requires k <= 0x1_0000
    ensures var bp, cs := BlockPackets(rest, k), Chunks(rest);
            |bp| == (if |cs| < 0x1_0000 - k then |cs| else 0x1_0000 - k)
            && forall i :: 0 <= i < |bp| ==> bp[i] == DataPacket(k + i, cs[i])
    decreases |rest|
  {
    if rest != [] && k <= 0xFFFF {
      var rest' := rest[|Chunk(rest)|..];
      BlockPacketsShape(rest', k + 1);
      var bp, cs := BlockPackets(rest, k), Chunks(rest);
      assert bp[1..] == BlockPackets(rest', k + 1) && cs[1..] == Chunks(rest');
      forall i | 1 <= i < |bp|
        ensures bp[i] == DataPacket(k + i, cs[i])
      {
        assert bp[i] == bp[1..][i - 1] && cs[i] == cs[1..][i - 1];
      }
    }
  }

  /** The data phase only appends datagrams, the first of which is block
    * `k` or the trailer. */
  lemma {:induction false} DataLoopSent(h: Checksum, retries: nat, rest: seq<byte>, k: nat, total: nat,
                                        crc: u32, net: Net, progress: seq<(nat, nat)>)
    ensures var run := DataLoop(h, retries, rest, k, total, crc, net, progress);
            net.sent <= run.net.sent
            && (|run.net.sent| > |net.sent| ==>
                  var first := run.net.sent[|net.sent|];
                  |first| >= 4 && (Opcode(first) == OpCrc || (Opcode(first) == OpData && BlockField(first) == k)))
    decreases |rest|
  {
    if rest == [] {
      CrcRoundTrip(crc);
    } else {
      var data := Chunk(rest);
      BlockLoopSends(retries, k, data, net);
      if k <= 0xFFFF {
        DataRoundTrip(k, data);
      }
      match BlockLoop(retries, k, data, net)
      case Acked(net') =>
        DataLoopSent(h, retries, rest[|data|..], k + 1, total, h(crc, data), net', progress + [(k, total)]);
        assert net'.sent[|net.sent|] == DataPacket(k, data);
      case Exhausted(net') =>
        if |net'.sent| > |net.sent| {
          assert net'.sent[|net.sent|] == DataPacket(k, data);
        }
      case Raised(net') =>
        if |net'.sent| > |net.sent| {
          assert net'.sent[|net.sent|] == DataPacket(k, data);
        }
    }
  }

  /** The data phase's new datagrams: each run of retransmissions of one
    * block collapses to that block's packet, blocks in order from `k`; on
    * success they end with one trailer, on failure they stop at the block
    * that failed, so nothing after it, and no trailer, is ever sent. */
  lemma {:induction false} DataLoopTrace(h: Checksum, retries: nat, rest: seq<byte>, k: nat, total: nat,
                                         crc: u32, net: Net, progress: seq<(nat, nat)>)
    ensures var run := DataLoop(h, retries, rest, k, total, crc, net, progress);
            net.sent <= run.net.sent
            && var added := run.net.sent[|net.sent|..];
               (run.ok ==> added != [] && Collapse(added) == BlockPackets(rest, k) + [added[|added| - 1]])
               && (!run.ok ==> Collapse(added) <= BlockPackets(rest, k))
    decreases |rest|, 1
  {
    var run := DataLoop(h, retries, rest, k, total, crc, net, progress);
    DataLoopSent(h, retries, rest, k, total, crc, net, progress);
    var added := run.net.sent[|net.sent|..];
    if rest == [] {
      assert added == [CrcPacket(crc)];
    } else {
      var data := Chunk(rest);
      var rest' := rest[|data|..];
      var p := BlockLoop(retries, k, data, net);
      BlockLoopSends(retries, k, data, net);
      var j := |p.net.sent| - |net.sent|;
      if k > 0xFFFF {
        assert added == [];
      } else {
        var pk := DataPacket(k, data);
        assert BlockPackets(rest, k) == [pk] + BlockPackets(rest', k + 1);
        if p.Acked? {
          AckedBlock(h, retries, rest, k, total, crc, net, progress, p.net);
        } else {
          assert added == Repeat(pk, j) + [];
          if j > 0 {
            CollapseRepeat(pk, j, []);
          }
        }
      }
    }
  }

  /** The inductive step of `DataLoopTrace` for an acknowledged block. */
  lemma {:induction false} AckedBlock(h: Checksum, retries: nat, rest: seq<byte>, k: nat, total: nat,
                                      crc: u32, net: Net, progress: seq<(nat, nat)>, net': Net)
    requires rest != [] && k <= 0xFFFF
    requires BlockLoop(retries, k, Chunk(rest), net) == Acked(net')
    requires |net'.sent| > |net.sent|
    requires net'.sent == net.sent + Repeat(DataPacket(k, Chunk(rest)), |net'.sent| - |net.sent|)
    ensures var run := DataLoop(h, retries, rest, k, total, crc, net, progress);
            net.sent <= run.net.sent
            && var added := run.net.sent[|net.sent|..];
               (run.ok ==> added != [] && Collapse(added) == BlockPackets(rest, k) + [added[|added| - 1]])
               && (!run.ok ==> Collapse(added) <= BlockPackets(rest, k))
    decreases |rest|, 0
  {
    var data := Chunk(rest);
    var rest' := rest[|data|..];
    var pk := DataPacket(k, data);
    var run := DataLoop(h, retries, rest', k + 1, total, h(crc, data), net', progress + [(k, total)]);
    assert run == DataLoop(h, retries, rest, k, total, crc, net, progress);
    DataLoopTrace(h, retries, rest', k + 1, total, h(crc, data), net', progress + [(k, total)]);
    DataLoopSent(h, retries, rest', k + 1, total, h(crc, data), net', progress + [(k, total)]);
    var j := |net'.sent| - |net.sent|;
    SplitAdded(net.sent, pk, j, net'.sent, run.net.sent);
    var later := run.net.sent[|net'.sent|..];
    if later != [] {
      DataRoundTrip(k, data);
      assert later[0] == run.net.sent[|net'.sent|];
    }
    CollapseRun(pk, j, later, BlockPackets(rest', k + 1));
    assert BlockPackets(rest, k) == [pk] + BlockPackets(rest', k + 1);
  }

  /** Folding the checksum once per block, before its retries, leaves in the
    * trailer the checksum of all of `rest`, however many retransmissions
    * there were. */
  lemma {:induction false} DataLoopTrailer(h: Checksum, retries: nat, rest: seq<byte>, k: nat, total: nat,
                                           crc: u32, net: Net, progress: seq<(nat, nat)>)
    requires Incremental(h)
    ensures var run := DataLoop(h, retries, rest, k, total, crc, net, progress);
            run.ok ==> run.net.sent != [] && run.net.sent[|run.net.sent| - 1] == CrcPacket(h(crc, rest))
    decreases |rest|
  {
    if rest != [] {
      var data := Chunk(rest);
      var rest' := rest[|data|..];
      match BlockLoop(retries, k, data, net)
      case Acked(net') =>
        DataLoopTrailer(h, retries, rest', k + 1, total, h(crc, data), net', progress + [(k, total)]);
        assert data + rest' == rest;
        assert h(h(crc, data), rest') == h(crc, data + rest');
      case Exhausted(_) =>
      case Raised(_) =>
    }
  }

  /** The progress calls `(k, total), (k + 1, total), ...`. */
  function Calls(k: nat, m: nat, total: nat): (r: seq<(nat, nat)>)
    ensures |r| == m
  {
    seq(m, i => (k + i, total))
  }

  lemma ChunkCount(rest: seq<byte>)
    requires rest != []
    ensures TotalBlocks(|rest|) == 1 + TotalBlocks(|rest| - |Chunk(rest)|)
  {
  }

  /** One progress call per acknowledged block, in block order, at most one
    * per chunk; on success exactly one per chunk, all numbered in 16 bits. */
  lemma {:induction false} DataLoopProgress(h: Checksum, retries: nat, rest: seq<byte>, k: nat, total: nat,
                                            crc: u32, net: Net, progress: seq<(nat, nat)>)
    ensures var run := DataLoop(h, retries, rest, k, total, crc, net, progress);
            var m := |run.progress| - |progress|;
            0 <= m <= TotalBlocks(|rest|)
            && run.progress == progress + Calls(k, m, total)
            && (run.ok ==> m == TotalBlocks(|rest|) && (m == 0 || k + m <= 0x1_0000))
    decreases |rest|
  {
    var run := DataLoop(h, retries, rest, k, total, crc, net, progress);
    if rest == [] {
      assert progress + Calls(k, 0, total) == progress;
    } else {
      var data := Chunk(rest);
      var rest' := rest[|data|..];
      ChunkCount(rest);
      match BlockLoop(retries, k, data, net)
      case Acked(net') =>
        var prog' := progress + [(k, total)];
        DataLoopProgress(h, retries, rest', k + 1, total, h(crc, data), net', prog');
        var m' := |run.progress| - |prog'|;
        assert [(k, total)] + Calls(k + 1, m', total) == Calls(k, m' + 1, total);
        assert run.ok && m' == 0 ==> k <= 0xFFFF;
      case Exhausted(_) =>
        assert progress + Calls(k, 0, total) == progress;
      case Raised(_) =>
        assert progress + Calls(k, 0, total) == progress;
    }
  }

  /** The transfer after a write request `wrq`: the WRQ and its
    * retransmissions, then the blocks of the file in order and, on success
    * only, the trailer with the checksum of the whole file. */
  lemma TransferTrace(h: Checksum, retries: nat, wrq: seq<byte>, f: seq<byte>, net: Net)
    requires Incremental(h)
    requires |wrq| >= 2 && Opcode(wrq) == OpWrq
    ensures var run := Transfer(h, retries, wrq, f, net);
            net.sent <= run.net.sent
            && var added := run.net.sent[|net.sent|..];
               (run.ok ==> Collapse(added) == [wrq] + BlockPackets(f, 1) + [CrcPacket(h(0, f))])
               && (!run.ok ==> Collapse(added) <= [wrq] + BlockPackets(f, 1))
  {
    var net0 := Net(net.sent + [wrq], net.replies);
    var p := WrqLoop(retries, wrq, net0);
    WrqLoopSends(retries, wrq, net0);
    var j := |p.net.sent| - |net0.sent|;
    assert p.net.sent == net.sent + Repeat(wrq, j + 1) by {
      assert net0.sent + Repeat(wrq, j) == net.sent + Repeat(wrq, j + 1);
    }
    if p.Acked? {
      TransferAckedTrace(h, retries, wrq, f, net, p.net, j + 1);
    } else {
      TransferRefused(h, retries, wrq, f, net, p);
      var run := Transfer(h, retries, wrq, f, net);
      assert run.net.sent[|net.sent|..] == Repeat(wrq, j + 1) + [];
      CollapseRepeat(wrq, j + 1, []);
    }
  }

  /** `TransferTrace` once ACK 0 has arrived after `j` copies of the WRQ. */
  lemma TransferAckedTrace(h: Checksum, retries: nat, wrq: seq<byte>, f: seq<byte>, net: Net, net1: Net, j: nat)
    requires Incremental(h)
    requires |wrq| >= 2 && Opcode(wrq) == OpWrq
    requires WrqLoop(retries, wrq, Net(net.sent + [wrq], net.replies)) == Acked(net1)
    requires j >= 1 && net1.sent == net.sent + Repeat(wrq, j)
    ensures var run := Transfer(h, retries, wrq, f, net);
            net.sent <= run.net.sent
            && var added := run.net.sent[|net.sent|..];
               (run.ok ==> Collapse(added) == [wrq] + BlockPackets(f, 1) + [CrcPacket(h(0, f))])
               && (!run.ok ==> Collapse(added) <= [wrq] + BlockPackets(f, 1))
  {
    TransferAcked(h, retries, wrq, f, net, net1);
    var run := DataLoop(h, retries, f, 1, TotalBlocks(|f|), 0, net1, []);
    DataLoopTrace(h, retries, f, 1, TotalBlocks(|f|), 0, net1, []);
    DataLoopSent(h, retries, f, 1, TotalBlocks(|f|), 0, net1, []);
    DataLoopTrailer(h, retries, f, 1, TotalBlocks(|f|), 0, net1, []);
    SplitAdded(net.sent, wrq, j, net1.sent, run.net.sent);
    var later := run.net.sent[|net1.sent|..];
    if later != [] {
      assert later[0] == run.net.sent[|net1.sent|];
    }
    CollapseRun(wrq, j, later, BlockPackets(f, 1));
  }

  /** `upload_file` on a readable file sends its WRQ (re-sent on each missed
    * ACK 0), then the blocks of the file in order and, on success only, the
    * trailer with the checksum of the whole file; with `Crc.Crc32` for
    * `zlib.crc32` that is the CRC-32 of the file (`Crc32Incremental`,
    * `Crc.Crc32IsIso3309`). */
  lemma UploadTrace(h: Checksum, retries: nat, path: string, f: seq<byte>, net: Net)
    requires Incremental(h)
    ensures var run := Upload(h, retries, path, Some(f), net);
            var wrq := WrqPacket(Basename(path), Octet, []);
            net.sent <= run.net.sent
            && var added := run.net.sent[|net.sent|..];
               (run.ok ==> Collapse(added) == [wrq] + BlockPackets(f, 1) + [CrcPacket(h(0, f))])
               && (!run.ok ==> Collapse(added) <= [wrq] + BlockPackets(f, 1))
  {
    WrqOpcode(Basename(path), Octet, []);
    TransferTrace(h, retries, WrqPacket(Basename(path), Octet, []), f, net);
  }

  /** More than 65535 full blocks of data need a block number beyond 16 bits. */
  lemma TotalBlocksBound(size: nat)
    requires size > 0xFFFF * BlockSize
    ensures TotalBlocks(size) > 0xFFFF
  {
    var q := (size + BlockSize - 1) / BlockSize;
    assert size + BlockSize - 1 == q * BlockSize + (size + BlockSize - 1) % BlockSize;
  }

  lemma TransferProgress(h: Checksum, retries: nat, wrq: seq<byte>, f: seq<byte>, net: Net)
    ensures var run := Transfer(h, retries, wrq, f, net);
            var m := |run.progress|;
            m <= TotalBlocks(|f|) && run.progress == Calls(1, m, TotalBlocks(|f|))
            && (run.ok ==> m == TotalBlocks(|f|) && |f| <= 0xFFFF * BlockSize)
  {
    var p := WrqLoop(retries, wrq, Net(net.sent + [wrq], net.replies));
    if |f| > 0xFFFF * BlockSize {
      TotalBlocksBound(|f|);
    }
    if p.Acked? {
      TransferAcked(h, retries, wrq, f, net, p.net);
      DataLoopProgress(h, retries, f, 1, TotalBlocks(|f|), 0, p.net, []);
    } else {
      TransferRefused(h, retries, wrq, f, net, p);
    }
  }

  /** The progress callback sees `(1, T), (2, T), ...` with `T` the block
    * count `(N + 511) // 512`, at most `T` calls and exactly `T` on success;
    * a file of more than 65535 full blocks always fails. */
  lemma UploadProgress(h: Checksum, retries: nat, path: string, f: seq<byte>, net: Net)
    ensures var run := Upload(h, retries, path, Some(f), net);
            var m := |run.progress|;
            m <= TotalBlocks(|f|) && run.progress == Calls(1, m, TotalBlocks(|f|))
            && (run.ok ==> m == TotalBlocks(|f|) && |f| <= 0xFFFF * BlockSize)
  {
    TransferProgress(h, retries, WrqPacket(Basename(path), Octet, []), f, net);
  }

  /** With no retries the WRQ is sent once and the upload fails. */
  lemma UploadNoRetries(h: Checksum, path: string, file: Option<seq<byte>>, net: Net)
    ensures var run := Upload(h, 0, path, file, net);
            !run.ok && run.progress == []
            && (file.Some? ==> run.net.sent == net.sent + [WrqPacket(Basename(path), Octet, [])])
  {
  }

  lemma TransferRefusedTrace(h: Checksum, retries: nat, wrq: seq<byte>, f: seq<byte>, net: Net)
    requires Misses(net.replies, retries, 0)
    ensures var run := Transfer(h, retries, wrq, f, net);
            !run.ok && run.progress == [] && run.net.sent == net.sent + Repeat(wrq, retries + 1)
  {
    var net0 := Net(net.sent + [wrq], net.replies);
    var p := WrqLoop(retries, wrq, net0);
    WrqLoopExhausted(retries, wrq, net0);
    WrqLoopSends(retries, wrq, net0);
    TransferRefused(h, retries, wrq, f, net, p);
    assert net0.sent + Repeat(wrq, retries) == net.sent + Repeat(wrq, retries + 1);
  }

  /** When every wait for ACK 0 fails the upload fails with no progress, having
    * sent the WRQ `retries + 1` times and nothing else: no DATA, no trailer. */
  lemma UploadRefusedTrace(h: Checksum, retries: nat, path: string, f: seq<byte>, net: Net)
    requires Misses(net.replies, retries, 0)
    ensures var run := Upload(h, retries, path, Some(f), net);
            !run.ok && run.progress == []
            && run.net.sent == net.sent + Repeat(WrqPacket(Basename(path), Octet, []), retries + 1)
  {
    TransferRefusedTrace(h, retries, WrqPacket(Basename(path), Octet, []), f, net);
  }

  // ---------------------------------------------------------------------------
  // The client.
  // ---------------------------------------------------------------------------

  class TftpClient {
    const retries: nat
    /** The checksum `upload_file` calls as `zlib.crc32`; the methods are
      * proved for whatever function this is, and it is set to `Crc.Crc32`. */
    const checksum: Checksum
    /** The calls made to `progress_callback`, in order. */
    var progress: seq<(nat, nat)>

    constructor (retries: nat)
      ensures this.retries == retries && checksum == Crc.Crc32 && progress == []
    {
      this.retries := retries;
      checksum := Crc.Crc32;
      progress := [];
    }

    method SendWrq(sock: UdpSocket, filename: string, mode: string, options: seq<(string, string)>)
      modifies sock
      ensures sock.sent == old(sock.sent) + [WrqPacket(filename, mode, options)]
      ensures sock.replies == old(sock.replies)
    {
      var packet := [0, 2] + Utf8(filename) + [0] + Utf8(mode) + [0];
      assert packet == WrqPacket(filename, mode, options[..0]);
      var i := 0;
      while i < |options|
        invariant 0 <= i <= |options|
        invariant packet == WrqPacket(filename, mode, options[..i])
        modifies {}
      {
        var (k, v) := options[i];
        WrqPacketSnoc(filename, mode, options, i);
        packet := packet + Utf8(k) + [0] + Utf8(v) + [0];
        i := i + 1;
      }
      assert options[..|options|] == options;
      sock.SendTo(packet);
    }

    /** Raises (`raised`) before sending when `to_bytes(2, 'big')` overflows. */
    method SendDataBlock(sock: UdpSocket, block: nat, data: seq<byte>) returns (raised: bool)
      modifies sock
      ensures raised <==> block > 0xFFFF
      ensures raised ==> sock.sent == old(sock.sent)
      ensures !raised ==> sock.sent == old(sock.sent) + [DataPacket(block, data)]
      ensures sock.replies == old(sock.replies)
    {
      if block > 0xFFFF {
        return true;
      }
      var header := [0, 3] + Be16(block);
      sock.SendTo(header + data);
      return false;
    }

    method ReceiveAck(sock: UdpSocket, expected: nat) returns (r: AckResult)
      modifies sock
      ensures (r, sock.replies) == WaitFor(old(sock.replies), expected)
      ensures sock.sent == old(sock.sent)
    {
      var reply := sock.RecvFrom();
      match reply
      case Timeout => r := NotMatched;
      case SocketError => r := SocketRaised;
      case Datagram(data) =>
        if |data| >= 4 {
          var opcode := Be16Value(data[0], data[1]);
          var block := Be16Value(data[2], data[3]);
          if opcode == 4 && block == expected {
            return Matched;
          }
        }
        r := NotMatched;
    }

    /** Lines 62-70: at most `retries` waits for ACK 0, re-sending the WRQ
      * after each miss; the phase's ending and the socket it leaves. */
    method AwaitWrqAck(sock: UdpSocket, filename: string) returns (p: Phase)
      modifies sock
      ensures p == WrqLoop(retries, WrqPacket(filename, Octet, []), Net(old(sock.sent), old(sock.replies)))
      ensures p.net == Net(sock.sent, sock.replies)
    {
      ghost var wrq := WrqPacket(filename, Octet, []);
      ghost var net0 := Net(sock.sent, sock.replies);
      var i := 0;
      while i < retries
        invariant 0 <= i <= retries
        invariant WrqLoop(retries - i, wrq, Net(sock.sent, sock.replies)) == WrqLoop(retries, wrq, net0)
      {
        var r := ReceiveAck(sock, 0);
        if r == SocketRaised {
          return Raised(Net(sock.sent, sock.replies));
        }
        if r == Matched {
          return Acked(Net(sock.sent, sock.replies));
        }
        SendWrq(sock, filename, Octet, []);
        i := i + 1;
      }
      return Exhausted(Net(sock.sent, sock.replies));
    }

    /** Lines 82-91: send block `block` at most `retries` times until it is
      * acknowledged. */
    method SendBlock(sock: UdpSocket, block: nat, data: seq<byte>) returns (p: Phase)
      modifies sock
      ensures p == BlockLoop(retries, block, data, Net(old(sock.sent), old(sock.replies)))
      ensures p.net == Net(sock.sent, sock.replies)
    {
      ghost var start := Net(sock.sent, sock.replies);
      var attempt := 1;
      while attempt <= retries
        invariant 1 <= attempt <= retries + 1
        invariant BlockLoop(retries + 1 - attempt, block, data, Net(sock.sent, sock.replies))
               == BlockLoop(retries, block, data, start)
      {
        var raised := SendDataBlock(sock, block, data);
        if raised {
          return Raised(Net(sock.sent, sock.replies));
        }
        var r := ReceiveAck(sock, block);
        if r == SocketRaised {
          return Raised(Net(sock.sent, sock.replies));
        }
        if r == Matched {
          return Acked(Net(sock.sent, sock.replies));
        }
        attempt := attempt + 1;
      }
      return Exhausted(Net(sock.sent, sock.replies));
    }

    /** Lines 72-100: the blocks of `f` in order, each folded into the
      * running checksum before it is sent, then the trailer. */
    method SendFile(sock: UdpSocket, f: seq<byte>) returns (ok: bool)
      modifies this, sock
      ensures var run := DataLoop(checksum, retries, f, 1, TotalBlocks(|f|), 0,
                                  Net(old(sock.sent), old(sock.replies)), []);
              ok == run.ok && sock.sent == run.net.sent && sock.replies == run.net.replies
              && progress == old(progress) + run.progress
    {
      ghost var target := DataLoop(checksum, retries, f, 1, TotalBlocks(|f|), 0, Net(sock.sent, sock.replies), []);
      var rest := f;
      var block: nat := 1;
      var total: nat := (|f| + 511) / 512;
      var crc: u32 := 0;
      ghost var calls: seq<(nat, nat)> := [];
      while true
        invariant progress == old(progress) + calls
        invariant DataLoop(checksum, retries, rest, block, total, crc, Net(sock.sent, sock.replies), calls) == target
        decreases |rest|
      {
        var data := Chunk(rest);
        if data == [] {
          break;
        }
        crc := checksum(crc, data);
        rest := rest[|data|..];
        var blockPhase := SendBlock(sock, block, data);
        if !blockPhase.Acked? {
          return false;
        }
        progress := progress + [(block, total)];
        calls := calls + [(block, total)];
        block := block + 1;
      }
      sock.SendTo(CrcPacket(crc));
      return true;
    }

    method UploadFile(sock: UdpSocket, path: string, file: Option<seq<byte>>) returns (ok: bool)
      modifies this, sock
      ensures var run := Upload(checksum, retries, path, file, Net(old(sock.sent), old(sock.replies)));
              ok == run.ok && sock.sent == run.net.sent && sock.replies == run.net.replies
              && progress == old(progress) + run.progress
    {
      if file.None? {
        return false;
      }
      ghost var net0 := Net(sock.sent, sock.replies);
      var filename := Basename(path);
      SendWrq(sock, filename, Octet, []);
      var wrqPhase := AwaitWrqAck(sock, filename);
      ghost var wrq := WrqPacket(filename, Octet, []);
      if !wrqPhase.Acked? {
        TransferRefused(checksum, retries, wrq, file.value, net0, wrqPhase);
        return false;
      }
      TransferAcked(checksum, retries, wrq, file.value, net0, wrqPhase.net);
      ok := SendFile(sock, file.value);
    }
  }
}
