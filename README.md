# ARINC 615A data loader: a Dafny model

This project models the logic of a small avionics-style data loader. A
ground-side loader (Python) drives a target (C) in two ways. One is an
ARINC 615A-style control channel of JSON commands over TCP. The other is a
TFTP write transfer (the write-request subset of RFC 1350, section 5, with
RFC 2347-style options) that ends with a non-standard CRC-32 trailer of
opcode 0x10. The model covers six components:

- `crc32.dfy` (module `Crc`): the table-driven CRC-32 of `crc32.c`. It has
  the static table built once, the per-byte loop, and the proofs that the
  table step equals eight bit-at-a-time steps, that `crc32(0, ·)` is the
  CRC-32 of ISO/IEC 3309 (the frame check sequence of IEEE 802.3, clause
  3.2.9), and the incremental composition law.
- `tftp_packets.dfy` (module `TftpPackets`): the WRQ, DATA, ACK and CRC
  trailer datagrams. Each builder has its reader, with round-trip lemmas.
- `tftp_client.dfy` (module `TftpClient`): `TftpClient.send_wrq`,
  `send_data_block`, `receive_ack` and `upload_file`. The methods work on a
  scripted UDP socket object and are proved equal to a pure specification
  `Upload`. The lemmas on `Upload` describe what is sent: the blocks, the
  retransmissions, the trailer's checksum and the progress calls.
- `tftp_server.dfy` (module `LoaderSimServer`): the receive loop of the
  loader simulator as a transition `Next` over IDLE / RECEIVING / COMPLETED,
  the expected block, the running CRC and the output file, together with a
  class whose `Step` performs it in place.
- `interop.dfy` (module `Interop`): the client against that server. A clean
  upload delivered once each ends with the file written exactly and the CRC
  check passed. When an ACK is lost, the server ignores every retransmission
  of a block it has accepted, so the client exhausts its retries.
- `flash_driver.dfy` (module `FlashDriver`): the open / write / close
  accumulator of bytes, CRC and byte count.
- `control_server.dfy` (module `ControlServer`): `handle_json_command` with
  first-match dispatch on `strstr`, the five globals, structured replies, and
  the two `sscanf` extractions modelled by what their formats can match.
- `loader.dfy` (module `Arinc615Loader`): `send_command` and its wrappers,
  the fail-fast `upload_one_component`, and the loop of
  `run_upload_from_xml` over an already parsed component list. Both run on an
  oracle that logs every command and transfer.

`bytes.dfy` (module `Bytes`) holds the byte, 16- and 32-bit types, the
big-endian encoders and the UTF-8 encoding of `str.encode()`.

Three components fold bytes into a running checksum: the client
(`zlib.crc32`), the server and the flash driver (`crc32` of `crc32.c`). Each
takes the checksum as a function `Crc.Checksum`, and its constructor
installs `Crc.Crc32`. Their proofs use only `Crc.Incremental`, the empty
case plus the composition law, and `Crc.Crc32Incremental` proves it of
`Crc.Crc32`. `Crc.Crc32IsIso3309` shows that `Crc.Crc32` computes the
standard CRC-32, which is the one `zlib.crc32` computes, so one function
stands for both.

Three behaviours of the code deserve a note, because the model keeps them
as written:

- The client sends no zero-length final DATA block when the file size is a
  multiple of 512, although section 6 of RFC 1350 ends a transfer only with
  a DATA packet shorter than 512 bytes. The loader's server ends on the CRC
  trailer instead, so it does not need one.
- `upload_one_component` checks no file's existence and ignores the
  transfer's result, whereas the GUI client checks `os.path.exists` on each
  component's path first (tftp_client/gui_client.py:192).
- The SEND_LSE `sscanf` formats (tftp_server/tcp_control_server.c:54-55)
  never match the text `strstr` points at: `send_lse` sends the keys
  `"file_name"` and `"crc32"`, while one format starts with a backslash and
  the other with a quote before the key. So the stored file name and
  checksum never change.

## Model

| member | source | states |
|---|---|---|
| Bytes.Be16RoundTrip | tftp_client/tftp_client.py:36-37 | the opcode and block read back from `to_bytes(2, 'big')` are the number written |
| Bytes.Be32RoundTrip | tftp_loader_sim/tftp_server.c:69-72 | the server's big-endian read of a 4-byte field gives back the client's `to_bytes(4, 'big')` value |
| Crc.TableEntryZero | tftp_server/crc32.c:8-15 | `crc_table[0]` is zero |
| Crc.EightStepsSplit | tftp_server/crc32.c:11-13 | eight reflected shift/xor steps on a register are a table lookup on its low byte xor the register shifted right by 8 |
| Crc.TableUpdateIsBitwise | tftp_server/crc32.c:23 | one iteration of the byte loop equals eight bit-at-a-time updates with 0xEDB88320 |
| Crc.Crc32IsIso3309 | tftp_server/crc32.c:19-26 | `crc32(0, buf)` equals an independent bit-at-a-time CRC-32 preset to all ones and complemented (ISO/IEC 3309) |
| Crc.Crc32Empty | tftp_server/crc32.c:21-25 | on an empty buffer the two inversions cancel: `crc32(c, []) == c` |
| Crc.FoldAppend | tftp_server/crc32.c:22-24 | the byte loop over `a + b` is the loop over `b` started where the loop over `a` ended |
| Crc.Crc32Append | tftp_server/crc32.c:19-26 | `crc32(crc32(c, a), b) == crc32(c, a + b)` |
| Crc.Crc32Incremental | tftp_server/crc32.c:19-26 | `crc32` satisfies the empty case and the composition law for all inputs |
| Crc.Crc32Engine.constructor | tftp_server/crc32.c:5-6 | the table is 256 entries and not yet computed |
| Crc.Crc32Engine.MakeCrcTable | tftp_server/crc32.c:8-17 | every entry `n` is `n` after exactly eight steps, and the table is marked computed |
| Crc.Crc32Engine.FoldBytes | tftp_server/crc32.c:22-24 | the per-byte loop over a computed table is the fold of the table step over the buffer |
| Crc.Crc32Engine.Compute | tftp_server/crc32.c:19-26 | the result is `Crc32(crc, buf)`; the table is built only on the first call and later calls leave it untouched, so the result does not depend on the call order |
| TftpPackets.WrqPacketSnoc | tftp_client/tftp_client.py:22-23 | each loop iteration appends one option's `name 00 value 00` to the request built from the options before it |
| TftpPackets.WrqOpcode | tftp_client/tftp_client.py:21 | every write request is at least 4 bytes and starts with opcode 2 |
| TftpPackets.WrqFields | tftp_client/tftp_client.py:21-23 | a request splits back into file name, mode and the option strings in order; its first field is the name the server's `%s` reads |
| TftpPackets.DataRoundTrip | tftp_client/tftp_client.py:28-29 | a DATA packet is 4 bytes longer than its payload, and its opcode 3, block number and payload read back |
| TftpPackets.DataInjective | tftp_client/tftp_client.py:28-29 | two DATA packets are equal exactly when their block numbers and payloads are |
| TftpPackets.CrcRoundTrip | tftp_client/tftp_client.py:97-99 | the trailer is 6 bytes, has opcode 0x10 and its checksum reads back |
| TftpPackets.AckMatchesIff | tftp_client/tftp_client.py:35-38 | `receive_ack(expected)` accepts a datagram exactly when its first four bytes are the server's ACK for `expected` |
| TftpPackets.AckOfServer | tftp_server/udp_win.c:57 | the server's ACK `{0, 4, hi, lo}` for a block is accepted exactly when that block is the one expected |
| TftpClient.ReplyVerdict | tftp_client/tftp_client.py:32-45 | `receive_ack` raises on any datagram longer than 516 bytes, whatever its content (Winsock fails `recvfrom(516)` with WSAEMSGSIZE); on a datagram of at most 516 bytes it never raises and returns True exactly when the datagram is the expected ACK; a timeout gives False and a socket error propagates |
| TftpClient.OversizedReplyFails | tftp_client/tftp_client.py:82-91 | a reply of more than 516 bytes to block k ends the upload at once: block k was sent once, there is no further progress call, and the result is False (lines 107-109) |
| TftpClient.Chunk | tftp_client/tftp_client.py:77 | `f.read(512)` gives the first `min(512, remaining)` bytes of the unread part |
| TftpClient.Basename | tftp_client/tftp_client.py:57 | the file name is the longest suffix of the path without '/' and is preceded by a '/' when it is shorter than the path |
| TftpClient.TransferAcked | tftp_client/tftp_client.py:59-72 | once ACK 0 arrives, the rest of the upload is the data phase from block 1 with checksum 0 |
| TftpClient.TransferRefused | tftp_client/tftp_client.py:67-70 | a WRQ phase that ends without ACK 0 returns False with no progress call |
| TftpClient.WrqLoopSends | tftp_client/tftp_client.py:62-66 | the WRQ phase re-sends only the same WRQ, at most once per wait and exactly once per failed wait when it runs out |
| TftpClient.WrqLoopExhausted | tftp_client/tftp_client.py:62-70 | the WRQ phase runs out exactly when all `retries` waits for ACK 0 fail |
| TftpClient.BlockLoopSends | tftp_client/tftp_client.py:82-91 | block k is sent only as identical copies of its DATA packet, at most `retries` of them and all of them on exhaustion; a number beyond 16 bits raises before sending |
| TftpClient.BlockLoopExhausted | tftp_client/tftp_client.py:82-91 | a block's retry loop runs out exactly when all its waits fail |
| TftpClient.ChunksOfFile | tftp_client/tftp_client.py:74-79 | reading 512 at a time gives `(N + 511) // 512` non-empty chunks, all full but the last, which together are the file |
| TftpClient.BlockPacketsShape | tftp_client/tftp_client.py:73-94 | the `i`-th DATA packet is block `k + i` carrying chunk `i`, as far as numbers fit in 16 bits |
| TftpClient.DataLoopSent | tftp_client/tftp_client.py:76-100 | the data phase only appends datagrams, the first being block k or the trailer |
| TftpClient.DataLoopTrace | tftp_client/tftp_client.py:76-100 | with retransmission runs collapsed, the data phase sends the blocks in order and then one trailer on success; on failure it sends a prefix of the blocks and no trailer |
| TftpClient.DataLoopTrailer | tftp_client/tftp_client.py:75-100 | on success the last datagram is the trailer holding the checksum of all the file's bytes, however many retransmissions occurred |
| TftpClient.DataLoopProgress | tftp_client/tftp_client.py:74-94 | one progress call `(k, total)` per acknowledged block, k increasing by one; exactly one per chunk on success |
| TftpClient.TransferTrace | tftp_client/tftp_client.py:59-105 | after a WRQ: on success the collapsed datagrams are the WRQ, the blocks 1, 2, ... of the file and the trailer with `crc32(0, file)`; on failure a prefix of the WRQ and the blocks |
| TftpClient.UploadTrace | tftp_client/tftp_client.py:47-109 | `upload_file` sends the WRQ for the path's basename in octet mode, then the blocks in order and, on success only, the trailer with the whole file's checksum |
| TftpClient.TransferProgress | tftp_client/tftp_client.py:74-93 | the progress calls are `(1, T), (2, T), ...`, at most `T` of them; on success exactly `T`, and the file fits in 65535 blocks |
| TftpClient.UploadProgress | tftp_client/tftp_client.py:74-93 | with `T = (N + 511) // 512`: at most `T` calls in block order, exactly `T` on success; a file of more than 65535 full blocks always fails |
| TftpClient.UploadNoRetries | tftp_client/tftp_client.py:60-70 | with `retries == 0` the WRQ is sent once and the upload returns False |
| TftpClient.UploadRefusedTrace | tftp_client/tftp_client.py:60-70 | when every wait for ACK 0 fails, the WRQ is sent `retries + 1` times and nothing else: no DATA, no trailer, no progress, False |
| TftpClient.TftpClient.constructor | tftp_client/tftp_client.py:7-14 | the retry count is kept, the checksum is CRC-32 and no progress call has been made |
| TftpClient.TftpClient.SendWrq | tftp_client/tftp_client.py:19-25 | exactly one datagram is sent: the WRQ for the name, mode and options |
| TftpClient.TftpClient.SendDataBlock | tftp_client/tftp_client.py:27-30 | sends the DATA packet for the block, or raises without sending when the number does not fit in 16 bits |
| TftpClient.TftpClient.ReceiveAck | tftp_client/tftp_client.py:32-45 | one wait consumes one reply: an ACK match, a miss (timeout or wrong datagram), or a socket exception that propagates |
| TftpClient.TftpClient.AwaitWrqAck | tftp_client/tftp_client.py:62-70 | the WRQ retry loop ends as the specification `WrqLoop` says, with the socket it describes |
| TftpClient.TftpClient.SendBlock | tftp_client/tftp_client.py:82-91 | the block retry loop ends as `BlockLoop` says, with the socket it describes |
| TftpClient.TftpClient.SendFile | tftp_client/tftp_client.py:72-105 | the data loop's result, datagrams and progress calls are those of `DataLoop` |
| TftpClient.TftpClient.UploadFile | tftp_client/tftp_client.py:47-109 | the result, datagrams and progress calls are those of `Upload` |
| LoaderSimServer.ShortDropped | tftp_loader_sim/tftp_server.c:36-37 | a datagram under 4 bytes, or too long for the buffer, changes nothing and gets no reply |
| LoaderSimServer.WrqHandling | tftp_loader_sim/tftp_server.c:42-54 | a WRQ acts only in IDLE: if `fopen` fails nothing changes and no ACK is sent; otherwise RECEIVING, block 1, CRC 0, empty file, and ACK 0 |
| LoaderSimServer.DataHandling | tftp_loader_sim/tftp_server.c:55-66 | the expected DATA block appends its payload, folds the CRC, is ACKed with its own number and advances the 16-bit expected number; any other DATA changes nothing and gets no ACK |
| LoaderSimServer.TrailerHandling | tftp_loader_sim/tftp_server.c:67-95 | the trailer in RECEIVING always ends in COMPLETED with no reply; with 6 bytes or more the check passes exactly when the big-endian value equals the running CRC, and shorter is reported invalid |
| LoaderSimServer.Ignored | tftp_loader_sim/tftp_server.c:42-95 | COMPLETED is absorbing, and opcodes other than 2, 3 and 0x10 are ignored in every state |
| LoaderSimServer.InitialInv | tftp_loader_sim/tftp_server.c:23-26 | initially the running CRC is the checksum of the (empty) output |
| LoaderSimServer.NextInv | tftp_loader_sim/tftp_server.c:50-59 | every datagram preserves `calculated_crc == crc32(0, output)` |
| LoaderSimServer.ReplayAppend | tftp_loader_sim/tftp_server.c:35-96 | the loop over two sequences of datagrams one after the other is the loop over the second continued from where the first left off, replies concatenated |
| LoaderSimServer.ReplayInv | tftp_loader_sim/tftp_server.c:35-96 | the invariant holds after any sequence of datagrams, whatever each turn's `fopen` does |
| LoaderSimServer.RetriedWrqOpens | tftp_loader_sim/tftp_server.c:42-53 | a WRQ whose `fopen` fails leaves the server in IDLE with no reply, so a retransmitted WRQ whose `fopen` succeeds starts the transfer with ACK 0 |
| LoaderSimServer.ReplayCompleted | tftp_loader_sim/tftp_server.c:35-96 | after COMPLETED, no datagram changes the state or gets a reply |
| LoaderSimServer.TftpServer.constructor | tftp_loader_sim/tftp_server.c:23-26 | IDLE, block 1, CRC 0, empty output, with `crc32` as the checksum |
| LoaderSimServer.TftpServer.Step | tftp_loader_sim/tftp_server.c:36-95 | one loop turn updates the statics and replies as the transition `Next` |
| LoaderSimServer.TftpServer.ReceiveData | tftp_loader_sim/tftp_server.c:55-66 | the DATA branch in place, as `Next` |
| LoaderSimServer.TftpServer.ReceiveTrailer | tftp_loader_sim/tftp_server.c:67-95 | the trailer branch in place, as `Next`, with no reply |
| LoaderSimServer.TftpServer.Serve | tftp_loader_sim/tftp_server.c:35-96 | the loop over a sequence of datagrams, with one `fopen` outcome per datagram, ends in the state and replies of `Replay` |
| Interop.DuplicateIgnored | tftp_loader_sim/tftp_server.c:55-66 | a retransmission of the block just accepted is ignored, with no ACK |
| Interop.DuplicatesIgnored | tftp_loader_sim/tftp_server.c:55-66 | any number of such retransmissions change nothing and get no reply |
| Interop.ServerSide | tftp_loader_sim/tftp_server.c:55-66 | `n` copies of the expected block: the payload is written once and only the first copy is ACKed |
| Interop.TimeoutsMiss | tftp_client/tftp_client.py:43-45 | waits that only time out never match |
| Interop.ClientSide | tftp_client/tftp_client.py:82-91 | with no ACK arriving the client sends block k exactly `retries` times and fails with no further progress |
| Interop.LostAck | tftp_client/tftp_client.py:82-91 | the server's ACK for block k is lost: the client sends block k `retries` times and fails; the server writes it once and ACKs only the first copy |
| Interop.AckRunAt | tftp_loader_sim/tftp_server.c:60 | reply `i` of a run of ACKs from block k acknowledges block `k + i` |
| Interop.BlockFirst | tftp_loader_sim/tftp_server.c:55-66 | a run that starts with the expected block continues from the state after writing it, with that block's ACK first |
| Interop.ChunksAcked | tftp_loader_sim/tftp_server.c:55-66 | consecutive DATA blocks from the expected one are ACKed one by one with their own numbers |
| Interop.ChunksWritten | tftp_loader_sim/tftp_server.c:55-66 | consecutive DATA blocks from the expected one append all their payloads to the file and to the running CRC, and advance the expected block by their count |
| Interop.FileBlocks | tftp_client/tftp_client.py:73-94 | the client's DATA packets for a file are consecutive from block 1 and their payloads together are the file |
| Interop.FileWritten | tftp_loader_sim/tftp_server.c:55-66 | the client's DATA packets for a file `f` leave the started server with exactly `f` written and the CRC of `f` |
| Interop.FileAcked | tftp_loader_sim/tftp_server.c:55-66 | those packets are ACKed 1, 2, ... in turn |
| Interop.WrqStarts | tftp_loader_sim/tftp_server.c:42-53 | a WRQ whose `fopen` succeeds takes the server from IDLE to RECEIVING at block 1 with ACK 0 |
| Interop.TrailerPasses | tftp_loader_sim/tftp_server.c:67-95 | a trailer carrying the running CRC completes the transfer with the check passed and no reply |
| Interop.FileThenTrailer | tftp_loader_sim/tftp_server.c:55-95 | the client's blocks of `f` and its trailer with the CRC of `f` complete the transfer with `f` written, the check passed, and ACKs 1 to N |
| Interop.Delivered | tftp_loader_sim/tftp_server.c:35-96 | what a successful upload sends (its collapsed trace, `TftpClient.TransferTrace`), delivered once each to the server in IDLE, ends in COMPLETED with the file exactly the client's file, the CRC check passed, and replies ACK 0 to ACK N then none |
| FlashDriver.Flash.constructor | tftp_loader_sim/flash_driver.c:5-7 | no file, zero CRC, zero count; the accumulator invariant holds |
| FlashDriver.Flash.OpenFile | tftp_loader_sim/flash_driver.c:9-13 | CRC and count restart at zero whether or not `fopen` succeeds |
| FlashDriver.Flash.Write | tftp_loader_sim/flash_driver.c:15-20 | with no open file nothing changes; otherwise the bytes are appended, counted and folded into the CRC, keeping `crc == crc32(0, written)` and `total == |written|` |
| FlashDriver.Flash.Close | tftp_loader_sim/flash_driver.c:22-29 | afterwards no file is open, and CRC, count and content are unchanged, so a second close or a later write does nothing |
| ControlServer.FindFrom | tftp_server/tcp_control_server.c:45 | the first occurrence at or after an index, or none at all |
| ControlServer.StrStrFirst | tftp_server/tcp_control_server.c:45 | `strstr` finds a substring exactly when it occurs, and returns its first occurrence |
| ControlServer.MatchLiteral | tftp_server/tcp_control_server.c:54-55 | a format's literal part matches exactly a text that starts with it, and the scan continues after it |
| ControlServer.SpanNotQuote | tftp_server/tcp_control_server.c:54 | `%127[^"]` takes the longest run of at most 127 characters other than '"' |
| ControlServer.DigitRun | tftp_server/tcp_control_server.c:55 | `%u` takes the longest leading run of decimal digits |
| ControlServer.FileNameNeverScanned | tftp_server/tcp_control_server.c:51-54 | the name format, which starts with a backslash, never matches the text starting at "file_name", so nothing is stored |
| ControlServer.CrcNeverScanned | tftp_server/tcp_control_server.c:52-55 | the checksum format, which starts with '"', never matches the text starting at "crc32" |
| ControlServer.QuotedFileNameNeverScanned | tftp_server/tcp_control_server.c:54 | the name format also fails on the quoted key `"file_name":"...` |
| ControlServer.InitLoadHandling | tftp_server/tcp_control_server.c:45-48 | INIT_LOAD, wherever it appears, sets session 12345 and not committed, replies OK with that session, and keeps the rest |
| ControlServer.SendLseHandling | tftp_server/tcp_control_server.c:50-61 | without both keys: ERROR and no change; with both: OK, LSE id "LSE1", and the stored name and checksum unchanged |
| ControlServer.CommitHandling | tftp_server/tcp_control_server.c:65-68 | COMMIT_LOAD commits unconditionally and reports the current session |
| ControlServer.AbortHandling | tftp_server/tcp_control_server.c:69-74 | ABORT sets session 0, not committed and an empty file name; the LSE id and the checksum are kept |
| ControlServer.QueryHandling | tftp_server/tcp_control_server.c:62-85 | VERIFY_LSE, REPORT_STATUS and GET_DEVICE_INFO change nothing and report the file name, the session/file/committed triple, or "FCC1" and "v1.0" |
| ControlServer.UnknownHandling | tftp_server/tcp_control_server.c:86-88 | a text naming no command gets ERROR "Unknown command" and changes nothing |
| ControlServer.ErrorReplies | tftp_server/tcp_control_server.c:45-88 | a reply is ERROR exactly for the two refusals, and a refusal changes nothing |
| ControlServer.NameAndCrcOnlyCleared | tftp_server/tcp_control_server.c:50-74 | no command changes the stored checksum, and the file name only stays or is cleared |
| ControlServer.CommandHandler.constructor | tftp_server/tcp_control_server.c:35-39 | the globals start at zero and empty |
| ControlServer.CommandHandler.HandleJsonCommand | tftp_server/tcp_control_server.c:41-89 | the globals and the reply are those of `Handle` |
| ControlServer.CommandHandler.HandleSendLse | tftp_server/tcp_control_server.c:50-61 | the SEND_LSE branch in place, as `SendLse` |
| Arinc615Loader.RespondNeverRaises | tftp_client/arinc615_loader.py:14-22 | `send_command` never raises: a decoded reply is returned as is, and any failure becomes a non-OK `{"status": "ERROR", "message": str(e)}` |
| Arinc615Loader.WrapperShapes | tftp_client/arinc615_loader.py:24-50 | each wrapper sends its own command name with exactly its keyword arguments, with `file` as "file_name" |
| Arinc615Loader.FailFast | tftp_client/arinc615_loader.py:58-82 | the trace is the plan up to the first non-OK reply, which ends the call (returned if a dict, raising otherwise); COMMIT_LOAD's reply is returned whatever it is |
| Arinc615Loader.TracePrefix | tftp_client/arinc615_loader.py:58-82 | the events of one component always start with INIT_LOAD and are a prefix of INIT_LOAD, SEND_LSE, transfer, VERIFY_LSE, COMMIT_LOAD |
| Arinc615Loader.TransferResultIgnored | tftp_client/arinc615_loader.py:72-75 | the result and the commands do not depend on what `upload_file` returns |
| Arinc615Loader.OneInitLoad | tftp_client/arinc615_loader.py:58-63 | one component issues exactly one INIT_LOAD |
| Arinc615Loader.EveryComponentStarted | tftp_client/arinc615_loader.py:90-103 | the components are started in order, each once; all of them unless an exception ends the loop |
| Arinc615Loader.SendCommand | tftp_client/arinc615_loader.py:14-22 | the reply and the logged command are those of `Exchange` |
| Arinc615Loader.UploadOneComponent | tftp_client/arinc615_loader.py:58-82 | the result and the events are those of `UploadOne` |
| Arinc615Loader.RunUploadFromXml | tftp_client/arinc615_loader.py:90-103 | the loop's outcome and events are those of `UploadAll` |

## Left out

- Sockets, timeouts, thread start-up and all printing and logging. The UDP socket of the client, the TCP connection of `send_command` and the TFTP transfer seen by the loader are oracles with scripted answers. `tcp_control_server_loop`, `main.c`, the Winsock plumbing of `udp_win.c` and `gui_client.py` are not part of this model.
- `sendto` and `sendall` are taken never to fail. A failing receive is a scripted reply.
- `zlib.crc32` is a call into native code. It is the checksum parameter, set to `Crc.Crc32` (see `Crc.Crc32IsIso3309`).
- `fopen` is a boolean: `canOpen` for one turn of the server or a flash driver `open`, and one outcome per datagram (`opens`) for a run of the server's loop. An upload's file is its content, or `None` when opening it raises. The file is taken to read the same both times `upload_file` opens it.
- Both sides receive into 516 bytes the way Winsock does: a longer datagram is not truncated, the receive fails (`LoaderSimServer.RecvLen`, `TftpClient.Received`). On a Unix socket Python would instead truncate it silently; that behaviour is not modelled.
- TftpClient.TftpClient.UploadFile: `retries` is a `nat`; a negative retry count in Python behaves like 0 and is not modelled.
- FlashDriver.Flash.Write: `total_bytes` is an unbounded integer, so the wrap-around of a C `int` beyond 2^31 - 1 bytes is not modelled. The `FILE` leaked by opening twice without closing is not modelled either.
- ControlServer.CommandHandler.HandleJsonCommand: replies are structured values, not `snprintf` text, so truncation at 1024 bytes is not modelled. The 128-byte and 64-byte global buffers are unbounded strings.
- ControlServer.ScanUnsigned: `%u` is modelled only on digit runs whose value fits in 32 bits. Leading white space (which `%u` skips), signs and overflow are not modelled, and none of them arises because the literal part of the format never matches.
- Arinc615Loader.SendCommand: `json.dumps` and `json.loads` are not modelled as text. A command is its name and ordered parameters, and a reply is a decoded JSON value without floats. The command is logged even when the connection fails before sending. `json.dumps` runs before the `try` (tftp_client/arinc615_loader.py:15), so `send_command` never raises only for parameters that serialise; every call site passes strings or `None`, and every model `Json` value serialises.
- Arinc615Loader.RunUploadFromXml: XML parsing is not modelled. The components come as a list of their attribute values, and a parse failure is not represented.
- Arinc615Loader.LseCommand: `os.path.basename` is modelled as the POSIX split on '/' (`TftpClient.Basename`). The Windows variant that also splits on '\' is not modelled.
- The `print` of each result and the unused `TftpClient` options other than `retries` (server address, port, timeout, callbacks other than progress) are not modelled.
