/**
 * The ARINC 615A control-command handler of tftp_server/tcp_control_server.c:
 * `handle_json_command` dispatches on the first command name found in the
 * text it is given and updates five globals.
 *
 * The text is the received C string. `strstr` is `StrStr`. The two `sscanf`
 * calls of SEND_LSE are modelled by what their formats can match: a leading
 * run of literal characters, then one conversion; a format whose literal
 * part does not match stores nothing. The `snprintf` replies are the
 * structured `Reply`: the status the source writes, and what the message
 * carries.
 */
module ControlServer {
  import opened Bytes

  // ---------------------------------------------------------------------------
  // `strstr`.
  // ---------------------------------------------------------------------------

  /** `p` occurs in `s` at index `i`. */
  predicate OccursAt(s: string, p: string, i: nat) {
    i + |p| <= |s| && s[i..i + |p|] == p
  }

  /** The first occurrence of `p` in `s` at index `i` or later. */
  function FindFrom(s: string, p: string, i: nat): (r: Option<nat>)
    requires i <= |s|
    ensures r.Some? ==> i <= r.value && OccursAt(s, p, r.value)
                        && forall j :: i <= j < r.value ==> !OccursAt(s, p, j)
    ensures r.None? ==> forall j :: i <= j <= |s| ==> !OccursAt(s, p, j)
    decreases |s| - i
  {
    if OccursAt(s, p, i) then Some(i)
    else if i == |s| then None
    else FindFrom(s, p, i + 1)
  }

  /** `strstr(s, p)`: the index of the first occurrence, or `NULL`. */
  function StrStr(s: string, p: string): Option<nat> {
    FindFrom(s, p, 0)
  }

  predicate Contains(s: string, p: string) {
    StrStr(s, p).Some?
  }

  /** `strstr` finds an occurrence exactly when there is one, and the first. */
  lemma StrStrFirst(s: string, p: string)
    ensures Contains(s, p) <==> exists i :: 0 <= i <= |s| && OccursAt(s, p, i)
    ensures Contains(s, p) ==> OccursAt(s, p, StrStr(s, p).value)
                               && forall j :: 0 <= j < StrStr(s, p).value ==> !OccursAt(s, p, j)
  {
    if Contains(s, p) {
      assert OccursAt(s, p, StrStr(s, p).value);
    }
  }

  // ---------------------------------------------------------------------------
  // The two `sscanf` calls.
  // ---------------------------------------------------------------------------

  /** The literal part of `"\\\"file_name\\\":\\\"%127[^\"]"`, as C reads it. */
  const NameFormatLiteral: string := "\\\"file_name\\\":\\\""
  /** The literal part of `"\"crc32\":%u"`. */
  const CrcFormatLiteral: string := "\"crc32\":"

  /** The text after the literal part of a format, when the text starts
    * with it; otherwise the scan fails before any conversion. */
  function MatchLiteral(text: string, literal: string): (r: Option<string>)
    ensures r.Some? <==> |literal| <= |text| && text[..|literal|] == literal
    ensures r.Some? ==> text == literal + r.value
  {
    if |literal| <= |text| && text[..|literal|] == literal then Some(text[|literal|..]) else None
  }

  /** Length of the longest prefix of `text` without '"', at most `width`. */
  function SpanNotQuote(text: string, width: nat): (n: nat)
    ensures n <= |text| && n <= width
    ensures forall i :: 0 <= i < n ==> text[i] != '"'
    ensures n < |text| && n < width ==> text[n] == '"'
    decreases width
  {
    if text == [] || width == 0 || text[0] == '"' then 0
    else 1 + SpanNotQuote(text[1..], width - 1)
  }

  /** `%127[^"]`: one to 127 characters other than '"'; none is a
    * matching failure. */
  function ScanSet(text: string): Option<string> {
    var n := SpanNotQuote(text, 127);
    if n == 0 then None else Some(text[..n])
  }

  predicate IsDigit(c: char) {
    '0' <= c <= '9'
  }

  /** Length of the leading run of decimal digits. */
  function DigitRun(text: string): (n: nat)
    ensures n <= |text| && forall i :: 0 <= i < n ==> IsDigit(text[i])
    ensures n < |text| ==> !IsDigit(text[n])
  {
    if text != [] && IsDigit(text[0]) then 1 + DigitRun(text[1..]) else 0
  }

  /** The value of a run of decimal digits. */
  function DecimalValue(ds: string): nat
    requires forall i :: 0 <= i < |ds| ==> IsDigit(ds[i])
  {
    if ds == [] then 0 else 10 * DecimalValue(ds[..|ds| - 1]) + DigitValue(ds[|ds| - 1])
  }

  function DigitValue(c: char): nat
    requires IsDigit(c)
  {
    c as int - '0' as int
  }

  /** `%u` on unsigned decimal digits that fit in 32 bits. */
  function ScanUnsigned(text: string): Option<u32> {
    var n := DigitRun(text);
    if n == 0 then None
    else
      var v := DecimalValue(text[..n]);
      if v < 0x1_0000_0000 then Some(v) else None
  }

  /** The name stored by the first `sscanf`, if any. */
  function ScanFileName(text: string): Option<string> {
    match MatchLiteral(text, NameFormatLiteral)
    case None => None
    case Some(rest) => ScanSet(rest)
  }

  /** The value stored by the second `sscanf`, if any. */
  function ScanCrc(text: string): Option<u32> {
    match MatchLiteral(text, CrcFormatLiteral)
    case None => None
    case Some(rest) => ScanUnsigned(rest)
  }

  /** `sscanf` is applied where `strstr` found "file_name", but its format
    * starts with a backslash: it never stores a name. */
  lemma FileNameNeverScanned(json: string, i: nat)
    requires OccursAt(json, "file_name", i)
    ensures ScanFileName(json[i..]) == None
  {
    assert json[i..][0] == 'f';
  }

  /** Likewise the checksum format starts with '"' where the text starts
    * with "crc32": the checksum is never stored. */
  lemma CrcNeverScanned(json: string, i: nat)
    requires OccursAt(json, "crc32", i)
    ensures ScanCrc(json[i..]) == None
  {
    assert json[i..][0] == 'c';
  }

  /** With the text `"` before the pointer included, the name format
    * still fails, on its leading backslash. */
  lemma QuotedFileNameNeverScanned(name: string, rest: string)
    ensures ScanFileName("\"file_name\":\"" + name + rest) == None
  {
    assert ("\"file_name\":\"" + name + rest)[0] == '"';
  }

  // ---------------------------------------------------------------------------
  // The handler.
  // ---------------------------------------------------------------------------

  /** The globals `g_session_id`, `g_committed`, `g_last_lse_id`,
    * `g_last_file_name` and `g_last_crc32`. */
  datatype Globals = Globals(sessionId: u32, committed: bool, lastLseId: string,
                             lastFileName: string, lastCrc32: u32)

  const Initial: Globals := Globals(0, false, "", "", 0)

  const DeviceId: string := "FCC1"
  const DummySession: u32 := 12345

  datatype Status = Ok | Error

  /** What each `snprintf` into `response_buf` says besides its status. */
  datatype Body =
    | SessionStarted(sessionId: u32)                            // "session_id":%u
    | LseAccepted(fileName: string)                             // "LSE %s accepted"
    | MissingField                                              // "Missing file_name or crc32"
    | LseVerified(fileName: string)                             // "LSE %s verified"
    | SessionCommitted(sessionId: u32)                          // "Session %u committed"
    | Aborted                                                   // "Aborted"
    | StatusReport(session: u32, file: string, committed: bool) // "session", "file", "committed"
    | DeviceInfo(device: string, version: string)               // "device", "version"
    | UnknownCommand                                            // "Unknown command"

  datatype Reply = Reply(status: Status, body: Body)

  /** `handle_json_command`: the first command name found, in the order
    * INIT_LOAD, SEND_LSE, VERIFY_LSE, COMMIT_LOAD, ABORT, REPORT_STATUS,
    * GET_DEVICE_INFO, decides the branch. */
  function Handle(g: Globals, json: string): (Globals, Reply) {
    if Contains(json, "INIT_LOAD") then
      (g.(sessionId := DummySession, committed := false), Reply(Ok, SessionStarted(DummySession)))
    else if Contains(json, "SEND_LSE") then SendLse(g, json)
    else if Contains(json, "VERIFY_LSE") then
      (g, Reply(Ok, LseVerified(g.lastFileName)))
    else if Contains(json, "COMMIT_LOAD") then
      (g.(committed := true), Reply(Ok, SessionCommitted(g.sessionId)))
    else if Contains(json, "ABORT") then
      (g.(sessionId := 0, committed := false, lastFileName := ""), Reply(Ok, Aborted))
    else if Contains(json, "REPORT_STATUS") then
      (g, Reply(Ok, StatusReport(g.sessionId, g.lastFileName, g.committed)))
    else if Contains(json, "GET_DEVICE_INFO") then
      (g, Reply(Ok, DeviceInfo(DeviceId, "v1.0")))
    else (g, Reply(Error, UnknownCommand))
  }

  /** A `sscanf` conversion writes its destination only when it matches. */
  function Stored<T>(scanned: Option<T>, current: T): T {
    match scanned
    case Some(v) => v
    case None => current
  }

  /** The SEND_LSE branch: both keys must be present; each `sscanf` that
    * matches stores its value. */
  function SendLse(g: Globals, json: string): (Globals, Reply) {
    var fname := StrStr(json, "file_name");
    var crcstr := StrStr(json, "crc32");
    if fname.Some? && crcstr.Some? then
      var name := Stored(ScanFileName(json[fname.value..]), g.lastFileName);
      var crc := Stored(ScanCrc(json[crcstr.value..]), g.lastCrc32);
      (g.(lastFileName := name, lastCrc32 := crc, lastLseId := "LSE1"), Reply(Ok, LseAccepted(name)))
    else (g, Reply(Error, MissingField))
  }

  /** INIT_LOAD, wherever it appears, wins: a dummy session that is not
    * committed. */
  lemma InitLoadHandling(g: Globals, json: string)
    requires Contains(json, "INIT_LOAD")
    ensures var (g', r) := Handle(g, json);
            g'.sessionId == 12345 && !g'.committed && r == Reply(Ok, SessionStarted(12345))
            && g'.lastLseId == g.lastLseId && g'.lastFileName == g.lastFileName && g'.lastCrc32 == g.lastCrc32
  {
  }

  /** SEND_LSE without both keys is refused with no change. With both it is
    * accepted as LSE1, and, the formats being as they are, the stored name
    * and checksum stay what they were. */
  lemma SendLseHandling(g: Globals, json: string)
    requires !Contains(json, "INIT_LOAD") && Contains(json, "SEND_LSE")
    ensures !Contains(json, "file_name") || !Contains(json, "crc32") ==>
              Handle(g, json) == (g, Reply(Error, MissingField))
    ensures Contains(json, "file_name") && Contains(json, "crc32") ==>
              Handle(g, json) == (g.(lastLseId := "LSE1"), Reply(Ok, LseAccepted(g.lastFileName)))
  {
    if Contains(json, "file_name") && Contains(json, "crc32") {
      FileNameNeverScanned(json, StrStr(json, "file_name").value);
      CrcNeverScanned(json, StrStr(json, "crc32").value);
    }
  }

  /** COMMIT_LOAD commits whether or not a session was started. */
  lemma CommitHandling(g: Globals, json: string)
    requires !Contains(json, "INIT_LOAD") && !Contains(json, "SEND_LSE") && !Contains(json, "VERIFY_LSE")
    requires Contains(json, "COMMIT_LOAD")
    ensures Handle(g, json) == (g.(committed := true), Reply(Ok, SessionCommitted(g.sessionId)))
  {
  }

  /** ABORT ends the session and forgets the file name, but keeps the LSE
    * id and the checksum. */
  lemma AbortHandling(g: Globals, json: string)
    requires !Contains(json, "INIT_LOAD") && !Contains(json, "SEND_LSE") && !Contains(json, "VERIFY_LSE")
    requires !Contains(json, "COMMIT_LOAD") && Contains(json, "ABORT")
    ensures var (g', r) := Handle(g, json);
            g'.sessionId == 0 && !g'.committed && g'.lastFileName == []
            && g'.lastLseId == g.lastLseId && g'.lastCrc32 == g.lastCrc32 && r == Reply(Ok, Aborted)
  {
  }

  /** VERIFY_LSE, REPORT_STATUS and GET_DEVICE_INFO only report. */
  lemma QueryHandling(g: Globals, json: string)
    requires !Contains(json, "INIT_LOAD") && !Contains(json, "SEND_LSE")
    requires Contains(json, "VERIFY_LSE") || Contains(json, "REPORT_STATUS") || Contains(json, "GET_DEVICE_INFO")
    ensures var (g', r) := Handle(g, json);
            (Contains(json, "VERIFY_LSE") ==> g' == g && r == Reply(Ok, LseVerified(g.lastFileName)))
            && (!Contains(json, "VERIFY_LSE") && !Contains(json, "COMMIT_LOAD") && !Contains(json, "ABORT") ==>
                  g' == g && r.status == Ok
                  && (Contains(json, "REPORT_STATUS") ==> r.body == StatusReport(g.sessionId, g.lastFileName, g.committed))
                  && (!Contains(json, "REPORT_STATUS") ==> r.body == DeviceInfo("FCC1", "v1.0")))
  {
  }

  /** A text naming no command is refused with no change. */
  lemma UnknownHandling(g: Globals, json: string)
    requires !Contains(json, "INIT_LOAD") && !Contains(json, "SEND_LSE") && !Contains(json, "VERIFY_LSE")
    requires !Contains(json, "COMMIT_LOAD") && !Contains(json, "ABORT") && !Contains(json, "REPORT_STATUS")
    requires !Contains(json, "GET_DEVICE_INFO")
    ensures Handle(g, json) == (g, Reply(Error, UnknownCommand))
  {
  }

  /** Every reply is OK except the two refusals, and a refusal changes
    * nothing. */
  lemma ErrorReplies(g: Globals, json: string)
    ensures var (g', r) := Handle(g, json);
            (r.status == Error <==> r.body == MissingField || r.body == UnknownCommand)
            && (r.status == Error ==> g' == g)
  {
  }

  /** SEND_LSE never changes the stored file name or checksum. */
  lemma NameAndCrcOnlyCleared(g: Globals, json: string)
    ensures var (g', _) := Handle(g, json);
            g'.lastCrc32 == g.lastCrc32 && (g'.lastFileName == g.lastFileName || g'.lastFileName == [])
  {
    if !Contains(json, "INIT_LOAD") && Contains(json, "SEND_LSE") {
      SendLseHandling(g, json);
    }
  }

  // ---------------------------------------------------------------------------
  // The globals in place.
  // ---------------------------------------------------------------------------

  class CommandHandler {
    var sessionId: u32
    var committed: bool
    var lastLseId: string
    var lastFileName: string
    var lastCrc32: u32

    function State(): Globals
      reads this
    {
      Globals(sessionId, committed, lastLseId, lastFileName, lastCrc32)
    }

    constructor ()
      ensures State() == Initial
    {
      sessionId := 0;
      committed := false;
      lastLseId := "";
      lastFileName := "";
      lastCrc32 := 0;
    }

    /** `handle_json_command(json, ...)`. */
    method HandleJsonCommand(json: string) returns (reply: Reply)
      modifies this
      ensures (State(), reply) == Handle(old(State()), json)
    {
      if StrStr(json, "INIT_LOAD").Some? {
        sessionId := DummySession;
        committed := false;
        reply := Reply(Ok, SessionStarted(sessionId));
      } else if StrStr(json, "SEND_LSE").Some? {
        reply := HandleSendLse(json);
      } else if StrStr(json, "VERIFY_LSE").Some? {
        reply := Reply(Ok, LseVerified(lastFileName));
      } else if StrStr(json, "COMMIT_LOAD").Some? {
        committed := true;
        reply := Reply(Ok, SessionCommitted(sessionId));
      } else if StrStr(json, "ABORT").Some? {
        sessionId := 0;
        committed := false;
        lastFileName := "";
        reply := Reply(Ok, Aborted);
      } else if StrStr(json, "REPORT_STATUS").Some? {
        reply := Reply(Ok, StatusReport(sessionId, lastFileName, committed));
      } else if StrStr(json, "GET_DEVICE_INFO").Some? {
        reply := Reply(Ok, DeviceInfo(DeviceId, "v1.0"));
      } else {
        reply := Reply(Error, UnknownCommand);
      }
    }

    /** Lines 51-60. */
    method HandleSendLse(json: string) returns (reply: Reply)
      modifies this
      ensures (State(), reply) == SendLse(old(State()), json)
    {
      var fname := StrStr(json, "file_name");
      var crcstr := StrStr(json, "crc32");
      if fname.Some? && crcstr.Some? {
        lastFileName := Stored(ScanFileName(json[fname.value..]), lastFileName);
        lastCrc32 := Stored(ScanCrc(json[crcstr.value..]), lastCrc32);
        lastLseId := "LSE1";
        reply := Reply(Ok, LseAccepted(lastFileName));
      } else {
        reply := Reply(Error, MissingField);
      }
    }
  }
}
