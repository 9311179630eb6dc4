/**
 * The ARINC 615A load orchestration of tftp_client/arinc615_loader.py:
 * `ControlClient.send_command` and its command wrappers,
 * `Arinc615Loader.upload_one_component`, and the loop of
 * `run_upload_from_xml` over the components of an already parsed load plan.
 *
 * The outside world is one oracle object, `Network`. It records every
 * command issued and every file transfer started, in order. It answers each
 * command from a script: a decoded JSON value, or the failure of a connect,
 * send, receive or decode. It answers each transfer with the boolean that
 * `upload_file` returns. An exhausted script answers commands with a
 * timeout and transfers with False.
 */
module Arinc615Loader {
  import opened Bytes
  import TftpClient

  /** A value `json.loads` can return. */
  datatype Json =
    | JNull
    | JBool(b: bool)
    | JNumber(n: int)
    | JString(s: string)
    | JArray(items: seq<Json>)
    | JObject(members: map<string, Json>)

  /** `{"command": name, **params}`, keys in order. */
  datatype Command = Command(name: string, params: seq<(string, Json)>)

  /** What one connection yields to `send_command`. */
  datatype Outcome =
    | Answered(response: Json)     // `json.loads(response.decode("utf-8"))`
    | Failed(message: string)      // `str(e)` of whatever was raised

  datatype Event = Issued(command: Command) | Transferred(path: string)

  /** The oracle's observable state. */
  datatype Env = Env(trace: seq<Event>, answers: seq<Outcome>, transfers: seq<bool>)

  const TimedOut: string := "timed out"

  /** `{"status": "ERROR", "message": message}`. */
  function ErrorReply(message: string): Json {
    JObject(map["status" := JString("ERROR"), "message" := JString(message)])
  }

  /** `res.get("status") != "OK"` is False; `res.get` needs a dict. */
  predicate IsOk(res: Json) {
    res.JObject? && "status" in res.members && res.members["status"] == JString("OK")
  }

  // ---------------------------------------------------------------------------
  // `send_command` and the wrappers.
  // ---------------------------------------------------------------------------

  /** The reply of `send_command` to an outcome: a failure is caught. */
  function Respond(o: Outcome): Json {
    match o
    case Answered(res) => res
    case Failed(message) => ErrorReply(message)
  }

  /** `send_command` never raises: it hands back what was decoded, or an
    * ERROR object carrying the failure's message, which is never OK. */
  lemma RespondNeverRaises(o: Outcome)
    ensures o.Answered? ==> Respond(o) == o.response
    ensures o.Failed? ==> Respond(o).JObject? && !IsOk(Respond(o))
                          && Respond(o).members["status"] == JString("ERROR")
                          && Respond(o).members["message"] == JString(o.message)
  {
  }

  /** The next outcome and the rest of the script. */
  function NextOutcome(answers: seq<Outcome>): (Outcome, seq<Outcome>) {
    if answers == [] then (Failed(TimedOut), []) else (answers[0], answers[1..])
  }

  /** One `send_command`: the reply and the oracle after it. */
  function Exchange(e: Env, c: Command): (Json, Env) {
    var (o, rest) := NextOutcome(e.answers);
    (Respond(o), Env(e.trace + [Issued(c)], rest, e.transfers))
  }

  /** One `upload_file`: its boolean result is dropped by the caller. */
  function Transfer(e: Env, path: string): Env {
    Env(e.trace + [Transferred(path)], e.answers, if e.transfers == [] then [] else e.transfers[1..])
  }

  /** A component attribute from `comp.get`: the string, or `None`. */
  function Param(a: Option<string>): Json {
    match a
    case Some(s) => JString(s)
    case None => JNull
  }

  function InitLoad(device: Json, session: Json): Command {
    Command("INIT_LOAD", [("device", device), ("session_id", session)])
  }

  function SendLse(lse: Json, version: Json, memory: Json, file: Json, crc32: Json): Command {
    Command("SEND_LSE", [("lse_id", lse), ("version", version), ("memory", memory), ("file_name", file), ("crc32", crc32)])
  }

  function VerifyLse(lse: Json): Command {
    Command("VERIFY_LSE", [("lse_id", lse)])
  }

  function CommitLoad(session: Json): Command {
    Command("COMMIT_LOAD", [("session_id", session)])
  }

  function Abort(reason: Json): Command {
    Command("ABORT", [("reason", reason)])
  }

  const DefaultAbortReason: Json := JString("User request")

  function ReportStatus(): Command {
    Command("REPORT_STATUS", [])
  }

  function GetDeviceInfo(): Command {
    Command("GET_DEVICE_INFO", [])
  }

  function Keys(c: Command): seq<string> {
    seq(|c.params|, i requires 0 <= i < |c.params| => c.params[i].0)
  }

  /** Each wrapper sends its own command name with exactly its keyword
    * arguments, and `send_lse` sends its `file` argument as "file_name". */
  lemma WrapperShapes(a: Json, b: Json, c: Json, d: Json, f: Json)
    ensures InitLoad(a, b).name == "INIT_LOAD" && Keys(InitLoad(a, b)) == ["device", "session_id"]
    ensures SendLse(a, b, c, f, d).name == "SEND_LSE"
            && Keys(SendLse(a, b, c, f, d)) == ["lse_id", "version", "memory", "file_name", "crc32"]
            && SendLse(a, b, c, f, d).params[3] == ("file_name", f)
    ensures VerifyLse(a).name == "VERIFY_LSE" && Keys(VerifyLse(a)) == ["lse_id"]
    ensures CommitLoad(a).name == "COMMIT_LOAD" && Keys(CommitLoad(a)) == ["session_id"]
    ensures Abort(a).name == "ABORT" && Keys(Abort(a)) == ["reason"]
    ensures ReportStatus().name == "REPORT_STATUS" && Keys(ReportStatus()) == []
    ensures GetDeviceInfo().name == "GET_DEVICE_INFO" && Keys(GetDeviceInfo()) == []
  {
    assert Keys(InitLoad(a, b)) == ["device", "session_id"];
    assert Keys(SendLse(a, b, c, f, d)) == ["lse_id", "version", "memory", "file_name", "crc32"];
    assert Keys(VerifyLse(a)) == ["lse_id"];
    assert Keys(CommitLoad(a)) == ["session_id"];
    assert Keys(Abort(a)) == ["reason"];
  }

  // ---------------------------------------------------------------------------
  // `upload_one_component`.
  // ---------------------------------------------------------------------------

  /** One `<component>` element: its attributes as `comp.get` returns them. */
  datatype Component = Component(lse: Option<string>, device: Option<string>, version: Option<string>,
                                 file: Option<string>, memory: Option<string>, crc32: Option<string>)

  /** How `upload_one_component` ends: a returned reply, or an exception
    * (`res.get` on a reply that is not a dict, `os.path.basename(None)`). */
  datatype Result = Returned(reply: Json) | Raised

  function InitCommand(c: Component, session: int): Command {
    InitLoad(Param(c.device), JNumber(session))
  }

  function LseCommand(c: Component, path: string): Command {
    SendLse(Param(c.lse), Param(c.version), Param(c.memory), JString(TftpClient.Basename(path)), Param(c.crc32))
  }

  /** The five steps in full: INIT_LOAD, SEND_LSE, the transfer, VERIFY_LSE,
    * COMMIT_LOAD; without a file path only INIT_LOAD can be issued. */
  function Plan(c: Component, session: int): seq<Event> {
    if c.file.None? then [Issued(InitCommand(c, session))]
    else
      [Issued(InitCommand(c, session)), Issued(LseCommand(c, c.file.value)), Transferred(c.file.value),
       Issued(VerifyLse(Param(c.lse))), Issued(CommitLoad(JNumber(session)))]
  }

  /** A reply that is not OK stops the sequence: it is returned when it is
    * a dict, and `res.get` raises on anything else. */
  function Checked(res: Json): Result {
    if res.JObject? then Returned(res) else Raised
  }

  /** `upload_one_component(device_id, lse_id, version, memory, file_path,
    * crc32, session_id)` on oracle `e`. */
  function UploadOne(c: Component, session: int, e: Env): (Result, Env) {
    var (r1, e1) := Exchange(e, InitCommand(c, session));
    if !IsOk(r1) then (Checked(r1), e1)
    else if c.file.None? then (Raised, e1)
    else FromSendLse(c, session, c.file.value, e1)
  }

  /** From SEND_LSE on: the transfer follows an OK reply. */
  function FromSendLse(c: Component, session: int, path: string, e: Env): (Result, Env) {
    var (r2, e2) := Exchange(e, LseCommand(c, path));
    if !IsOk(r2) then (Checked(r2), e2)
    else FromVerify(c, session, Transfer(e2, path))
  }

  /** From VERIFY_LSE on: COMMIT_LOAD's reply is returned unchecked. */
  function FromVerify(c: Component, session: int, e: Env): (Result, Env) {
    var (r3, e3) := Exchange(e, VerifyLse(Param(c.lse)));
    if !IsOk(r3) then (Checked(r3), e3)
    else
      var (r4, e4) := Exchange(e3, CommitLoad(JNumber(session)));
      (Returned(r4), e4)
  }

  /** The reply to the `i`-th command issued from `answers`. */
  function ReplyAt(answers: seq<Outcome>, i: nat): Json {
    Respond(if i < |answers| then answers[i] else Failed(TimedOut))
  }

  /** `send_command` takes the next reply from the script and logs the
    * command; later replies move up by one. */
  lemma ExchangeShift(e: Env, c: Command)
    ensures var (r, e') := Exchange(e, c);
            r == ReplyAt(e.answers, 0) && e'.trace == e.trace + [Issued(c)] && e'.transfers == e.transfers
            && forall i: nat {:trigger ReplyAt(e'.answers, i)} :: ReplyAt(e'.answers, i) == ReplyAt(e.answers, i + 1)
  {
    var e' := Exchange(e, c).1;
    forall i: nat ensures ReplyAt(e'.answers, i) == ReplyAt(e.answers, i + 1) {
      if e.answers != [] && i < |e'.answers| {
        assert e'.answers[i] == e.answers[i + 1];
      }
    }
  }

  lemma FromVerifySteps(c: Component, session: int, e: Env)
    ensures var (r, e') := FromVerify(c, session, e);
            var verify := Issued(VerifyLse(Param(c.lse)));
            (!IsOk(ReplyAt(e.answers, 0)) ==> e'.trace == e.trace + [verify] && r == Checked(ReplyAt(e.answers, 0)))
            && (IsOk(ReplyAt(e.answers, 0)) ==>
                  e'.trace == e.trace + [verify, Issued(CommitLoad(JNumber(session)))]
                  && r == Returned(ReplyAt(e.answers, 1)))
  {
    var (r3, e3) := Exchange(e, VerifyLse(Param(c.lse)));
    ExchangeShift(e, VerifyLse(Param(c.lse)));
    ExchangeShift(e3, CommitLoad(JNumber(session)));
    assert ReplyAt(e3.answers, 0) == ReplyAt(e.answers, 1);
  }

  lemma FromSendLseSteps(c: Component, session: int, path: string, e: Env)
    ensures var (r, e') := FromSendLse(c, session, path, e);
            var lse := Issued(LseCommand(c, path));
            var verify := Issued(VerifyLse(Param(c.lse)));
            (!IsOk(ReplyAt(e.answers, 0)) ==> e'.trace == e.trace + [lse] && r == Checked(ReplyAt(e.answers, 0)))
            && (IsOk(ReplyAt(e.answers, 0)) && !IsOk(ReplyAt(e.answers, 1)) ==>
                  e'.trace == e.trace + [lse, Transferred(path), verify] && r == Checked(ReplyAt(e.answers, 1)))
            && (IsOk(ReplyAt(e.answers, 0)) && IsOk(ReplyAt(e.answers, 1)) ==>
                  e'.trace == e.trace + [lse, Transferred(path), verify, Issued(CommitLoad(JNumber(session)))]
                  && r == Returned(ReplyAt(e.answers, 2)))
  {
    var (r2, e2) := Exchange(e, LseCommand(c, path));
    ExchangeShift(e, LseCommand(c, path));
    var e3 := Transfer(e2, path);
    assert e3.answers == e2.answers;
    FromVerifySteps(c, session, e3);
    assert ReplyAt(e3.answers, 0) == ReplyAt(e.answers, 1);
    assert ReplyAt(e3.answers, 1) == ReplyAt(e.answers, 2);
    var lse := Issued(LseCommand(c, path));
    var verify := Issued(VerifyLse(Param(c.lse)));
    var commit := Issued(CommitLoad(JNumber(session)));
    Appended3(e.trace, lse, Transferred(path), verify);
    Appended4(e.trace, lse, Transferred(path), verify, commit);
  }

  lemma Appended3<T>(t: seq<T>, a: T, b: T, c: T)
    ensures t + [a] + [b] + [c] == t + [a, b, c]
  {
  }

  lemma Appended4<T>(t: seq<T>, a: T, b: T, c: T, d: T)
    ensures t + [a] + [b] + [c, d] == t + [a, b, c, d]
  {
  }

  /** The fail-fast sequence. With `R(i)` the reply to the `i`-th command
    * issued: the trace is the plan up to the first reply that is not OK,
    * and that reply ends the call (returned when it is a dict, raising
    * otherwise); COMMIT_LOAD's reply is returned whatever it says. The
    * transfer's result plays no part, so VERIFY_LSE follows every transfer. */
  lemma FailFast(c: Component, session: int, e: Env)
    ensures var (r, e') := UploadOne(c, session, e);
            var plan := Plan(c, session);
            (!IsOk(ReplyAt(e.answers, 0)) ==> e'.trace == e.trace + plan[..1] && r == Checked(ReplyAt(e.answers, 0)))
            && (IsOk(ReplyAt(e.answers, 0)) && c.file.None? ==> e'.trace == e.trace + plan && r == Raised)
            && (IsOk(ReplyAt(e.answers, 0)) && c.file.Some? && !IsOk(ReplyAt(e.answers, 1)) ==>
                  e'.trace == e.trace + plan[..2] && r == Checked(ReplyAt(e.answers, 1)))
            && (IsOk(ReplyAt(e.answers, 0)) && c.file.Some? && IsOk(ReplyAt(e.answers, 1))
                && !IsOk(ReplyAt(e.answers, 2)) ==>
                  e'.trace == e.trace + plan[..4] && r == Checked(ReplyAt(e.answers, 2)))
            && (IsOk(ReplyAt(e.answers, 0)) && c.file.Some? && IsOk(ReplyAt(e.answers, 1))
                && IsOk(ReplyAt(e.answers, 2)) ==>
                  e'.trace == e.trace + plan && r == Returned(ReplyAt(e.answers, 3)))
  {
    var init := Issued(InitCommand(c, session));
    var (r1, e1) := Exchange(e, InitCommand(c, session));
    ExchangeShift(e, InitCommand(c, session));
    if !IsOk(r1) || c.file.None? {
      assert Plan(c, session)[..1] == [init];
    } else {
      var path := c.file.value;
      var lse := Issued(LseCommand(c, path));
      var verify := Issued(VerifyLse(Param(c.lse)));
      var commit := Issued(CommitLoad(JNumber(session)));
      FromSendLseSteps(c, session, path, e1);
      assert ReplyAt(e1.answers, 0) == ReplyAt(e.answers, 1);
      assert ReplyAt(e1.answers, 1) == ReplyAt(e.answers, 2);
      assert ReplyAt(e1.answers, 2) == ReplyAt(e.answers, 3);
      Prefixes5(init, lse, Transferred(path), verify, commit);
      Joined(e.trace, init, [lse]);
      Joined(e.trace, init, [lse, Transferred(path), verify]);
      Joined(e.trace, init, [lse, Transferred(path), verify, commit]);
    }
  }

  lemma Prefixes5<T>(a: T, b: T, c: T, d: T, e: T)
    ensures [a, b, c, d, e][..1] == [a] && [a, b, c, d, e][..2] == [a, b]
            && [a, b, c, d, e][..4] == [a, b, c, d]
  {
  }

  lemma Joined<T>(t: seq<T>, a: T, rest: seq<T>)
    ensures t + [a] + rest == t + ([a] + rest)
  {
  }

  /** The trace of one component is always a prefix of its plan, and it
    * always begins with INIT_LOAD. */
  lemma TracePrefix(c: Component, session: int, e: Env)
    ensures var e' := UploadOne(c, session, e).1;
            e.trace <= e'.trace && e'.trace[|e.trace|..] <= Plan(c, session)
            && |e'.trace| > |e.trace| && e'.trace[|e.trace|] == Issued(InitCommand(c, session))
  {
    FailFast(c, session, e);
    var e' := UploadOne(c, session, e).1;
    var plan := Plan(c, session);
    var k := if !IsOk(ReplyAt(e.answers, 0)) || c.file.None? then 1
             else if !IsOk(ReplyAt(e.answers, 1)) then 2
             else if !IsOk(ReplyAt(e.answers, 2)) then 4
             else 5;
    WholePrefix(plan);
    ExtendedByPrefix(e.trace, e'.trace, plan, k);
  }

  lemma WholePrefix<T>(s: seq<T>)
    ensures s[..|s|] == s
  {
  }

  lemma ExtendedByPrefix<T>(t: seq<T>, t': seq<T>, plan: seq<T>, k: nat)
    requires 1 <= k <= |plan| && t' == t + plan[..k]
    ensures t <= t' && t'[|t|..] <= plan && |t'| > |t| && t'[|t|] == plan[0]
  {
    assert t'[|t|..] == plan[..k];
  }

  /** Nothing `upload_one_component` does depends on what the transfer
    * returned. */
  lemma TransferResultIgnored(c: Component, session: int, e: Env, transfers: seq<bool>)
    ensures var (r, e') := UploadOne(c, session, e);
            var (q, f') := UploadOne(c, session, e.(transfers := transfers));
            r == q && e'.trace == f'.trace && e'.answers == f'.answers
  {
    var f := e.(transfers := transfers);
    var (r1, e1) := Exchange(e, InitCommand(c, session));
    var (q1, f1) := Exchange(f, InitCommand(c, session));
    if IsOk(r1) && c.file.Some? {
      var path := c.file.value;
      var (r2, e2) := Exchange(e1, LseCommand(c, path));
      var (q2, f2) := Exchange(f1, LseCommand(c, path));
      FromVerifyIgnoresTransfers(c, session, Transfer(e2, path), Transfer(f2, path));
    }
  }

  lemma FromVerifyIgnoresTransfers(c: Component, session: int, e: Env, f: Env)
    requires e.trace == f.trace && e.answers == f.answers
    ensures var (r, e') := FromVerify(c, session, e);
            var (q, f') := FromVerify(c, session, f);
            r == q && e'.trace == f'.trace && e'.answers == f'.answers
  {
  }

  // ---------------------------------------------------------------------------
  // `run_upload_from_xml`.
  // ---------------------------------------------------------------------------

  /** The loop over the components in document order: whether an exception
    * ended it, and the oracle after it. */
  function UploadAll(cs: seq<Component>, session: int, e: Env): (bool, Env)
    decreases |cs|
  {
    if cs == [] then (false, e)
    else
      var (r, e1) := UploadOne(cs[0], session, e);
      if r.Raised? then (true, e1) else UploadAll(cs[1..], session, e1)
  }

  /** The INIT_LOAD commands of a trace. */
  function InitLoads(t: seq<Event>): seq<Event> {
    if t == [] then []
    else (if t[0].Issued? && t[0].command.name == "INIT_LOAD" then [t[0]] else []) + InitLoads(t[1..])
  }

  lemma {:induction false} InitLoadsAppend(s: seq<Event>, t: seq<Event>)
    ensures InitLoads(s + t) == InitLoads(s) + InitLoads(t)
    decreases |s|
  {
    if s == [] {
      assert s + t == t;
    } else {
      assert (s + t)[1..] == s[1..] + t;
      InitLoadsAppend(s[1..], t);
    }
  }

  /** Each component issues exactly one INIT_LOAD, its first command. */
  lemma OneInitLoad(c: Component, session: int, e: Env)
    ensures var e' := UploadOne(c, session, e).1;
            e.trace <= e'.trace && InitLoads(e'.trace[|e.trace|..]) == [Issued(InitCommand(c, session))]
  {
    TracePrefix(c, session, e);
    PlanStartsOnce(c, session);
    var e' := UploadOne(c, session, e).1;
    PrefixStartsOnce(e'.trace[|e.trace|..], Plan(c, session));
  }

  /** Only the first step of a plan is an INIT_LOAD. */
  lemma PlanStartsOnce(c: Component, session: int)
    ensures var plan := Plan(c, session);
            plan != [] && plan[0].Issued? && plan[0].command.name == "INIT_LOAD"
            && forall i :: 1 <= i < |plan| ==> !(plan[i].Issued? && plan[i].command.name == "INIT_LOAD")
  {
    assert |"SEND_LSE"| != |"INIT_LOAD"| && |"VERIFY_LSE"| != |"INIT_LOAD"| && |"COMMIT_LOAD"| != |"INIT_LOAD"|;
  }

  lemma PrefixStartsOnce(t: seq<Event>, plan: seq<Event>)
    requires t <= plan && t != [] && t[0].Issued? && t[0].command.name == "INIT_LOAD"
    requires forall i :: 1 <= i < |plan| ==> !(plan[i].Issued? && plan[i].command.name == "INIT_LOAD")
    ensures InitLoads(t) == [t[0]]
  {
    assert forall i :: 0 <= i < |t[1..]| ==> t[1..][i] == plan[i + 1];
    InitLoadsNone(t[1..]);
  }

  lemma {:induction false} InitLoadsNone(t: seq<Event>)
    requires forall i :: 0 <= i < |t| ==> !(t[i].Issued? && t[i].command.name == "INIT_LOAD")
    ensures InitLoads(t) == []
    decreases |t|
  {
    if t != [] {
      InitLoadsNone(t[1..]);
    }
  }

  /** The INIT_LOAD of every component in order. */
  function PlannedInits(cs: seq<Component>, session: int): (r: seq<Event>)
    ensures |r| == |cs| && forall i :: 0 <= i < |cs| ==> r[i] == Issued(InitCommand(cs[i], session))
  {
    seq(|cs|, i requires 0 <= i < |cs| => Issued(InitCommand(cs[i], session)))
  }

  /** Every component is started, in order, whatever became of the ones
    * before it; only an exception ends the loop early, and then the
    * components started are a prefix of the plan. */
  lemma {:induction false} EveryComponentStarted(cs: seq<Component>, session: int, e: Env)
    ensures var (raised, e') := UploadAll(cs, session, e);
            e.trace <= e'.trace && var inits := InitLoads(e'.trace[|e.trace|..]);
            inits <= PlannedInits(cs, session) && (!raised ==> inits == PlannedInits(cs, session))
    decreases |cs|
  {
    if cs != [] {
      var (r, e1) := UploadOne(cs[0], session, e);
      OneInitLoad(cs[0], session, e);
      PlannedInitsCons(cs, session);
      if !r.Raised? {
        EveryComponentStarted(cs[1..], session, e1);
        var e' := UploadAll(cs, session, e).1;
        SplitTrace(e.trace, e1.trace, e'.trace);
        InitLoadsAppend(e1.trace[|e.trace|..], e'.trace[|e1.trace|..]);
      }
    }
  }

  lemma PlannedInitsCons(cs: seq<Component>, session: int)
    requires cs != []
    ensures PlannedInits(cs, session) == [Issued(InitCommand(cs[0], session))] + PlannedInits(cs[1..], session)
  {
  }

  lemma SplitTrace<T>(t0: seq<T>, t1: seq<T>, t2: seq<T>)
    requires t0 <= t1 <= t2
    ensures t0 <= t2 && t2[|t0|..] == t1[|t0|..] + t2[|t1|..]
  {
  }

  // ---------------------------------------------------------------------------
  // The effectful code.
  // ---------------------------------------------------------------------------

  class Network {
    var trace: seq<Event>
    var answers: seq<Outcome>
    var transfers: seq<bool>

    function State(): Env
      reads this
    {
      Env(trace, answers, transfers)
    }

    constructor (answers: seq<Outcome>, transfers: seq<bool>)
      ensures State() == Env([], answers, transfers)
    {
      trace := [];
      this.answers := answers;
      this.transfers := transfers;
    }

    /** Connect, `sendall` the command, `recv` and decode the reply: what
      * comes back, or what was raised. */
    method Request(c: Command) returns (o: Outcome)
      modifies this
      ensures (o, answers) == NextOutcome(old(answers))
      ensures trace == old(trace) + [Issued(c)] && transfers == old(transfers)
    {
      trace := trace + [Issued(c)];
      if answers == [] {
        o := Failed(TimedOut);
      } else {
        o := answers[0];
        answers := answers[1..];
      }
    }

    /** `TftpClient.upload_file(path)`. */
    method UploadFile(path: string) returns (ok: bool)
      modifies this
      ensures State() == Transfer(old(State()), path)
      ensures ok == (old(transfers) != [] && old(transfers)[0])
    {
      trace := trace + [Transferred(path)];
      if transfers == [] {
        ok := false;
      } else {
        ok := transfers[0];
        transfers := transfers[1..];
      }
    }
  }

  /** `ControlClient.send_command(command.name, **command.params)`. */
  method SendCommand(net: Network, command: Command) returns (res: Json)
    modifies net
    ensures (res, net.State()) == Exchange(old(net.State()), command)
  {
    var o := net.Request(command);
    match o
    case Answered(r) => res := r;
    case Failed(message) => res := ErrorReply(message);
  }

  method UploadOneComponent(net: Network, c: Component, session: int) returns (r: Result)
    modifies net
    ensures (r, net.State()) == UploadOne(c, session, old(net.State()))
  {
    var res := SendCommand(net, InitCommand(c, session));
    if !res.JObject? {
      return Raised;
    }
    if !IsOk(res) {
      return Returned(res);
    }
    if c.file.None? {
      return Raised;
    }
    var path := c.file.value;
    res := SendCommand(net, LseCommand(c, path));
    if !res.JObject? {
      return Raised;
    }
    if !IsOk(res) {
      return Returned(res);
    }
    var _ := net.UploadFile(path);
    res := SendCommand(net, VerifyLse(Param(c.lse)));
    if !res.JObject? {
      return Raised;
    }
    if !IsOk(res) {
      return Returned(res);
    }
    res := SendCommand(net, CommitLoad(JNumber(session)));
    return Returned(res);
  }

  /** The loop of `run_upload_from_xml`: true when an exception ended it. */
  method RunUploadFromXml(net: Network, components: seq<Component>, session: int) returns (raised: bool)
    modifies net
    ensures (raised, net.State()) == UploadAll(components, session, old(net.State()))
  {
    ghost var target := UploadAll(components, session, net.State());
    var i := 0;
    while i < |components|
      invariant 0 <= i <= |components|
      invariant UploadAll(components[i..], session, net.State()) == target
      decreases |components| - i
    {
      assert components[i..][1..] == components[i + 1..];
      var result := UploadOneComponent(net, components[i], session);
      if result.Raised? {
        return true;
      }
      i := i + 1;
    }
    assert components[i..] == [];
    return false;
  }
}
