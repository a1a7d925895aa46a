/**
 * The API wrapper of htb/__init__.py: response validation, the
 * authenticated-path helper and one function per remote operation.
 *
 * The network is not modelled. Each operation is a function of the body the
 * server answers with (already decoded from JSON) and yields an Exchange:
 * the requests it sends, what it returns or raises, and what it prints.
 */
module Htb {
  import opened Values

  const Version: string := "1.1.0"
  const BaseUrl: string := "https://www.hackthebox.eu/api"
  const DefaultUserAgent: string := "Python HTB Client/" + Version

  /** The labs `switch_vpn` accepts. */
  const Labs: seq<string> := ["usfree", "eufree", "usvip", "euvip", "euvipbeta"]

  /** What spawn, terminate and own return when the server rejects the call. */
  const Degraded: (Value, Value) := (Bool(false), Str("An Error Occurred"))

  /** The exceptions that can leave the client's operations. */
  datatype PyError =
    | HTBAPIError(expression: string, message: string)
    | KeyError(key: string)
    | AttributeError(attribute: string)

  /** A Python call either returns a value or raises. */
  datatype Outcome<T> = Return(value: T) | Raise(error: PyError)

  predicate IsApiError<T>(o: Outcome<T>) {
    o.Raise? && o.error.HTBAPIError?
  }

  datatype Verb = GET | POST

  /** One HTTPS request: verb, full URL, form body and headers. */
  datatype Request = Request(verb: Verb, url: string, data: Option<Envelope>, headers: Envelope)

  /** The requests a call sends, its outcome and the lines it prints. */
  datatype Exchange<T> = Exchange(sent: seq<Request>, outcome: Outcome<T>, printed: seq<string>)

  /** `d[key]` */
  function Item(d: Envelope, key: string): (r: Outcome<Value>)
  {
    match Lookup(d, key)
    case Some(v) => Return(v)
    case None => Raise(KeyError(key))
  }

  /** `HTB._validate_response`: pass the body through when its `success`
      entry is exactly the string "1", raise otherwise. */
  function ValidateResponse(resp: Envelope): (r: Outcome<Envelope>)
    ensures r.Return? <==> Lookup(resp, "success") == Some(Str("1"))
    ensures r.Return? ==> r.value == resp
    ensures IsApiError(r) <==> Lookup(resp, "success").Some? && Lookup(resp, "success") != Some(Str("1"))
    ensures IsApiError(r) ==> r.error == HTBAPIError("success != 1", RenderEntries(resp))
    ensures Lookup(resp, "success").None? ==> r == Raise(KeyError("success"))
  {
    match Item(resp, "success")
    case Raise(e) => Raise(e)
    case Return(v) =>
      if v != Str("1") then Raise(HTBAPIError("success != 1", RenderEntries(resp)))
      else Return(resp)
  }

  /** The message of a rejection carries every entry of the body: each key and
      each `k: v` line occurs in it. */
  lemma RejectionNamesEveryEntry(resp: Envelope, i: nat)
    requires i < |resp|
    requires IsApiError(ValidateResponse(resp))
    ensures Contains(ValidateResponse(resp).error.message, resp[i].0)
    ensures Contains(ValidateResponse(resp).error.message, EntryLine(resp[i]))
  {
    RenderShowsEntry(resp, i);
  }

  /** When no key and no top-level string value holds a newline, the rejection
      message splits back into exactly one `k: v` line per entry, in the
      body's order. */
  lemma RejectionMessageRecoversEntries(resp: Envelope)
    requires IsApiError(ValidateResponse(resp))
    requires forall i | 0 <= i < |resp| :: '\n' !in resp[i].0 && OneLine(resp[i].1)
    ensures Split(ValidateResponse(resp).error.message, '\n') == EntryLines(resp)
  {
    RenderSplitsIntoEntries(resp);
  }

  /** An int 1 or a boolean true is not the success marker. */
  lemma OnlyTheStringOneIsSuccess(resp: Envelope, v: Value)
    requires Lookup(resp, "success") == Some(v)
    ensures ValidateResponse(resp).Return? <==> v == Str("1")
    ensures v == Int(1) || v == Bool(true) ==> IsApiError(ValidateResponse(resp))
  {
  }

  /** `except HTBAPIError` around a call: an API error is replaced by
      `fallback`, and its message is printed when `log` is set. */
  function CatchApiError<T>(sent: seq<Request>, o: Outcome<T>, fallback: T, log: bool): (r: Exchange<T>)
  {
    match o
    case Raise(HTBAPIError(_, msg)) => Exchange(sent, Return(fallback), if log then [msg] else [])
    case _ => Exchange(sent, o, [])
  }

  /** `(resp['success'], resp['status'])`, evaluated left to right. */
  function SuccessAndStatus(resp: Envelope): Outcome<(Value, Value)>
  {
    match Item(resp, "success")
    case Raise(e) => Raise(e)
    case Return(s) =>
      match Item(resp, "status")
      case Raise(e) => Raise(e)
      case Return(m) => Return((s, m))
  }

  function VmPath(lab: string, action: string, mid: Value): string {
    "/vm/" + lab + "/" + action + "/" + PyStr(mid)
  }

  function OwnBody(mid: Value, hsh: string, diff: int): Envelope {
    [("id", mid), ("flag", Str(hsh)), ("difficulty", Int(diff))]
  }

  function HashBody(hsh: string, diff: int): Envelope {
    [("hash", Str(hsh)), ("diff", Int(diff))]
  }

  /** `HTB(api_key, user_agent)`: the key and the headers, both fixed for the
      client's lifetime. */
  datatype Client = Client(apiKey: string, headers: Envelope)
  {
    /** `_auth`: the path followed by the API token as a query parameter. */
    function Auth(path: string): string {
      path + "?api_token=" + apiKey
    }

    function Send(verb: Verb, path: string, data: Option<Envelope>): Request {
      Request(verb, BaseUrl + path, data, headers)
    }

    /** `_get`: a GET whose answer is validated. */
    function Get(path: string, resp: Envelope): Exchange<Envelope> {
      Exchange([Send(GET, path, None)], ValidateResponse(resp), [])
    }

    /** `_post`: a POST whose answer is validated. */
    function Post(path: string, data: Option<Envelope>, resp: Envelope): Exchange<Envelope> {
      Exchange([Send(POST, path, data)], ValidateResponse(resp), [])
    }

    /** `requests.get(...).json()` without validation. */
    function RawGet(path: string, body: Value): Exchange<Value> {
      Exchange([Send(GET, path, None)], Return(body), [])
    }

    /** `requests.post(...).json()` without validation. */
    function RawPost(path: string, body: Value): Exchange<Value> {
      Exchange([Send(POST, path, None)], Return(body), [])
    }

    function GlobalStats(resp: Envelope): Exchange<Envelope> {
      Post("/stats/global", None, resp)
    }

    function OverviewStats(body: Value): Exchange<Value> {
      RawGet("/stats/overview", body)
    }

    /** `daily_owns(count=30)`: this path is not authenticated. */
    function DailyOwns(resp: Envelope, count: int := 30): (r: Exchange<Envelope>)
      ensures r.sent == [Request(POST, BaseUrl + ("/stats/daily/owns/" + IntToString(count)), None, headers)]
      ensures r.outcome == ValidateResponse(resp) && r.printed == []
    {
      Post("/stats/daily/owns/" + IntToString(count), None, resp)
    }

    function ListConversations(body: Value): Exchange<Value> {
      RawPost(Auth("/conversations/list/"), body)
    }

    function VpnFreeslots(resp: Envelope): Exchange<Envelope> {
      Post(Auth("/vpnserver/freeslots/"), None, resp)
    }

    function VpnStatusall(resp: Envelope): Exchange<Envelope> {
      Get(Auth("/vpnserver/status/all/"), resp)
    }

    function ConnectionStatus(body: Value): Exchange<Value> {
      RawPost(Auth("/users/htb/connection/status/"), body)
    }

    function FortressConnectionStatus(body: Value): Exchange<Value> {
      RawPost(Auth("/users/htb/fortress/connection/status/"), body)
    }

    /** `switch_vpn`: an unknown lab is refused before anything is sent; a
        known one is posted and the answer returned unvalidated. */
    function SwitchVpn(lab: string, body: Value): (r: Exchange<Value>)
      ensures lab !in Labs ==> r.sent == [] && r.outcome == Raise(HTBAPIError("invalid lab", ""))
      ensures lab in Labs ==> r.sent == [Request(POST, BaseUrl + Auth("/labs/switch/" + lab + "/"), None, headers)]
      ensures lab in Labs ==> r.outcome == Return(body)
      ensures r.printed == []
    {
      if lab !in Labs then Exchange([], Raise(HTBAPIError("invalid lab", "")), [])
      else RawPost(Auth("/labs/switch/" + lab + "/"), body)
    }

    function GetOwns(body: Value): Exchange<Value> {
      RawGet(Auth("/machines/owns"), body)
    }

    function GetMachines(body: Value): Exchange<Value> {
      RawGet(Auth("/machines/get/all/"), body)
    }

    function GetMachine(mid: Value, body: Value): Exchange<Value> {
      RawGet(Auth("/machines/get/" + PyStr(mid) + "/"), body)
    }

    /** spawn_machine and terminate_machine as written: the validated body is
        already a dict, so the trailing `.json()` raises AttributeError, which
        the `except HTBAPIError` does not catch. */
    function VmCommand(action: string, mid: Value, lab: string, resp: Envelope): (r: Exchange<(Value, Value)>)
      ensures r.sent == [Request(POST, BaseUrl + Auth(VmPath(lab, action, mid)), None, headers)]
      ensures !IsApiError(r.outcome)
      ensures ValidateResponse(resp).Return? ==> r.outcome == Raise(AttributeError("json")) && r.printed == []
      ensures IsApiError(ValidateResponse(resp)) ==>
                r.outcome == Return(Degraded) && r.printed == [RenderEntries(resp)]
      ensures Lookup(resp, "success").None? ==> r.outcome == Raise(KeyError("success")) && r.printed == []
    {
      var called := match ValidateResponse(resp)
        case Return(_) => Raise(AttributeError("json"))
        case Raise(e) => Raise(e);
      CatchApiError([Send(POST, Auth(VmPath(lab, action, mid)), None)], called, Degraded, true)
    }

    /** spawn_machine and terminate_machine without the stray `.json()`:
        an accepted body yields its `success` and `status` entries. */
    function VmCommandIntended(action: string, mid: Value, lab: string, resp: Envelope): (r: Exchange<(Value, Value)>)
      ensures r.sent == [Request(POST, BaseUrl + Auth(VmPath(lab, action, mid)), None, headers)]
      ensures !IsApiError(r.outcome)
      ensures ValidateResponse(resp).Return? && Lookup(resp, "status").Some? ==>
                r.outcome == Return((Str("1"), Lookup(resp, "status").value)) && r.printed == []
      ensures ValidateResponse(resp).Return? && Lookup(resp, "status").None? ==>
                r.outcome == Raise(KeyError("status")) && r.printed == []
      ensures IsApiError(ValidateResponse(resp)) ==>
                r.outcome == Return(Degraded) && r.printed == [RenderEntries(resp)]
      ensures Lookup(resp, "success").None? ==> r.outcome == Raise(KeyError("success")) && r.printed == []
    {
      var called := match ValidateResponse(resp)
        case Return(d) => SuccessAndStatus(d)
        case Raise(e) => Raise(e);
      CatchApiError([Send(POST, Auth(VmPath(lab, action, mid)), None)], called, Degraded, true)
    }

    function SpawnMachine(mid: Value, resp: Envelope, lab: string := "vip"): (r: Exchange<(Value, Value)>)
      ensures r.sent == [Request(POST, BaseUrl + Auth(VmPath(lab, "assign", mid)), None, headers)]
      ensures r == VmCommand("assign", mid, lab, resp)
    {
      VmCommand("assign", mid, lab, resp)
    }

    function TerminateMachine(mid: Value, resp: Envelope, lab: string := "vip"): (r: Exchange<(Value, Value)>)
      ensures r.sent == [Request(POST, BaseUrl + Auth(VmPath(lab, "remove", mid)), None, headers)]
      ensures r == VmCommand("remove", mid, lab, resp)
    {
      VmCommand("remove", mid, lab, resp)
    }

    /** `own_machine`: the body is posted as given; an accepted answer yields
        `(resp['success'], resp['status'])`, a rejected one the degraded pair. */
    function OwnMachine(mid: Value, hsh: string, diff: int, resp: Envelope): (r: Exchange<(Value, Value)>)
      ensures r.sent == [Request(POST, BaseUrl + Auth("/machines/own"), Some(OwnBody(mid, hsh, diff)), headers)]
      ensures !IsApiError(r.outcome)
      ensures ValidateResponse(resp).Return? && Lookup(resp, "status").Some? ==>
                r.outcome == Return((Str("1"), Lookup(resp, "status").value)) && r.printed == []
      ensures ValidateResponse(resp).Return? && Lookup(resp, "status").None? ==>
                r.outcome == Raise(KeyError("status")) && r.printed == []
      ensures IsApiError(ValidateResponse(resp)) ==>
                r.outcome == Return(Degraded) && r.printed == [RenderEntries(resp)]
      ensures Lookup(resp, "success").None? ==> r.outcome == Raise(KeyError("success")) && r.printed == []
    {
      var called := match Post(Auth("/machines/own"), Some(OwnBody(mid, hsh, diff)), resp).outcome
        case Return(d) => SuccessAndStatus(d)
        case Raise(e) => Raise(e);
      CatchApiError([Send(POST, Auth("/machines/own"), Some(OwnBody(mid, hsh, diff)))], called, Degraded, true)
    }

    /** own_machine_user and own_machine_root: true exactly when the answer is
        accepted, false when it is rejected, and nothing printed. */
    function OwnFlag(path: string, hsh: string, diff: int, resp: Envelope): (r: Exchange<bool>)
      ensures r.sent == [Request(POST, BaseUrl + Auth(path), Some(HashBody(hsh, diff)), headers)]
      ensures !IsApiError(r.outcome) && r.printed == []
      ensures r.outcome == Return(true) <==> ValidateResponse(resp).Return?
      ensures r.outcome == Return(false) <==> IsApiError(ValidateResponse(resp))
      ensures Lookup(resp, "success").None? ==> r.outcome == Raise(KeyError("success"))
    {
      var called := match Post(Auth(path), Some(HashBody(hsh, diff)), resp).outcome
        case Return(_) => Return(true)
        case Raise(e) => Raise(e);
      CatchApiError([Send(POST, Auth(path), Some(HashBody(hsh, diff)))], called, false, false)
    }

    function OwnMachineUser(mid: Value, hsh: string, diff: int, resp: Envelope): (r: Exchange<bool>)
      ensures r.sent == [Request(POST, BaseUrl + Auth("/machines/own/user/" + PyStr(mid) + "/"), Some(HashBody(hsh, diff)), headers)]
      ensures r == OwnFlag("/machines/own/user/" + PyStr(mid) + "/", hsh, diff, resp)
    {
      OwnFlag("/machines/own/user/" + PyStr(mid) + "/", hsh, diff, resp)
    }

    function OwnMachineRoot(mid: Value, hsh: string, diff: int, resp: Envelope): (r: Exchange<bool>)
      ensures r.sent == [Request(POST, BaseUrl + Auth("/machines/own/root/" + PyStr(mid) + "/"), Some(HashBody(hsh, diff)), headers)]
      ensures r == OwnFlag("/machines/own/root/" + PyStr(mid) + "/", hsh, diff, resp)
    {
      OwnFlag("/machines/own/root/" + PyStr(mid) + "/", hsh, diff, resp)
    }

    /** `reset_machine`: validated, and a rejection propagates. */
    function ResetMachine(mid: Value, resp: Envelope): (r: Exchange<Envelope>)
      ensures r.sent == [Request(POST, BaseUrl + Auth("/vm/reset/" + PyStr(mid) + "/"), None, headers)]
      ensures r.outcome == ValidateResponse(resp) && r.printed == []
    {
      Post(Auth("/vm/reset/" + PyStr(mid) + "/"), None, resp)
    }
  }

  /** `HTB(api_key)` with the default User-Agent header. */
  function NewClient(apiKey: string, userAgent: string := DefaultUserAgent): (c: Client)
    ensures c.apiKey == apiKey
    ensures Lookup(c.headers, "User-Agent") == Some(Str(userAgent))
    ensures |c.headers| == 1
  {
    Client(apiKey, [("User-Agent", Str(userAgent))])
  }

  /** `_auth` only appends: the path is a prefix and the token the suffix, so
      different paths give different authenticated paths. */
  lemma AuthAppendsToken(c: Client, p: string, q: string)
    ensures c.Auth(p)[..|p|] == p && c.Auth(p)[|p|..] == "?api_token=" + c.apiKey
    ensures c.Auth(p) == c.Auth(q) ==> p == q
  {
    if c.Auth(p) == c.Auth(q) {
      assert |p| == |q|;
      assert p == c.Auth(p)[..|p|];
    }
  }

  /** Spawning or terminating two different machines targets two different URLs. */
  lemma VmPathsDistinguishMachines(c: Client, lab: string, action: string, m1: int, m2: int)
    requires m1 != m2
    ensures c.Auth(VmPath(lab, action, Int(m1))) != c.Auth(VmPath(lab, action, Int(m2)))
  {
    var p := "/vm/" + lab + "/" + action + "/";
    var s1, s2 := IntToString(m1), IntToString(m2);
    if c.Auth(VmPath(lab, action, Int(m1))) == c.Auth(VmPath(lab, action, Int(m2))) {
      AuthAppendsToken(c, p + s1, p + s2);
      assert (p + s1)[|p|..] == s1 && (p + s2)[|p|..] == s2;
      IntToStringInjective(m1, m2);
    }
  }

  /** Which read-only endpoints validate their answer and which return it as is. */
  lemma ValidationPolicy(c: Client, resp: Envelope, body: Value)
    ensures c.GlobalStats(resp).outcome == ValidateResponse(resp)
    ensures c.VpnFreeslots(resp).outcome == ValidateResponse(resp)
    ensures c.VpnStatusall(resp).outcome == ValidateResponse(resp)
    ensures c.OverviewStats(body).outcome == Return(body)
    ensures c.ListConversations(body).outcome == Return(body)
    ensures c.ConnectionStatus(body).outcome == Return(body)
    ensures c.FortressConnectionStatus(body).outcome == Return(body)
    ensures c.GetOwns(body).outcome == Return(body)
    ensures c.GetMachines(body).outcome == Return(body)
    ensures forall mid :: c.GetMachine(mid, body).outcome == Return(body)
  {
  }

  /** The mutating operations never let an HTBAPIError reach their caller. */
  lemma MutatingCallsAbsorbApiErrors(c: Client, mid: Value, lab: string, hsh: string, diff: int, resp: Envelope)
    ensures !IsApiError(c.SpawnMachine(mid, resp, lab).outcome)
    ensures !IsApiError(c.TerminateMachine(mid, resp, lab).outcome)
    ensures !IsApiError(c.OwnMachine(mid, hsh, diff, resp).outcome)
    ensures !IsApiError(c.OwnMachineUser(mid, hsh, diff, resp).outcome)
    ensures !IsApiError(c.OwnMachineRoot(mid, hsh, diff, resp).outcome)
    ensures IsApiError(ValidateResponse(resp)) ==> IsApiError(c.ResetMachine(mid, resp).outcome)
  {
  }

  /** A misspelt lab is refused before any request is built. */
  lemma SwitchVpnRejectsMisspeltLab(c: Client, body: Value)
    ensures c.SwitchVpn("uswip", body).sent == []
    ensures c.SwitchVpn("uswip", body).outcome == Raise(HTBAPIError("invalid lab", ""))
  {
    assert "uswip" != "usvip" && "uswip" != "usfree" && "uswip" != "eufree";
    assert "uswip" != "euvip" && "uswip" != "euvipbeta";
  }

  /** A body accepted by the server never comes back from spawn as written. */
  lemma SpawnAsWrittenNeverReturns(c: Client, mid: Value, lab: string)
    ensures c.SpawnMachine(mid, [("success", Str("1")), ("id", Int(5)), ("status", Str("spawning"))], lab).outcome
            == Raise(AttributeError("json"))
  {
  }

  /** The same body through the intended spawn yields ("1", "spawning"). */
  lemma SpawnIntendedReturnsStatus(c: Client, mid: Value, lab: string)
    ensures c.VmCommandIntended("assign", mid, lab, [("success", Str("1")), ("id", Int(5)), ("status", Str("spawning"))]).outcome
            == Return((Str("1"), Str("spawning")))
  {
  }

  /** A rejected spawn degrades and prints the body. */
  lemma SpawnRejectedDegrades(c: Client, mid: Value)
    ensures c.SpawnMachine(mid, [("success", Str("0")), ("message", Str("already spawned"))]).outcome == Return(Degraded)
    ensures c.SpawnMachine(mid, [("success", Str("0")), ("message", Str("already spawned"))]).printed
            == ["success: 0" + "\n" + "message: already spawned"]
  {
    var resp: Envelope := [("success", Str("0")), ("message", Str("already spawned"))];
    assert Lookup(resp, "success") == Some(Str("0"));
    assert IsApiError(ValidateResponse(resp));
    assert c.SpawnMachine(mid, resp).printed == [RenderEntries(resp)];
    RejectedBodyRendering();
  }

  /** The two-line rendering of the rejected spawn body. */
  lemma RejectedBodyRendering()
    ensures RenderEntries([("success", Str("0")), ("message", Str("already spawned"))])
            == "success: 0" + "\n" + "message: already spawned"
  {
    var resp: Entries := [("success", Str("0")), ("message", Str("already spawned"))];
    assert EntryLine(resp[0]) == "success: 0";
    assert EntryLine(resp[1]) == "message: already spawned";
    assert EntryLines(resp) == ["success: 0", "message: already spawned"];
  }
}
