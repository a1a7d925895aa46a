/**
 * The command-line side of htb/__main__.py: the module-level state (the API
 * client, the configured lab and the reconciled machine list), loading the
 * machines, resolving box names, and the spawn, terminate, own and reset
 * commands.
 *
 * A command is a method that returns a Run: the requests it sends, the lines
 * it prints to standard output, and how the process ends.
 */
module Cli {
  import opened Values
  import opened Htb
  import opened Machines

  const FreeSpawnAdvice: string := "Free users cannot spawn machines. Please use reset instead."
  const FreeTerminateAdvice: string := "Free users cannot terminate machines. Please use reset instead."
  const BePatient: string := ". This request often takes ~30 seconds, so be patient please..."

  /** How the process ends: `sys.exit(code)`, or an exception nobody caught. */
  datatype Termination = Exit(code: int) | Crash(error: PyError)

  datatype Run = Run(sent: seq<Request>, printed: seq<string>, end: Termination)

  /** The status `sys.exit(v)` gives the process: None is 0, a bool or an
      int is its integer value, anything else is printed to standard error
      and gives 1. */
  function SysExit(v: Value): int
  {
    match v
    case Null => 0
    case Bool(b) => if b then 1 else 0
    case Int(i) => i
    case _ => 1
  }

  /** What `get_id` hands to the API: the id, or None when no box matched. */
  function IdArg(id: Option<int>): Value
  {
    match id
    case Some(i) => Int(i)
    case None => Null
  }

  /** The difficulty the `own` command sends: the 1-10 rating times ten. */
  function ServerDifficulty(rating: int): (d: int)
    ensures d % 10 == 0 && d / 10 == rating
    ensures 1 <= rating <= 10 ==> 10 <= d <= 100
  {
    rating * 10
  }

  /** The line `do_own` prints before submitting the flag. */
  function OwnAttempt(box: string, flag: string, difficulty: int): string
  {
    "Attempting to own " + Capitalize(box) + " with flag: " + flag +
    " and rating: " + IntToString(difficulty) + "/9..."
  }

  /** `res, message = <call>`, optionally `print(message)`, then `sys.exit(res)`. */
  function Finish(printed: seq<string>, ex: Exchange<(Value, Value)>, echo: bool): Run
  {
    match ex.outcome
    case Return((res, message)) =>
      Run(ex.sent, printed + ex.printed + (if echo then [PyStr(message)] else []), Exit(SysExit(res)))
    case Raise(e) => Run(ex.sent, printed + ex.printed, Crash(e))
  }

  /** Python truthiness of a decoded value. */
  predicate Truthy(v: Value)
  {
    match v
    case Null => false
    case Bool(b) => b
    case Int(i) => i != 0
    case Str(s) => s != ""
    case List(items) => items != []
    case Dict(fields) => fields != []
  }

  /** The exit status the commands evidently intend: 0 for a successful
      call, 1 for a failed one. */
  function IntendedExit(res: Value): (code: int)
    ensures code == 0 <==> Truthy(res)
    ensures code == 0 || code == 1
  {
    if Truthy(res) then 0 else 1
  }

  /** As written, `sys.exit(res)` reports the success marker "1" as status 1
      and the degraded `False` as status 0: success and failure are swapped. */
  lemma SysExitInvertsOwnResult()
    ensures SysExit(Str("1")) == 1
    ensures SysExit(Degraded.0) == 0
  {
  }

  /** With the intended status, `own` exits 0 exactly when the server
      accepted the flag. */
  lemma IntendedExitMatchesOwn(c: Client, mid: Value, hsh: string, diff: int, resp: Envelope)
    requires c.OwnMachine(mid, hsh, diff, resp).outcome.Return?
    ensures IntendedExit(c.OwnMachine(mid, hsh, diff, resp).outcome.value.0) == 0
            <==> ValidateResponse(resp).Return?
  {
  }

  /** `format_value` renders a dict exactly as a rejection message renders
      the body. */
  lemma FormatValueMatchesRejection(resp: Envelope)
    requires IsApiError(ValidateResponse(resp))
    ensures FormatValue(Dict(resp)) == Str(ValidateResponse(resp).error.message)
  {
  }

  /** The module-level globals of htb/__main__.py once configured. */
  class Session {
    var api: Client
    var lab: string
    var machines: seq<Machine>

    /** `init_api(apiKey)` with the lab read from the configuration. */
    constructor (apiKey: string, lab: string)
      ensures api == NewClient(apiKey) && this.lab == lab && machines == []
    {
      api := NewClient(apiKey);
      this.lab := lab;
      machines := [];
    }

    /** `load_machines`: build the ownership lookup, then annotate every
        fetched machine with it. */
    method LoadMachines(owns: seq<OwnRecord>, fetched: seq<Machine>)
      modifies this`machines
      ensures machines == Reconcile(owns, fetched)
    {
      var owned: map<int, OwnRecord> := map[];
      var i := 0;
      while i < |owns|
        invariant 0 <= i <= |owns|
        invariant owned == OwnsById(owns[..i])
      {
        assert owns[..i + 1][..i] == owns[..i];
        owned := owned[owns[i].id := owns[i]];
        i := i + 1;
      }
      assert owns[..|owns|] == owns;
      var result: seq<Machine> := [];
      var k := 0;
      while k < |fetched|
        invariant 0 <= k <= |fetched|
        invariant |result| == k
        invariant forall j | 0 <= j < k :: result[j] == AddOwns(owned, fetched[j])
      {
        result := result + [AddOwns(owned, fetched[k])];
        k := k + 1;
      }
      machines := result;
    }

    /** `get_id`: scan the machines in order and return the first id whose
        name matches ignoring case. */
    method GetId(name: string) returns (id: Option<int>)
      ensures id == FindId(machines, name)
    {
      var i := 0;
      assert machines[0..] == machines;
      while i < |machines|
        invariant 0 <= i <= |machines|
        invariant FindId(machines[i..], name) == FindId(machines, name)
      {
        if Lower(machines[i].name) == Lower(name) {
          return Some(machines[i].id);
        }
        assert machines[i..][1..] == machines[i + 1..];
        i := i + 1;
      }
      return None;
    }

    /** `do_spawn`: refused locally on the free lab; otherwise spawn on the
        default "vip" lab and exit with the returned success value. */
    method DoSpawn(box: string, resp: Envelope) returns (run: Run)
      ensures lab == "free" ==> run == Run([], [FreeSpawnAdvice], Exit(1))
      ensures lab != "free" ==>
                run.sent == [api.Send(POST, api.Auth(VmPath("vip", "assign", IdArg(FindId(machines, box)))), None)]
      ensures lab != "free" && ValidateResponse(resp).Return? ==>
                run.printed == ["Attempting to spawn " + Capitalize(box) + BePatient] &&
                run.end == Crash(AttributeError("json"))
      ensures lab != "free" && IsApiError(ValidateResponse(resp)) ==>
                run.printed == ["Attempting to spawn " + Capitalize(box) + BePatient, RenderEntries(resp)] &&
                run.end == Exit(0)
      ensures lab != "free" && Lookup(resp, "success").None? ==>
                run.printed == ["Attempting to spawn " + Capitalize(box) + BePatient] &&
                run.end == Crash(KeyError("success"))
    {
      if lab == "free" {
        return Run([], [FreeSpawnAdvice], Exit(1));
      }
      var attempt := "Attempting to spawn " + Capitalize(box) + BePatient;
      var id := GetId(box);
      run := Finish([attempt], api.SpawnMachine(IdArg(id), resp), false);
    }

    /** `do_terminate`: the same guard and exit mapping as `do_spawn`. */
    method DoTerminate(box: string, resp: Envelope) returns (run: Run)
      ensures lab == "free" ==> run == Run([], [FreeTerminateAdvice], Exit(1))
      ensures lab != "free" ==>
                run.sent == [api.Send(POST, api.Auth(VmPath("vip", "remove", IdArg(FindId(machines, box)))), None)]
      ensures lab != "free" && ValidateResponse(resp).Return? ==>
                run.printed == ["Attempting to terminate " + Capitalize(box) + BePatient] &&
                run.end == Crash(AttributeError("json"))
      ensures lab != "free" && IsApiError(ValidateResponse(resp)) ==>
                run.printed == ["Attempting to terminate " + Capitalize(box) + BePatient, RenderEntries(resp)] &&
                run.end == Exit(0)
      ensures lab != "free" && Lookup(resp, "success").None? ==>
                run.printed == ["Attempting to terminate " + Capitalize(box) + BePatient] &&
                run.end == Crash(KeyError("success"))
    {
      if lab == "free" {
        return Run([], [FreeTerminateAdvice], Exit(1));
      }
      var attempt := "Attempting to terminate " + Capitalize(box) + BePatient;
      var id := GetId(box);
      run := Finish([attempt], api.TerminateMachine(IdArg(id), resp), false);
    }

    /** `do_own`: submit the flag with the rating scaled by ten, print the
        returned message and exit with the returned success value. */
    method DoOwn(box: string, flag: string, difficulty: int, resp: Envelope) returns (run: Run)
      ensures run.sent == [api.Send(POST, api.Auth("/machines/own"),
                                    Some(OwnBody(IdArg(FindId(machines, box)), flag, ServerDifficulty(difficulty))))]
      ensures ValidateResponse(resp).Return? && Lookup(resp, "status").Some? ==>
                run.end == Exit(1) &&
                run.printed == [OwnAttempt(box, flag, difficulty), PyStr(Lookup(resp, "status").value)]
      ensures ValidateResponse(resp).Return? && Lookup(resp, "status").None? ==>
                run.end == Crash(KeyError("status")) && run.printed == [OwnAttempt(box, flag, difficulty)]
      ensures IsApiError(ValidateResponse(resp)) ==>
                run.end == Exit(0) &&
                run.printed == [OwnAttempt(box, flag, difficulty), RenderEntries(resp), "An Error Occurred"]
      ensures Lookup(resp, "success").None? ==>
                run.end == Crash(KeyError("success")) && run.printed == [OwnAttempt(box, flag, difficulty)]
    {
      var attempt := OwnAttempt(box, flag, difficulty);
      var id := GetId(box);
      run := Finish([attempt], api.OwnMachine(IdArg(id), flag, ServerDifficulty(difficulty), resp), true);
    }

    /** `do_reset`: no guard; the answer is validated, and an accepted one is
        printed through `format_value`, a rejected one crashes the command. */
    method DoReset(box: string, resp: Envelope) returns (run: Run)
      ensures run.sent == [api.Send(POST, api.Auth("/vm/reset/" + PyStr(IdArg(FindId(machines, box))) + "/"), None)]
      ensures ValidateResponse(resp).Return? ==>
                run.printed == ["Attempting to reset " + Capitalize(box) + BePatient, RenderEntries(resp)] &&
                run.end == Exit(0)
      ensures IsApiError(ValidateResponse(resp)) ==>
                run.printed == ["Attempting to reset " + Capitalize(box) + BePatient] &&
                run.end == Crash(HTBAPIError("success != 1", RenderEntries(resp)))
      ensures Lookup(resp, "success").None? ==>
                run.printed == ["Attempting to reset " + Capitalize(box) + BePatient] &&
                run.end == Crash(KeyError("success"))
    {
      var attempt := "Attempting to reset " + Capitalize(box) + BePatient;
      var id := GetId(box);
      var ex := api.ResetMachine(IdArg(id), resp);
      match ex.outcome
      case Return(response) =>
        run := Run(ex.sent, [attempt, PyStr(FormatValue(Dict(response)))], Exit(0));
      case Raise(e) =>
        run := Run(ex.sent, [attempt], Crash(e));
    }
  }
}
