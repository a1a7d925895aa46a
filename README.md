# htb — a Dafny model of the Hack the Box API client

The `htb` package wraps the Hack the Box HTTP API (`htb/__init__.py`) and
puts a small command-line tool on top of it (`htb/__main__.py`). This project
models the deterministic part of both: how answers are validated, how
authenticated paths are built, what every remote operation sends and returns
for a given answer, how ownership records are merged into the machine list,
how box names are resolved, how the `list` command filters machines, and how
the `spawn`, `terminate`, `own` and `reset` commands end.

The network is not modelled. Each operation takes the body the server answers
with, already decoded from JSON, as a parameter. It yields an `Exchange`: the
requests it sends, its `Outcome` (a returned value, or a raised
`HTBAPIError`, `KeyError` or `AttributeError`) and the lines it prints.

Files:

- `values.dfy` (module `Values`): decoded JSON values and the Python string
  conversions the client relies on. This covers `str()` of a value, `"\n".join`,
  `str.split`, decimal formatting of ints, and ASCII `lower`/`capitalize`.
  A JSON object is an `Envelope`: an insertion-ordered sequence of entries
  with distinct keys, as in a Python dict.
- `htb.dfy` (module `Htb`): `HTBAPIError`, `_validate_response`, `_auth`, and
  every method of `HTB` as a function of the server's answer.
- `machines.dfy` (module `Machines`): the pure functions of `htb/__main__.py`.
  These are the ownership lookup and `add_owns`, the specification of
  `get_id`, the `list` filter and `format_value`.
- `cli.dfy` (module `Cli`): the module-level state of `htb/__main__.py` as a
  class `Session`. Its loops are `load_machines` and `get_id`. It also holds
  the four mutating commands.

## Model

| member | source | states |
|---|---|---|
| `Values.Lookup` | htb/__init__.py:36 | indexing a dict finds a value exactly when some entry has the key, and the value found belongs to such an entry |
| `Values.LookupEntry` | htb/__init__.py:36 | in a dict (distinct keys) every entry is what indexing by its own key yields |
| `Values.IntToStringRoundTrip` | htb/__init__.py:99 | `'{}'.format(n)` of an int parses back to `n` |
| `Values.IntToStringInjective` | htb/__init__.py:206 | two different ids never format to the same text |
| `Values.JoinPartAt` | htb/__init__.py:37 | every part of a `"\n".join` occurs unchanged at its computed offset in the result |
| `Values.SplitJoin` | htb/__init__.py:37 | splitting a join on a separator that occurs in no part gives the parts back |
| `Values.RenderShowsEntry` | htb/__init__.py:37 | the `k: v` rendering of a dict contains every key and every `k: v` line |
| `Values.RenderSplitsIntoEntries` | htb/__init__.py:37 | when no key and no top-level string value holds a newline, the rendering splits back into one line per entry, in order (nested values never break a line) |
| `Values.StrReprRoundTrip` | htb/__init__.py:37 | `repr` of a nested string is its quote (double only when the text holds a single quote and no double one), the escaped text and the quote again, and the escaped text reads back to the string |
| `Values.UnescapeEscapeAll` | htb/__init__.py:37 | reading back the backslash, quote, `\t`, `\n`, `\r` and `\xHH` escapes of a repr gives the original text |
| `Values.ReprHasNoNewline` | htb/__init__.py:37 | `repr` of any decoded value (list, dict, string, number) is a single line |
| `Values.StrHasNewlineOnlyInStrings` | htb/__init__.py:37 | `str(v)` holds a newline only when `v` is a string holding one |
| `Values.NestedNewlineIsEscaped` | htb/__init__.py:37 | `str(['a\nb'])` prints the newline as the two characters backslash and `n` |
| `Htb.ValidateResponse` | htb/__init__.py:29-39 | passes the body through unchanged iff `success` is exactly the string "1"; a present `success` with any other value (int 1, True included) raises `HTBAPIError("success != 1")` with the `k: v` rendering of the whole body; a missing `success` raises KeyError, never `HTBAPIError` |
| `Htb.RejectionNamesEveryEntry` | htb/__init__.py:36-38 | a rejection's message contains every key and every `k: v` line of the body |
| `Htb.RejectionMessageRecoversEntries` | htb/__init__.py:37-38 | a rejection's message splits back into the body's entries, in order, when no key and no top-level string value holds a newline |
| `Htb.OnlyTheStringOneIsSuccess` | htb/__init__.py:36 | validation succeeds iff the `success` value is the string "1"; int 1 and True are rejected |
| `Htb.NewClient` | htb/__init__.py:24-26 | the client keeps the key it is given, and its headers are exactly one `User-Agent` header with the given agent, so the key travels only in `_auth` query strings |
| `Htb.AuthAppendsToken` | htb/__init__.py:61-69 | `_auth(p)` is `p` followed by `?api_token=<key>`, with no normalisation; different paths stay different |
| `Htb.VmPathsDistinguishMachines` | htb/__init__.py:206 | spawn or terminate requests for two different machine ids go to two different URLs |
| `Htb.Client.DailyOwns` | htb/__init__.py:91-99 | posts to `/stats/daily/owns/<count>` (count 30 by default), without the token, validates the answer and prints nothing |
| `Htb.ValidationPolicy` | htb/__init__.py:71-194 | global stats, VPN free slots and VPN status validate their answer; overview, conversations, connection status, fortress status, owns, machines and machine return it unchecked |
| `Htb.Client.SwitchVpn` | htb/__init__.py:152-166 | a lab outside usfree, eufree, usvip, euvip, euvipbeta raises `HTBAPIError("invalid lab")` and sends nothing; a listed lab posts to `_auth('/labs/switch/<lab>/')` and returns the answer unchecked; prints nothing |
| `Htb.SwitchVpnRejectsMisspeltLab` | htb/__init__.py:163-164 | `switch_vpn("uswip")` raises before any request |
| `Htb.Client.VmCommand` | htb/__init__.py:196-226 | spawn/terminate post to `/vm/<lab>/<action>/<id>`; a rejected answer gives `(False, "An Error Occurred")` and prints the rejection message; an accepted one raises AttributeError from `.json()`; no `HTBAPIError` escapes |
| `Htb.Client.SpawnMachine` | htb/__init__.py:196-210 | posts to `_auth('/vm/<lab>/assign/<id>')`, lab "vip" by default, with the result mapping of `VmCommand` |
| `Htb.Client.TerminateMachine` | htb/__init__.py:212-226 | posts to `_auth('/vm/<lab>/remove/<id>')`, lab "vip" by default, with the result mapping of `VmCommand` |
| `Htb.Client.VmCommandIntended` | htb/__init__.py:205-210 | spawn/terminate without the stray `.json()`: an accepted answer returns `("1", status)` and prints nothing, or raises KeyError when `status` is missing; a rejected one degrades and prints the message; a missing `success` raises KeyError; no `HTBAPIError` escapes |
| `Htb.SpawnAsWrittenNeverReturns` | htb/__init__.py:205-207 | the accepted body `{"success": "1", "id": 5, "status": "spawning"}` makes spawn raise AttributeError |
| `Htb.SpawnIntendedReturnsStatus` | htb/__init__.py:205-207 | the same body through the intended spawn returns `("1", "spawning")` |
| `Htb.SpawnRejectedDegrades` | htb/__init__.py:205-210 | `{"success": "0", "message": "already spawned"}` gives `(False, "An Error Occurred")` and prints `success: 0` and `message: already spawned` on two lines |
| `Htb.Client.OwnMachine` | htb/__init__.py:228-243 | posts `{"id", "flag", "difficulty"}` unchanged to `_auth('/machines/own')`; accepted: `("1", status)`, or KeyError when `status` is missing; rejected: `(False, "An Error Occurred")` with the message printed; a missing `success` raises KeyError with nothing printed |
| `Htb.Client.OwnFlag` | htb/__init__.py:245-277 | posts `{"hash", "diff"}`; returns True iff the answer is accepted, False iff it is rejected, raises KeyError when `success` is missing, prints nothing, never raises `HTBAPIError` |
| `Htb.Client.OwnMachineUser` | htb/__init__.py:245-260 | posts to `_auth('/machines/own/user/<id>/')` with the result mapping of `OwnFlag` |
| `Htb.Client.OwnMachineRoot` | htb/__init__.py:262-277 | posts to `_auth('/machines/own/root/<id>/')` with the result mapping of `OwnFlag` |
| `Htb.Client.ResetMachine` | htb/__init__.py:279-287 | posts to `_auth('/vm/reset/<id>/')` and validates; a rejection propagates; prints nothing |
| `Htb.MutatingCallsAbsorbApiErrors` | htb/__init__.py:205-287 | spawn, terminate, own, own-user and own-root never raise `HTBAPIError` to their caller; reset does |
| `Machines.OwnsByIdLastWins` | htb/__main__.py:75-76 | the lookup built by `dict(zip(ids, owns))` has exactly the records' ids, each mapped to the last record with that id |
| `Machines.OwnsByIdAppend` | htb/__main__.py:76 | the lookup of concatenated records is the earlier lookup overridden by the later one |
| `Machines.Reconcile` | htb/__main__.py:60-77 | the reconciled list has the fetched list's length and order; id, name, retired and every other entry are unchanged; `active == not retired` |
| `Machines.ReconcileOwnership` | htb/__main__.py:70-71 | `owned_user`/`owned_root` are False when no record has the machine's id, and otherwise those of the last record with that id |
| `Machines.ForeignRecordIgnored` | htb/__main__.py:70-76 | a record whose id names no fetched machine changes nothing, wherever it stands |
| `Machines.ReconcileExample` | htb/__main__.py:65-77 | machine Foo with record `{id 1, owned_user True, owned_root False}` becomes owned at user level and active |
| `Machines.FindId` | htb/__main__.py:79-87 | None iff no machine's lower-cased name equals the lower-cased query; otherwise the id of the first machine that matches |
| `Machines.FilterKeepsOrderAndMembers` | htb/__main__.py:134-144 | the listed machines are an order-preserving subsequence of the input, a machine is listed iff it is in the input and passes `filter_machine`, and every passing machine is listed as often as it occurs in the input |
| `Machines.FilterAllowAll` | htb/__main__.py:134-138 | with `--retired` and without `--incomplete` every machine is listed |
| `Machines.FormatValue` | htb/__main__.py:89-96 | a dict becomes its `k: v` lines joined by newlines; anything else is returned as is |
| `Machines.FormatValueIdempotent` | htb/__main__.py:94-96 | formatting an already formatted value changes nothing |
| `Cli.FormatValueMatchesRejection` | htb/__main__.py:94-95 | `format_value` renders a body exactly as a rejection message renders it |
| `Cli.ServerDifficulty` | htb/__main__.py:193 | the difficulty sent is the rating times ten (a multiple of ten whose tenth is the rating), so ratings 1..10 become 10..100 |
| `Cli.Session.constructor` | htb/__main__.py:15-17 | the session holds a client for the configured key and lab and no machines yet |
| `Cli.Session.LoadMachines` | htb/__main__.py:60-77 | after loading, the session's machines are `Reconcile(owns, fetched)` |
| `Cli.Session.GetId` | htb/__main__.py:79-87 | the loop returns `FindId(machines, name)` |
| `Cli.Session.DoSpawn` | htb/__main__.py:168-181 | on the free lab: no request, advice printed, exit 1; otherwise one spawn request on lab "vip" for the resolved id; a rejection prints the message and exits 0; an acceptance crashes with AttributeError and a missing `success` with KeyError, both after printing only the attempt line |
| `Cli.Session.DoTerminate` | htb/__main__.py:197-209 | the same guard and outcomes as `DoSpawn`, with a remove request |
| `Cli.Session.DoOwn` | htb/__main__.py:183-195 | submits the flag for the resolved id with `difficulty * 10`; accepted: prints the status and exits 1; accepted without `status`: crashes with KeyError; rejected: prints the rejection and "An Error Occurred" and exits 0; a missing `success`: crashes with KeyError after the attempt line |
| `Cli.Session.DoReset` | htb/__main__.py:211-220 | one reset request for the resolved id; accepted: prints the body through `format_value` and exits 0; rejected: crashes with the `HTBAPIError`; a missing `success`: crashes with KeyError; both after printing only the attempt line |
| `Cli.SysExitInvertsOwnResult` | htb/__main__.py:193-195 | `sys.exit("1")` gives status 1 and `sys.exit(False)` gives status 0 |
| `Cli.IntendedExit` | htb/__main__.py:181 | status 0 exactly for a truthy result, 1 otherwise |
| `Cli.IntendedExitMatchesOwn` | htb/__main__.py:193-195 | with the intended status, `own` exits 0 exactly when the server accepted the flag |

## Left out

- The HTTP transport (`requests`), JSON decoding and network failures are not modelled. Each operation takes the decoded answer as a parameter. The `User-Agent` header is kept only as request data.
- Configuration handling is not modelled (`init_config`, `load_config`, `write_config`, `print_config`, `do_config`). It is file I/O through configparser. The session takes the key and lab as constructor arguments.
- Argument parsing and help (`parse_args`, `show_help`) are not modelled. Neither is the `__main__` block. Its test `"commmand" not in args` always holds, so as written the tool prints help and exits 1 before any command runs.
- `do_list`'s output is not modelled (quiet-mode separators, field selection, `tabulate`). Neither are `print_machine`, `print_machine_list` or `do_info`. Only the list filter is modelled.
- Standard error is not modelled. That covers tracebacks and the value `sys.exit` prints for a non-integer argument. Exit statuses are not reduced modulo 256.
- JSON floats are not modelled. Case mapping is ASCII only, where Python's `lower` and `capitalize` cover all of Unicode.
- `Values.StrRepr`: non-ASCII characters are kept as they are. Python's `repr` also escapes non-printable non-ASCII characters (as `\xHH`, `\uHHHH` or `\UHHHHHHHH`), and the model does not.
- A machine's `retired` flag and a record's `owned_user`/`owned_root` flags are booleans in the model. Truthiness of other JSON values there is not modelled.
- `add_owns` mutates each fetched machine dict in place. The model builds new records instead. Nothing else refers to those dicts, so only the object identity of the records is lost.
- `requests` drops form fields whose value is None, as happens for an unresolved box in `own`. That is not modelled. The body is kept as the dict the client passes.
- `Machines.FormatValue`: nested dicts are rendered from their entries in order. Duplicate keys in a nested dict are not excluded.

## Findings

| source | as written | input that shows it | evidently intended | confidence | as-written member | corrected member |
|---|---|---|---|---|---|---|
| htb/__init__.py:206 | spawn and terminate call `.json()` on the dict `_post` already returned, so every accepted call raises AttributeError | answer `{"success": "1", "id": 5, "status": "spawning"}` | return `("1", "spawning")` | high; not executed | `Htb.SpawnAsWrittenNeverReturns` | `Htb.Client.VmCommandIntended` |
| htb/__main__.py:193-195 | `sys.exit(res)` exits 1 when the call succeeded (`res == "1"`) and 0 when it failed (`res == False`) | `own` with a rejected answer exits 0 | exit 0 on success, non-zero on failure | medium; not executed | `Cli.SysExitInvertsOwnResult` | `Cli.IntendedExit` |

The commands in `Cli.Session` keep the behaviour as written. `Htb.Client.VmCommandIntended`
and `Cli.IntendedExit` state what the corrected client would do. The lemmas
`Htb.SpawnIntendedReturnsStatus` and `Cli.IntendedExitMatchesOwn` prove the
intended properties about them.
