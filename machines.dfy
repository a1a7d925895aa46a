/**
 * The machine records of htb/__main__.py and the pure logic around them:
 * merging ownership records into the machine list (`load_machines` and its
 * `add_owns`), resolving a box name to its id (`get_id`), the filter of the
 * `list` command and `format_value`.
 */
module Machines {
  import opened Values

  /** A machine as `get_machines` lists it. `ownedUser`, `ownedRoot` and
      `active` are the entries `add_owns` sets; `details` holds every other
      entry (os, rating, ...), which the client never changes. */
  datatype Machine = Machine(
    id: int,
    name: string,
    retired: bool,
    ownedUser: bool,
    ownedRoot: bool,
    active: bool,
    details: Entries)

  /** One entry of `get_owns`: what the user has owned on machine `id`. */
  datatype OwnRecord = OwnRecord(id: int, ownedUser: bool, ownedRoot: bool)

  /** `dict(zip([m['id'] for m in owns], owns))`: later records overwrite
      earlier ones with the same id. */
  function OwnsById(owns: seq<OwnRecord>): map<int, OwnRecord>
  {
    if owns == [] then map[]
    else OwnsById(owns[..|owns| - 1])[owns[|owns| - 1].id := owns[|owns| - 1]]
  }

  /** The lookup holds exactly the ids of the records, each mapped to the
      last record carrying that id. */
  lemma {:induction false} OwnsByIdLastWins(owns: seq<OwnRecord>, id: int)
    ensures id in OwnsById(owns) <==> exists i | 0 <= i < |owns| :: owns[i].id == id
    ensures id in OwnsById(owns) ==>
              exists i | 0 <= i < |owns| :: owns[i].id == id && OwnsById(owns)[id] == owns[i] &&
                                            forall j | i < j < |owns| :: owns[j].id != id
  {
    if owns != [] {
      var init := owns[..|owns| - 1];
      var last := owns[|owns| - 1];
      OwnsByIdLastWins(init, id);
      if last.id != id {
        if id in OwnsById(owns) {
          var i :| 0 <= i < |init| && init[i].id == id && OwnsById(init)[id] == init[i] &&
                   forall j | i < j < |init| :: init[j].id != id;
          assert owns[i] == init[i];
          assert forall j | i < j < |owns| :: owns[j].id != id by {
            forall j | i < j < |owns| ensures owns[j].id != id {
              if j < |init| { assert owns[j] == init[j]; }
            }
          }
        }
        if exists i | 0 <= i < |owns| :: owns[i].id == id {
          var i :| 0 <= i < |owns| && owns[i].id == id;
          assert i < |init| && init[i] == owns[i];
        }
      }
    }
  }

  /** Appending records overrides the lookup built from the earlier ones. */
  lemma {:induction false} OwnsByIdAppend(a: seq<OwnRecord>, b: seq<OwnRecord>)
    ensures OwnsById(a + b) == OwnsById(a) + OwnsById(b)
  {
    if b == [] {
      assert a + b == a;
    } else {
      var init := b[..|b| - 1];
      OwnsByIdAppend(a, init);
      assert (a + b)[..|a + b| - 1] == a + init;
    }
  }

  /** `add_owns` for one machine. */
  function AddOwns(owned: map<int, OwnRecord>, m: Machine): Machine
  {
    m.(ownedUser := if m.id in owned then owned[m.id].ownedUser else false,
       ownedRoot := if m.id in owned then owned[m.id].ownedRoot else false,
       active := !m.retired)
  }

  /** `list(map(add_owns, machines))` with the lookup built from `owns`:
      same length and order, every fetched entry kept, `active` derived from
      `retired`. */
  function Reconcile(owns: seq<OwnRecord>, fetched: seq<Machine>): (r: seq<Machine>)
    ensures |r| == |fetched|
    ensures forall i | 0 <= i < |r| ::
              r[i].id == fetched[i].id && r[i].name == fetched[i].name &&
              r[i].retired == fetched[i].retired && r[i].details == fetched[i].details
    ensures forall i | 0 <= i < |r| :: r[i].active == !r[i].retired
  {
    var owned := OwnsById(owns);
    seq(|fetched|, i requires 0 <= i < |fetched| => AddOwns(owned, fetched[i]))
  }

  /** A machine no record names is marked as not owned; otherwise its flags
      are those of the last record with its id. */
  lemma ReconcileOwnership(owns: seq<OwnRecord>, fetched: seq<Machine>, i: nat)
    requires i < |fetched|
    ensures (forall j | 0 <= j < |owns| :: owns[j].id != fetched[i].id) ==>
              !Reconcile(owns, fetched)[i].ownedUser && !Reconcile(owns, fetched)[i].ownedRoot
    ensures (exists j | 0 <= j < |owns| :: owns[j].id == fetched[i].id) ==>
              exists j | 0 <= j < |owns| ::
                owns[j].id == fetched[i].id &&
                (forall k | j < k < |owns| :: owns[k].id != fetched[i].id) &&
                Reconcile(owns, fetched)[i].ownedUser == owns[j].ownedUser &&
                Reconcile(owns, fetched)[i].ownedRoot == owns[j].ownedRoot
  {
    OwnsByIdLastWins(owns, fetched[i].id);
  }

  /** A record whose id names no fetched machine changes nothing, wherever it
      stands among the records. */
  lemma ForeignRecordIgnored(a: seq<OwnRecord>, rec: OwnRecord, b: seq<OwnRecord>, fetched: seq<Machine>)
    requires forall i | 0 <= i < |fetched| :: fetched[i].id != rec.id
    ensures Reconcile(a + [rec] + b, fetched) == Reconcile(a + b, fetched)
  {
    OwnsByIdAppend(a + [rec], b);
    OwnsByIdAppend(a, [rec]);
    OwnsByIdAppend(a, b);
    assert OwnsById([rec]) == map[rec.id := rec] by {
      assert [rec][..0] == [];
    }
    var with := OwnsById(a + [rec] + b);
    var without := OwnsById(a + b);
    forall i | 0 <= i < |fetched|
      ensures AddOwns(with, fetched[i]) == AddOwns(without, fetched[i])
    {
      var id := fetched[i].id;
      assert id != rec.id;
      assert (id in with) == (id in without);
      assert id in with ==> with[id] == without[id];
    }
  }

  /** The worked example: machine Foo, owned at user level only. */
  lemma ReconcileExample()
    ensures Reconcile([OwnRecord(1, true, false)], [Machine(1, "Foo", false, false, false, false, [])])
            == [Machine(1, "Foo", false, true, false, true, [])]
  {
    assert OwnsById([OwnRecord(1, true, false)]) == map[1 := OwnRecord(1, true, false)] by {
      assert [OwnRecord(1, true, false)][..0] == [];
    }
  }

  // ---------------------------------------------------------------------
  // get_id

  /** `machine['name'].lower() == name.lower()` */
  predicate NameMatches(m: Machine, name: string) {
    Lower(m.name) == Lower(name)
  }

  /** The id of the first machine whose name matches `name` ignoring case. */
  function FindId(ms: seq<Machine>, name: string): (r: Option<int>)
    ensures r.None? <==> forall i | 0 <= i < |ms| :: !NameMatches(ms[i], name)
    ensures r.Some? ==> exists i | 0 <= i < |ms| ::
              ms[i].id == r.value && NameMatches(ms[i], name) &&
              forall j | 0 <= j < i :: !NameMatches(ms[j], name)
  {
    if ms == [] then None
    else if NameMatches(ms[0], name) then Some(ms[0].id)
    else
      var r := FindId(ms[1..], name);
      assert r.Some? ==> exists i | 0 <= i < |ms| ::
        ms[i].id == r.value && NameMatches(ms[i], name) &&
        forall j | 0 <= j < i :: !NameMatches(ms[j], name)
      by {
        if r.Some? {
          var k :| 0 <= k < |ms[1..]| && ms[1..][k].id == r.value && NameMatches(ms[1..][k], name) &&
                   forall j | 0 <= j < k :: !NameMatches(ms[1..][j], name);
          assert forall j | 0 <= j < k + 1 :: !NameMatches(ms[j], name) by {
            forall j | 0 <= j < k + 1 ensures !NameMatches(ms[j], name) {
              if j > 0 { assert ms[j] == ms[1..][j - 1]; }
            }
          }
          assert ms[k + 1] == ms[1..][k];
        }
      }
      r
  }

  // ---------------------------------------------------------------------
  // The filter of the `list` command

  /** `filter_machine`: with `incomplete`, only machines not owned at both
      levels; without `retired`, only machines still active. */
  predicate ListFilter(m: Machine, incomplete: bool, retired: bool) {
    var machineRetired := m.retired;
    var machineIncomplete := !m.ownedUser || !m.ownedRoot;
    (machineIncomplete || !incomplete) && (!machineRetired || retired)
  }

  /** `list(filter(filter_machine, machines))` */
  function FilterMachines(ms: seq<Machine>, incomplete: bool, retired: bool): seq<Machine>
  {
    if ms == [] then []
    else
      var rest := FilterMachines(ms[1..], incomplete, retired);
      if ListFilter(ms[0], incomplete, retired) then [ms[0]] + rest else rest
  }

  predicate IsSubsequence<T(==)>(sub: seq<T>, s: seq<T>)
    decreases |s|
  {
    if sub == [] then true
    else if s == [] then false
    else (sub[0] == s[0] && IsSubsequence(sub[1..], s[1..])) || IsSubsequence(sub, s[1..])
  }

  /** The listed machines are the kept ones, in their original order, each
      kept machine listed as many times as it occurs in the input. */
  lemma {:induction false} FilterKeepsOrderAndMembers(ms: seq<Machine>, incomplete: bool, retired: bool)
    ensures IsSubsequence(FilterMachines(ms, incomplete, retired), ms)
    ensures forall m :: m in FilterMachines(ms, incomplete, retired) <==> m in ms && ListFilter(m, incomplete, retired)
    ensures forall m :: multiset(FilterMachines(ms, incomplete, retired))[m] ==
                        if ListFilter(m, incomplete, retired) then multiset(ms)[m] else 0
  {
    if ms != [] {
      FilterKeepsOrderAndMembers(ms[1..], incomplete, retired);
      var rest := FilterMachines(ms[1..], incomplete, retired);
      if ListFilter(ms[0], incomplete, retired) {
        assert ([ms[0]] + rest)[1..] == rest;
      } else {
        if rest != [] { assert IsSubsequence(rest, ms[1..]); }
      }
      assert forall m :: m in ms <==> m == ms[0] || m in ms[1..];
      assert ms == [ms[0]] + ms[1..];
      assert multiset(ms) == multiset{ms[0]} + multiset(ms[1..]);
    }
  }

  /** With `--retired` and without `--incomplete` the list is the whole catalogue. */
  lemma {:induction false} FilterAllowAll(ms: seq<Machine>)
    ensures FilterMachines(ms, false, true) == ms
  {
    if ms != [] {
      FilterAllowAll(ms[1..]);
      assert [ms[0]] + ms[1..] == ms;
    }
  }

  // ---------------------------------------------------------------------
  // format_value

  /** `format_value`: a dict is rendered as its `k: v` lines; anything else
      is returned as it is. */
  function FormatValue(v: Value): (r: Value)
    ensures v.Dict? ==> r == Str(RenderEntries(v.fields))
    ensures !v.Dict? ==> r == v
  {
    if v.Dict? then Str(RenderEntries(v.fields)) else v
  }

  /** Formatting twice is formatting once: the result is never a dict. */
  lemma FormatValueIdempotent(v: Value)
    ensures FormatValue(FormatValue(v)) == FormatValue(v)
  {
  }
}
