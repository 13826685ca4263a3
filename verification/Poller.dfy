/** Revision-change detection for the configured blueprints (app/services/api_poller.py).
    The controller's answers are inputs: the login token is a parameter and the revision
    list of an endpoint is a function `fetch` of the normalised endpoint, an empty list
    standing for every failed request. Exceptions the Python code lets escape (`None` has
    no `startswith`, `int(None)`) are the outcome `Raised`. */
module Poller {
  import opened Util
  import opened Settings

  // ---------------------------------------------------------------------------------
  // Revisions
  // ---------------------------------------------------------------------------------

  /** One item of the revision list: its `revision_id`, if it has one, and its other fields. */
  datatype Revision = Revision(revisionId: Option<int>, otherFields: map<string, string>)

  /** Python truthiness of the item: a dictionary is false only when it is empty. */
  predicate IsNonEmpty(r: Revision) {
    r.revisionId.Some? || r.otherFields != map[]
  }

  /** The sort key `int(x.get("revision_id", "0"))`. */
  function SortKey(r: Revision): int {
    r.revisionId.GetOr(0)
  }

  /** The revision list of an endpoint, as the controller answers it. */
  type Fetch = string -> seq<Revision>

  /** The position of the revision `sorted(..., reverse=True)[0]` picks: the sort is stable,
      so it is the first of the revisions whose key is largest. */
  function LatestIndex(revs: seq<Revision>): (i: nat)
    requires revs != []
    ensures i < |revs|
    ensures forall j :: 0 <= j < |revs| ==> SortKey(revs[j]) <= SortKey(revs[i])
    ensures forall j :: 0 <= j < i ==> SortKey(revs[j]) < SortKey(revs[i])
    decreases |revs|
  {
    if |revs| == 1 then 0
    else
      var k := LatestIndex(revs[..|revs| - 1]);
      if SortKey(revs[|revs| - 1]) > SortKey(revs[k]) then |revs| - 1 else k
  }

  /** `get_latest_revision`: nothing for an empty list, else the first revision with the
      largest key. */
  function LatestRevision(revs: seq<Revision>): (r: Option<Revision>)
    ensures r.None? <==> revs == []
    ensures r.Some? ==> exists i :: 0 <= i < |revs| && r.value == revs[i] && FirstMaximum(revs, i)
  {
    if revs == [] then None
    else
      var i := LatestIndex(revs);
      assert FirstMaximum(revs, i);
      Some(revs[i])
  }

  /** `revs[i]` has the largest key and every earlier revision a smaller one. */
  predicate FirstMaximum(revs: seq<Revision>, i: int) {
    && 0 <= i < |revs|
    && (forall j :: 0 <= j < |revs| ==> SortKey(revs[j]) <= SortKey(revs[i]))
    && (forall j :: 0 <= j < i ==> SortKey(revs[j]) < SortKey(revs[i]))
  }

  /** Exactly one position is the first maximum, so the latest revision is determined by
      the two conditions alone. */
  lemma FirstMaximumUnique(revs: seq<Revision>, i: int, k: int)
    requires FirstMaximum(revs, i) && FirstMaximum(revs, k)
    ensures i == k
  {
    var keyI, keyK := SortKey(revs[i]), SortKey(revs[k]);
    assert keyI == keyK;
    assert i < k ==> keyI < keyK;
    assert k < i ==> keyK < keyI;
  }

  // ---------------------------------------------------------------------------------
  // Change detection (get_revisions, check_for_new_revision)
  // ---------------------------------------------------------------------------------

  /** The endpoint with a leading `/`, as `get_revisions` builds the URL path. */
  function NormalizeEndpoint(endpoint: string): (r: string)
    ensures StartsWith(r, "/")
    ensures EndsWith(r, endpoint) && |r| <= |endpoint| + 1
    ensures StartsWith(endpoint, "/") ==> r == endpoint
  {
    if StartsWith(endpoint, "/") then endpoint
    else
      var r := "/" + endpoint;
      assert r[|r| - |endpoint|..] == endpoint;
      r
  }

  lemma NormalizeEndpointIdempotent(endpoint: string)
    ensures NormalizeEndpoint(NormalizeEndpoint(endpoint)) == NormalizeEndpoint(endpoint)
  {
  }

  /** The revisions retrieved for an endpoint. */
  function Fetched(endpoint: string, fetch: Fetch): seq<Revision> {
    fetch(NormalizeEndpoint(endpoint))
  }

  /** The result of `check_for_new_revision`, or the exception it lets escape. */
  datatype Check = CheckRaised | Checked(hasNew: bool, latest: Option<Revision>)

  /** `check_for_new_revision`: nothing is new when no revisions were retrieved or the latest
      one is empty; on the first run (no last id) the latest revision is new; otherwise it is
      new when its id exceeds the last one. A missing endpoint, and a latest revision without
      an id compared against a last id, raise. */
  function CheckForNewRevision(endpoint: Option<string>, last: Option<int>, fetch: Fetch): (c: Check)
    ensures c.CheckRaised? <==>
              || endpoint.None?
              || (&& Fetched(endpoint.value, fetch) != []
                  && IsNonEmpty(LatestRevision(Fetched(endpoint.value, fetch)).value)
                  && last.Some?
                  && LatestRevision(Fetched(endpoint.value, fetch)).value.revisionId.None?)
    ensures endpoint.Some? && Fetched(endpoint.value, fetch) == [] ==> c == Checked(false, None)
    ensures (&& endpoint.Some? && Fetched(endpoint.value, fetch) != []
             && !IsNonEmpty(LatestRevision(Fetched(endpoint.value, fetch)).value))
            ==> c == Checked(false, None)
    ensures (&& endpoint.Some? && Fetched(endpoint.value, fetch) != []
             && IsNonEmpty(LatestRevision(Fetched(endpoint.value, fetch)).value) && c.Checked?)
            ==> c.latest == LatestRevision(Fetched(endpoint.value, fetch))
    ensures c.Checked? && c.latest.Some? ==>
              && c.latest == LatestRevision(Fetched(endpoint.value, fetch))
              && IsNonEmpty(c.latest.value)
    ensures c.Checked? && c.latest.None? ==> !c.hasNew
    ensures c.Checked? && c.latest.Some? && last.None? ==> c.hasNew
    ensures c.Checked? && c.latest.Some? && last.Some? ==> c.hasNew == (SortKey(c.latest.value) > last.value)
  {
    if endpoint.None? then CheckRaised
    else
      var revs := Fetched(endpoint.value, fetch);
      if revs == [] then Checked(false, None)
      else
        var latest := LatestRevision(revs).value;
        if !IsNonEmpty(latest) then Checked(false, None)
        else if last.None? then Checked(true, Some(latest))
        else if latest.revisionId.None? then CheckRaised
        else Checked(latest.revisionId.value > last.value, Some(latest))
  }

  /** Against a last id, a change is reported exactly when some retrieved revision has a
      larger key than the last id. */
  lemma NewRevisionIffNewerExists(endpoint: Option<string>, last: Option<int>, fetch: Fetch)
    requires endpoint.Some? && last.Some?
    requires CheckForNewRevision(endpoint, last, fetch).Checked?
    requires CheckForNewRevision(endpoint, last, fetch).latest.Some?
    ensures var revs := Fetched(endpoint.value, fetch);
            CheckForNewRevision(endpoint, last, fetch).hasNew
            <==> exists j :: 0 <= j < |revs| && SortKey(revs[j]) > last.value
  {
    var revs := Fetched(endpoint.value, fetch);
    var i := LatestIndex(revs);
    assert revs[i] == LatestRevision(revs).value;
    if CheckForNewRevision(endpoint, last, fetch).hasNew {
      assert SortKey(revs[i]) > last.value;
    }
  }

  // ---------------------------------------------------------------------------------
  // One blueprint (poll_api_for_blueprint)
  // ---------------------------------------------------------------------------------

  /** The stored record of one blueprint. */
  datatype BlueprintState = BlueprintState(
    lastRevisionId: Option<int>,
    lastPollTime: Option<string>,
    blueprintId: Option<string>,
    blueprintName: Option<string>)

  /** `blueprint_config.get("name", blueprint_id)`. */
  function DisplayName(bp: BlueprintConfig): (r: Option<string>)
    ensures bp.name.Some? ==> r == bp.name
    ensures bp.name.None? ==> r == bp.id
  {
    if bp.name.Some? then bp.name else bp.id
  }

  /** The result of `poll_api_for_blueprint`, or the exception it lets escape. */
  datatype Poll = PollRaised | Polled(hasNew: bool, state: BlueprintState)

  /** `poll_api_for_blueprint`: check for a new revision against the record's last id; when a
      latest revision exists the record is replaced by a fresh one stamped with `now`,
      otherwise the record comes back as it was. */
  function PollBlueprint(bp: BlueprintConfig, current: BlueprintState, fetch: Fetch, now: string): (p: Poll)
    ensures p.PollRaised? <==> CheckForNewRevision(bp.endpoint, current.lastRevisionId, fetch).CheckRaised?
    ensures p.Polled? ==> p.hasNew == CheckForNewRevision(bp.endpoint, current.lastRevisionId, fetch).hasNew
    ensures p.Polled? && p.state != current ==>
              && p.state.lastPollTime == Some(now)
              && p.state.blueprintId == bp.id && p.state.blueprintName == DisplayName(bp)
    ensures p.Polled? && CheckForNewRevision(bp.endpoint, current.lastRevisionId, fetch).latest.None? ==>
              p.state == current
    ensures p.Polled? && CheckForNewRevision(bp.endpoint, current.lastRevisionId, fetch).latest.Some? ==>
              p.state == BlueprintState(CheckForNewRevision(bp.endpoint, current.lastRevisionId, fetch).latest.value.revisionId,
                                        Some(now), bp.id, DisplayName(bp))
  {
    match CheckForNewRevision(bp.endpoint, current.lastRevisionId, fetch)
    case CheckRaised => PollRaised
    case Checked(hasNew, latest) =>
      if latest.Some? then
        Polled(hasNew, BlueprintState(latest.value.revisionId, Some(now), bp.id, DisplayName(bp)))
      else Polled(hasNew, current)
  }

  /** A reported change moves the stored id strictly forward, and the stored id is then the
      largest key among the retrieved revisions. */
  lemma PollAdvances(bp: BlueprintConfig, current: BlueprintState, fetch: Fetch, now: string)
    requires bp.endpoint.Some? && current.lastRevisionId.Some?
    requires PollBlueprint(bp, current, fetch, now).Polled?
    requires PollBlueprint(bp, current, fetch, now).hasNew
    ensures var next := PollBlueprint(bp, current, fetch, now).state;
            && next.lastRevisionId.Some?
            && next.lastRevisionId.value > current.lastRevisionId.value
            && forall r :: r in Fetched(bp.endpoint.value, fetch) ==> SortKey(r) <= next.lastRevisionId.value
  {
    var revs := Fetched(bp.endpoint.value, fetch);
    var c := CheckForNewRevision(bp.endpoint, current.lastRevisionId, fetch);
    var i := LatestIndex(revs);
    assert c.latest == Some(revs[i]);
    forall r | r in revs
      ensures SortKey(r) <= SortKey(revs[i])
    {
      var j :| 0 <= j < |revs| && revs[j] == r;
    }
  }

  /** Polling again with the same answers reports no change once the stored record holds the
      latest id, and keeps that id. */
  lemma RepollReportsNoChange(bp: BlueprintConfig, current: BlueprintState, fetch: Fetch, now: string, later: string)
    requires PollBlueprint(bp, current, fetch, now).Polled?
    requires PollBlueprint(bp, current, fetch, now).state.lastRevisionId.Some?
    ensures var next := PollBlueprint(bp, current, fetch, now).state;
            && PollBlueprint(bp, next, fetch, later).Polled?
            && !PollBlueprint(bp, next, fetch, later).hasNew
            && PollBlueprint(bp, next, fetch, later).state.lastRevisionId == next.lastRevisionId
  {
    var next := PollBlueprint(bp, current, fetch, now).state;
    var c := CheckForNewRevision(bp.endpoint, current.lastRevisionId, fetch);
    if c.latest.None? {
      assert next == current;
    } else {
      assert next.lastRevisionId == c.latest.value.revisionId;
    }
  }

  // ---------------------------------------------------------------------------------
  // The changes dictionary
  // ---------------------------------------------------------------------------------

  /** One entry of `changes_detected_dict`; the sequence keeps the dictionary's insertion
      order. */
  datatype Change = Change(id: string, hasNew: bool)

  predicate DistinctIds(changes: seq<Change>) {
    forall i, j :: 0 <= i < j < |changes| ==> changes[i].id != changes[j].id
  }

  function ChangeIds(changes: seq<Change>): set<string>
    decreases |changes|
  {
    if changes == [] then {} else {changes[0].id} + ChangeIds(changes[1..])
  }

  /** `d[id] = hasNew` on an insertion-ordered dictionary: an existing key keeps its place
      and takes the new value, a new key goes last. */
  function SetChange(changes: seq<Change>, id: string, hasNew: bool): (r: seq<Change>)
    ensures ChangeIds(r) == ChangeIds(changes) + {id}
    ensures Change(id, hasNew) in r
    decreases |changes|
  {
    if changes == [] then [Change(id, hasNew)]
    else if changes[0].id == id then [Change(id, hasNew)] + changes[1..]
    else
      var rest := SetChange(changes[1..], id, hasNew);
      assert ([changes[0]] + rest)[1..] == rest;
      [changes[0]] + rest
  }

  /** A key of the dictionary is one of its entries' ids. */
  lemma {:induction false} ChangeIdsMember(changes: seq<Change>, k: string)
    ensures k in ChangeIds(changes) <==> exists c :: c in changes && c.id == k
    decreases |changes|
  {
    if changes != [] {
      ChangeIdsMember(changes[1..], k);
      if k in ChangeIds(changes[1..]) {
        var c :| c in changes[1..] && c.id == k;
        assert c in changes;
      }
      if k != changes[0].id && exists c :: c in changes && c.id == k {
        var c :| c in changes && c.id == k;
        assert c in changes[1..];
      }
    }
  }

  /** Setting a key keeps the keys distinct, and leaves the entries of other keys alone. */
  lemma {:induction false} SetChangeKeepsOthers(changes: seq<Change>, id: string, hasNew: bool)
    requires DistinctIds(changes)
    ensures DistinctIds(SetChange(changes, id, hasNew))
    ensures forall c :: c in changes && c.id != id ==> c in SetChange(changes, id, hasNew)
    decreases |changes|
  {
    if changes != [] && changes[0].id != id {
      var rest := SetChange(changes[1..], id, hasNew);
      SetChangeKeepsOthers(changes[1..], id, hasNew);
      forall j | 0 <= j < |rest|
        ensures rest[j].id != changes[0].id
      {
        ChangeIdsMember(changes[1..], changes[0].id);
        ChangeIdsMember(rest, rest[j].id);
        assert rest[j] in rest;
      }
    }
  }

  // ---------------------------------------------------------------------------------
  // All blueprints (poll_api)
  // ---------------------------------------------------------------------------------

  /** The list `poll_api` polls: the configured blueprints, or, when there are none and a
      legacy `endpoint` is set, one default entry for that endpoint. */
  function PollList(api: ApiSettings): (bps: seq<BlueprintConfig>)
    ensures api.blueprints.Some? && api.blueprints.value != [] ==> bps == api.blueprints.value
    ensures (api.blueprints.None? || api.blueprints.value == []) && Truthy(api.endpoint) ==>
              bps == [BlueprintConfig(Some("default"), Some("Default Blueprint"), api.endpoint)]
    ensures (api.blueprints.None? || api.blueprints.value == []) && !Truthy(api.endpoint) ==> bps == []
  {
    var bps := api.blueprints.GetOr([]);
    if bps == [] && Truthy(api.endpoint) then
      [BlueprintConfig(Some("default"), Some("Default Blueprint"), api.endpoint)]
    else bps
  }

  /** Whether `poll_api` gets as far as polling: server, credentials and a non-empty list
      are configured and the login produced a token. */
  predicate PollRuns(api: ApiSettings, token: Option<string>) {
    && Truthy(api.server) && Truthy(api.username) && Truthy(api.password)
    && PollList(api) != [] && Truthy(token)
  }

  /** The record a blueprint starts from when the stored state has none. */
  function InitialState(bp: BlueprintConfig, id: string): BlueprintState {
    BlueprintState(None, None, Some(id), if bp.name.Some? then bp.name else Some(id))
  }

  /** The ids `poll_api` polls: those of the entries whose id is set and non-empty. */
  function ConfiguredIds(bps: seq<BlueprintConfig>): set<string>
    decreases |bps|
  {
    if bps == [] then {}
    else ConfiguredIds(bps[..|bps| - 1])
         + (if Truthy(bps[|bps| - 1].id) then {bps[|bps| - 1].id.value} else {})
  }

  /** Where the loop of `poll_api` stands: the changes so far, the blueprint table and
      whether an exception escaped. */
  datatype Sweep = Sweep(changes: seq<Change>, table: map<string, BlueprintState>, raised: bool)

  /** One iteration of the loop of `poll_api`. */
  function Step(s: Sweep, bp: BlueprintConfig, fetch: Fetch, now: string): Sweep {
    if s.raised || !Truthy(bp.id) then s
    else
      var id := bp.id.value;
      var current := if id in s.table then s.table[id] else InitialState(bp, id);
      match PollBlueprint(bp, current, fetch, now)
      case PollRaised => s.(raised := true)
      case Polled(hasNew, next) => Sweep(SetChange(s.changes, id, hasNew), s.table[id := next], false)
  }

  /** The loop of `poll_api` over `bps`, starting from the blueprint table `table`. */
  function SweepOf(bps: seq<BlueprintConfig>, table: map<string, BlueprintState>, fetch: Fetch, now: string): Sweep
    decreases |bps|
  {
    if bps == [] then Sweep([], table, false)
    else Step(SweepOf(bps[..|bps| - 1], table, fetch, now), bps[|bps| - 1], fetch, now)
  }

  /** The loop over one more blueprint is one more step. */
  lemma SweepOfSnoc(bps: seq<BlueprintConfig>, i: nat, table: map<string, BlueprintState>, fetch: Fetch, now: string)
    requires i < |bps|
    ensures SweepOf(bps[..i + 1], table, fetch, now) == Step(SweepOf(bps[..i], table, fetch, now), bps[i], fetch, now)
  {
    assert bps[..i + 1][..i] == bps[..i];
  }

  /** A loop that got through: every polled id has exactly one entry in the changes, and the
      table holds the ids it held before plus the polled ones. */
  lemma {:induction false} SweepKeys(bps: seq<BlueprintConfig>, table: map<string, BlueprintState>, fetch: Fetch, now: string)
    requires !SweepOf(bps, table, fetch, now).raised
    ensures var s := SweepOf(bps, table, fetch, now);
            && ChangeIds(s.changes) == ConfiguredIds(bps)
            && DistinctIds(s.changes)
            && s.table.Keys == table.Keys + ConfiguredIds(bps)
    decreases |bps|
  {
    if bps != [] {
      var prev := SweepOf(bps[..|bps| - 1], table, fetch, now);
      SweepKeys(bps[..|bps| - 1], table, fetch, now);
      var bp := bps[|bps| - 1];
      if Truthy(bp.id) {
        var id := bp.id.value;
        var current := if id in prev.table then prev.table[id] else InitialState(bp, id);
        var polled := PollBlueprint(bp, current, fetch, now);
        SetChangeKeepsOthers(prev.changes, id, polled.hasNew);
      }
    }
  }

  /** A loop that got through leaves each polled id with what its last poll produced: the
      record and the flag `PollBlueprint` returned for the last entry with that id, polled
      against the table as the earlier entries left it. A later entry with the same id thus
      overwrites an earlier one. */
  lemma {:induction false} SweepLastWins(bps: seq<BlueprintConfig>, table: map<string, BlueprintState>,
                                         fetch: Fetch, now: string, k: nat)
    requires k < |bps| && Truthy(bps[k].id)
    requires forall j :: k < j < |bps| ==> bps[j].id != bps[k].id
    requires !SweepOf(bps, table, fetch, now).raised
    ensures var s := SweepOf(bps, table, fetch, now);
            var id := bps[k].id.value;
            var before := SweepOf(bps[..k], table, fetch, now);
            var current := if id in before.table then before.table[id] else InitialState(bps[k], id);
            var p := PollBlueprint(bps[k], current, fetch, now);
            && p.Polled? && id in s.table && s.table[id] == p.state
            && Change(id, p.hasNew) in s.changes
    decreases |bps|
  {
    var id := bps[k].id.value;
    var prefix := bps[..|bps| - 1];
    var prev := SweepOf(prefix, table, fetch, now);
    var bp := bps[|bps| - 1];
    assert SweepOf(bps, table, fetch, now) == Step(prev, bp, fetch, now);
    assert !prev.raised;
    if k == |bps| - 1 {
      assert prefix == bps[..k];
    } else {
      assert prefix[..k] == bps[..k] && prefix[k] == bps[k];
      SweepLastWins(prefix, table, fetch, now, k);
      if Truthy(bp.id) {
        var other := bp.id.value;
        assert other != id;
        var current := if other in prev.table then prev.table[other] else InitialState(bp, other);
        var polled := PollBlueprint(bp, current, fetch, now);
        SweepKeys(prefix, table, fetch, now);
        SetChangeKeepsOthers(prev.changes, other, polled.hasNew);
      }
    }
  }

  /** Entries of ids the loop does not poll keep their value, even when an exception
      escaped. */
  lemma {:induction false} SweepUntouched(bps: seq<BlueprintConfig>, table: map<string, BlueprintState>,
                                          fetch: Fetch, now: string, k: string)
    requires k in table && k !in ConfiguredIds(bps)
    ensures k in SweepOf(bps, table, fetch, now).table
    ensures SweepOf(bps, table, fetch, now).table[k] == table[k]
    decreases |bps|
  {
    if bps != [] {
      SweepUntouched(bps[..|bps| - 1], table, fetch, now, k);
    }
  }

  /** Once an exception escapes the loop stops: the rest of the list changes nothing. */
  lemma {:induction false} SweepStopsWhenRaised(bps: seq<BlueprintConfig>, n: nat, table: map<string, BlueprintState>,
                                                fetch: Fetch, now: string)
    requires n <= |bps|
    requires SweepOf(bps[..n], table, fetch, now).raised
    ensures SweepOf(bps, table, fetch, now) == SweepOf(bps[..n], table, fetch, now)
    decreases |bps| - n
  {
    if n < |bps| {
      assert bps[..n + 1][..n] == bps[..n];
      SweepStopsWhenRaised(bps, n + 1, table, fetch, now);
    } else {
      assert bps[..n] == bps;
    }
  }

  // ---------------------------------------------------------------------------------
  // The state objects
  // ---------------------------------------------------------------------------------

  /** The dictionary `state["blueprints"]`, blueprint id to record. */
  class BlueprintTable {
    var entries: map<string, BlueprintState>

    constructor (entries: map<string, BlueprintState>)
      ensures this.entries == entries
    {
      this.entries := entries;
    }
  }

  /** The persistent state dictionary: its other top-level fields and, when present, its
      `blueprints` table, held by reference as Python holds the nested dictionary. */
  class PollState {
    var fields: map<string, Option<string>>
    var blueprints: BlueprintTable?

    constructor (fields: map<string, Option<string>>, blueprints: BlueprintTable?)
      ensures this.fields == fields && this.blueprints == blueprints
    {
      this.fields, this.blueprints := fields, blueprints;
    }

    /** `state.copy()`: a new top level that shares the nested `blueprints` table. */
    constructor ShallowCopy(other: PollState)
      ensures fields == other.fields && blueprints == other.blueprints
    {
      fields, blueprints := other.fields, other.blueprints;
    }
  }

  /** The blueprint table of a state, empty when absent. */
  function TableOf(state: PollState): map<string, BlueprintState>
    reads state, state.blueprints
  {
    if state.blueprints == null then map[] else state.blueprints.entries
  }

  /** `poll_api`: without a complete configuration or a token nothing is polled and the
      caller's state comes back as it is. Otherwise the state is copied shallowly, given a
      `blueprints` table if it has none, and every configured blueprint with an id is polled
      in order, its record written into that table and its change flag into the changes.
      When the caller's state already has a table, the copy shares it, so every write lands
      in the caller's own table. `raised` reports an exception escaping mid-loop, after the
      writes made so far. */
  method PollApi(config: AppConfig, state: PollState, token: Option<string>, fetch: Fetch, now: string)
    returns (raised: bool, changes: seq<Change>, newState: PollState, tokenOut: Option<string>)
    modifies state.blueprints
    ensures !PollRuns(ApiOf(config), token) ==>
              && !raised && changes == [] && newState == state && tokenOut.None?
              && TableOf(state) == old(TableOf(state))
    ensures PollRuns(ApiOf(config), token) ==>
              && fresh(newState) && newState.fields == state.fields && newState.blueprints != null
              && (old(state.blueprints) != null ==> newState.blueprints == state.blueprints)
              && (old(state.blueprints) == null ==> fresh(newState.blueprints))
    ensures PollRuns(ApiOf(config), token) ==>
              var s := SweepOf(PollList(ApiOf(config)), old(TableOf(state)), fetch, now);
              && raised == s.raised && newState.blueprints.entries == s.table
              && (!raised ==> changes == s.changes && tokenOut == token)
    ensures state.blueprints == old(state.blueprints) && state.fields == old(state.fields)
  {
    var api := ApiOf(config);
    var bps := PollList(api);
    if !(Truthy(api.server) && Truthy(api.username) && Truthy(api.password) && bps != []) {
      return false, [], state, None;
    }
    if !Truthy(token) {
      return false, [], state, None;
    }
    newState := new PollState.ShallowCopy(state);
    if newState.blueprints == null {
      var table := new BlueprintTable(map[]);
      newState.blueprints := table;
    }
    raised, changes := SweepInto(newState.blueprints, bps, fetch, now);
    tokenOut := token;
  }

  /** The loop of `poll_api`: poll every blueprint with an id in order, writing its record
      into `table` and its change flag into `changes`, and stop when an exception escapes. */
  method SweepInto(table: BlueprintTable, bps: seq<BlueprintConfig>, fetch: Fetch, now: string)
    returns (raised: bool, changes: seq<Change>)
    modifies table
    ensures var s := SweepOf(bps, old(table.entries), fetch, now);
            && raised == s.raised && table.entries == s.table
            && (!raised ==> changes == s.changes)
  {
    ghost var init := table.entries;
    changes := [];
    for i := 0 to |bps|
      invariant SweepOf(bps[..i], init, fetch, now) == Sweep(changes, table.entries, false)
    {
      var bp := bps[i];
      SweepOfSnoc(bps, i, init, fetch, now);
      ghost var prev := Sweep(changes, table.entries, false);
      if !Truthy(bp.id) {
        continue;
      }
      var id := bp.id.value;
      var current := if id in table.entries then table.entries[id] else InitialState(bp, id);
      var polled := PollBlueprint(bp, current, fetch, now);
      if polled.PollRaised? {
        assert SweepOf(bps[..i + 1], init, fetch, now) == prev.(raised := true);
        SweepStopsWhenRaised(bps, i + 1, init, fetch, now);
        return true, changes;
      }
      table.entries := table.entries[id := polled.state];
      changes := SetChange(changes, id, polled.hasNew);
      assert Step(prev, bp, fetch, now) == Sweep(changes, table.entries, false);
    }
    assert bps[..|bps|] == bps;
    raised := false;
  }
}
