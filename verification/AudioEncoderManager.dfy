/** Encoder groups: one encoder for each distinct key, found again through a map. */
module AudioEncoderManager {
  import opened Options
  import opened AudioEncoderConfig

  datatype Group = Group(id: nat, key: Key, config: Config)

  datatype Registration = Registration(id: nat, reused: bool)

  datatype Registry = Registry(groups: seq<Group>, ids: map<Key, nat>)

  predicate Starts(s: Registry) {
    s.groups == [] && s.ids == map[]
  }

  /** Everything a new group needs that may be refused. */
  datatype Resources = Resources(encoder: bool, group: bool, listEntry: bool, mapEntry: bool)

  predicate Granted(r: Resources) {
    r.encoder && r.group && r.listEntry && r.mapEntry
  }

  function AddGroup(s: Registry, n: Config): Registry {
    var id := |s.groups| + 1;
    Registry(s.groups + [Group(id, KeyOf(n), n)], s.ids[KeyOf(n) := id])
  }

  function Register(s: Registry, c: Config, r: Resources): (Registry, Option<Registration>) {
    match Normalize(c)
    case None => (s, None)
    case Some(n) =>
      var key := KeyOf(n);
      if key in s.ids then (s, Some(Registration(s.ids[key], true)))
      else if !Granted(r) then (s, None)
      else
        (AddGroup(s, n), Some(Registration(|s.groups| + 1, false)))
  }

  predicate GroupOk(s: Registry, i: nat)
    requires i < |s.groups|
  {
    var g := s.groups[i];
    && g.id == i + 1 && g.key == KeyOf(g.config) && g.key in s.ids && s.ids[g.key] == g.id
  }

  predicate Normal(c: Config) {
    Normalize(c) == Some(c)
  }

  predicate KeyOk(s: Registry, k: Key)
    requires k in s.ids
  {
    1 <= s.ids[k] <= |s.groups| && s.groups[s.ids[k] - 1].key == k
  }

  /** Identifiers are dense from 1, keys are those of the configurations, and list and map are inverse. */
  predicate Inv(s: Registry) {
    && (forall i :: 0 <= i < |s.groups| ==> GroupOk(s, i) && Normal(s.groups[i].config))
    && (forall k :: k in s.ids ==> KeyOk(s, k))
  }

  lemma AddKeeps(s: Registry, n: Config)
    requires Inv(s) && Normal(n) && KeyOf(n) !in s.ids
    ensures Inv(AddGroup(s, n))
  {
    var t := AddGroup(s, n);
    forall i | 0 <= i < |t.groups| ensures GroupOk(t, i) && Normal(t.groups[i].config) {
      assert i < |s.groups| ==> GroupOk(s, i) && Normal(s.groups[i].config);
    }
    forall k | k in t.ids ensures KeyOk(t, k) {
      assert k != KeyOf(n) ==> KeyOk(s, k);
    }
  }

  lemma RegisterKeeps(s: Registry, c: Config, r: Resources)
    requires Inv(s)
    ensures Inv(Register(s, c, r).0)
  {
    NormalizeIsIdempotent(c);
    if Normalize(c).Some? {
      var n := Normalize(c).value;
      if KeyOf(n) !in s.ids {
        AddKeeps(s, n);
      }
    }
  }

  lemma KeysAreDistinct(s: Registry, i: nat, j: nat)
    requires Inv(s) && i < |s.groups| && j < |s.groups|
    ensures s.groups[i].key == s.groups[j].key <==> i == j
  {
    assert GroupOk(s, i) && GroupOk(s, j);
  }

  /** What a successful registration reports. */
  predicate Reports(s: Registry, c: Config, id: nat) {
    1 <= id <= |s.groups| && MakeKey(c) == Some(s.groups[id - 1].key)
  }

  lemma RegisterReports(s: Registry, c: Config, r: Resources)
    requires Inv(s)
    ensures var (n, result) := Register(s, c, r);
            s.groups <= n.groups && (result.Some? ==> Reports(n, c, result.value.id))
  {
    if Normalize(c).Some? && KeyOf(Normalize(c).value) in s.ids {
      assert KeyOk(s, KeyOf(Normalize(c).value));
    }
  }

  /** There is a group for this key already. */
  ghost predicate Known(s: Registry, key: Key) {
    exists i :: 0 <= i < |s.groups| && s.groups[i].key == key
  }

  lemma KnownIsMapped(s: Registry, key: Key)
    requires Inv(s)
    ensures Known(s, key) <==> key in s.ids
  {
    if key in s.ids {
      assert KeyOk(s, key);
    }
    if i :| 0 <= i < |s.groups| && s.groups[i].key == key {
      assert GroupOk(s, i);
    }
  }

  /** A registration succeeds exactly when the configuration is accepted and its group either exists already
      or gets all it needs.  A new group joins the end with the next identifier; nothing else ever changes. */
  lemma RegistersIff(s: Registry, c: Config, r: Resources)
    requires Inv(s)
    ensures var (n, result) := Register(s, c, r);
            match Normalize(c)
            case None => result == None && n == s
            case Some(normal) =>
              && (result.Some? <==> Known(s, KeyOf(normal)) || (r.encoder && r.group && r.listEntry && r.mapEntry))
              && (result.Some? ==> (result.value.reused <==> Known(s, KeyOf(normal))))
              && (result.Some? && !result.value.reused ==>
                    && result.value.id == |s.groups| + 1
                    && n.groups == s.groups + [Group(|s.groups| + 1, KeyOf(normal), normal)])
              && (result == None || result.value.reused ==> n == s)
  {
    if Normalize(c).Some? {
      KnownIsMapped(s, KeyOf(Normalize(c).value));
    }
  }

  lemma ReportsKept(s: Registry, t: Registry, c: Config, id: nat)
    requires Reports(s, c, id) && s.groups <= t.groups
    ensures Reports(t, c, id)
  {
  }

  // ----- runs ------------------------------------------------------------------------------

  datatype Request = Request(config: Config, resources: Resources)

  function Run(s: Registry, requests: seq<Request>): Registry
    decreases |requests|
  {
    if requests == [] then s else Run(Register(s, requests[0].config, requests[0].resources).0, requests[1..])
  }

  function Results(s: Registry, requests: seq<Request>): (r: seq<Option<Registration>>)
    ensures |r| == |requests|
    decreases |requests|
  {
    if requests == [] then []
    else
      var (n, result) := Register(s, requests[0].config, requests[0].resources);
      [result] + Results(n, requests[1..])
  }

  lemma {:induction false} RunKeeps(s: Registry, requests: seq<Request>)
    requires Inv(s)
    ensures Inv(Run(s, requests)) && s.groups <= Run(s, requests).groups
    decreases |requests|
  {
    if requests == [] {
    } else {
      RegisterKeeps(s, requests[0].config, requests[0].resources);
      RegisterReports(s, requests[0].config, requests[0].resources);
      RunKeeps(Register(s, requests[0].config, requests[0].resources).0, requests[1..]);
    }
  }

  lemma {:induction false} ResultsReport(s: Registry, requests: seq<Request>, i: nat)
    requires Inv(s) && i < |requests| && Results(s, requests)[i].Some?
    ensures Reports(Run(s, requests), requests[i].config, Results(s, requests)[i].value.id)
    decreases |requests|
  {
    var (n, first) := Register(s, requests[0].config, requests[0].resources);
    RegisterKeeps(s, requests[0].config, requests[0].resources);
    if i > 0 {
      ResultsReport(n, requests[1..], i - 1);
    } else {
      RegisterReports(s, requests[0].config, requests[0].resources);
      RunKeeps(n, requests[1..]);
      ReportsKept(n, Run(s, requests), requests[0].config, first.value.id);
    }
  }

  lemma SameIdIffSameEffect(s: Registry, a: Config, b: Config, i: nat, j: nat)
    requires Inv(s) && Reports(s, a, i) && Reports(s, b, j)
    ensures Normalize(a).Some? && Normalize(b).Some?
    ensures i == j <==> SameEffect(Normalize(a).value, Normalize(b).value)
  {
    KeysAreDistinct(s, i - 1, j - 1);
    KeysTellEffectsApart(a, b);
  }

  /** Over any run, two registrations got the same group exactly when their configurations have the
      same effect. */
  lemma {:induction false} SameGroupIffSameEffect(s: Registry, requests: seq<Request>, i: nat, j: nat)
    requires Starts(s) && i < |requests| && j < |requests|
    requires Results(s, requests)[i].Some? && Results(s, requests)[j].Some?
    ensures Normalize(requests[i].config).Some? && Normalize(requests[j].config).Some?
    ensures Results(s, requests)[i].value.id == Results(s, requests)[j].value.id
       <==> SameEffect(Normalize(requests[i].config).value, Normalize(requests[j].config).value)
  {
    RunKeeps(s, requests);
    ResultsReport(s, requests, i);
    ResultsReport(s, requests, j);
    SameIdIffSameEffect(Run(s, requests), requests[i].config, requests[j].config,
                        Results(s, requests)[i].value.id, Results(s, requests)[j].value.id);
  }

  lemma FoundAgain(s: Registry, i: nat, r: Resources)
    requires Inv(s) && i < |s.groups|
    ensures var p := FillC(s.groups[i].config);
            Tagged(p) && Register(s, MakeCpp(p), r) == (s, Some(Registration(i + 1, true)))
  {
    var g := s.groups[i];
    assert GroupOk(s, i) && Normal(g.config);
    ReportedParamsKeepTheKey(g.config);
  }

  /** Registering what is reported about a group finds that group, whatever resources are left. */
  lemma {:induction false} ReportedGroupIsFound(s: Registry, requests: seq<Request>, i: nat, r: Resources)
    requires Starts(s) && i < |Run(s, requests).groups|
    ensures var n := Run(s, requests);
            var p := FillC(n.groups[i].config);
            Tagged(p) && Register(n, MakeCpp(p), r) == (n, Some(Registration(i + 1, true)))
  {
    RunKeeps(s, requests);
    FoundAgain(Run(s, requests), i, r);
  }

  // ----- the code --------------------------------------------------------------------------

  class AudioEncoderManager {
    var groups: seq<Group>
    var ids: map<Key, nat>

    function State(): Registry
      reads this
    {
      Registry(groups, ids)
    }

    constructor ()
      ensures Starts(State())
    {
      groups, ids := [], map[];
    }

    /** The new group enters the list first and the map second; if the map refuses, it leaves the list. */
    method Insert(key: Key, n: Config, r: Resources) returns (ok: bool)
      requires key == KeyOf(n) && key !in ids
      modifies this
      ensures ok <==> r.listEntry && r.mapEntry
      ensures State() == if ok then AddGroup(old(State()), n) else old(State())
    {
      if !r.listEntry {
        return false;
      }
      var id := |groups| + 1;
      groups := groups + [Group(id, key, n)];
      if !r.mapEntry {
        groups := groups[..|groups| - 1];
        return false;
      }
      ids := ids[key := id];
      ok := true;
    }

    /** List and map change together or not at all. */
    method RegisterGroup(c: Config, r: Resources) returns (result: Option<Registration>)
      requires Inv(State())
      modifies this
      ensures Inv(State())
      ensures (State(), result) == Register(old(State()), c, r)
    {
      RegisterKeeps(State(), c, r);
      var normal := NormalizeConfig(c);
      if normal == None {
        return None;
      }
      NormalizeIsIdempotent(c);
      var key := MakeKey(normal.value).value;
      if key in ids {
        return Some(Registration(ids[key], true));
      }
      if !r.encoder || !r.group {
        return None;
      }
      var id := |groups| + 1;
      var ok := Insert(key, normal.value, r);
      result := if ok then Some(Registration(id, false)) else None;
    }

    /** The group registered as number `index + 1`, with the normal form its key was made from. */
    method GroupAt(index: nat) returns (r: Option<Group>)
      requires Inv(State())
      ensures r.Some? <==> index < |groups|
      ensures r.Some? ==>
                && r.value.id == index + 1 && Normal(r.value.config) && r.value.key == KeyOf(r.value.config)
                && r.value.key in ids && ids[r.value.key] == index + 1
    {
      if index >= |groups| {
        return None;
      }
      assert GroupOk(State(), index);
      r := Some(groups[index]);
    }

    method Clear()
      modifies this
      ensures Starts(State())
    {
      groups, ids := [], map[];
    }
  }
}
