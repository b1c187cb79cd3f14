/**
 * Service resolution: finding descriptors by name or by label, and building
 * typed service information from them with the label registry.
 */
module Resolver {
  import opened Wrappers
  import opened Registry
  import opened DescriptorStore

  /** `service.get("name")` is neither missing nor JSON null. */
  predicate HasName(d: Descriptor)
  {
    "name" in d && d["name"] != Null
  }

  /** `service.get("name").equals(n)`: only a string value can equal the name. */
  predicate NameIs(d: Descriptor, n: string)
  {
    "name" in d && d["name"] == Str(n)
  }

  /** `labels.contains(service.get("label"))`: a missing or non-string label never matches. */
  predicate LabelIn(d: Descriptor, labels: set<string>)
  {
    "label" in d && d["label"].Str? && d["label"].s in labels
  }

  /** `serviceInfoMap.get("name")`, as the failure message shows it. */
  function NameOf(d: Descriptor): Value
  {
    if "name" in d then d["name"] else Null
  }

  /** r occurs in s in order, possibly with gaps. */
  predicate Subsequence<T(==)>(r: seq<T>, s: seq<T>)
    decreases |s|
  {
    if r == [] then true
    else if s == [] then false
    else if r[0] == s[0] then Subsequence(r[1..], s[1..])
    else Subsequence(r, s[1..])
  }

  // ---------------------------------------------------------------------------
  // getServiceDataByName

  /**
   * How far the scan of `getServiceDataByName` gets: the length of the prefix of
   * descriptors that carry a name other than n.
   */
  function ScanLength(s: seq<Descriptor>, n: string): (k: nat)
    ensures k <= |s|
    ensures forall j :: 0 <= j < k ==> HasName(s[j]) && !NameIs(s[j], n)
    ensures k < |s| ==> !HasName(s[k]) || NameIs(s[k], n)
  {
    if s == [] || !HasName(s[0]) || NameIs(s[0], n) then 0
    else 1 + ScanLength(s[1..], n)
  }

  /**
   * The outcome of the scan: the first descriptor named n, None when every
   * descriptor carries another name, and a null dereference when the scan
   * reaches a descriptor without a name before any match.
   */
  function FindByName(s: seq<Descriptor>, n: string): (r: Result<Option<Descriptor>, Error>)
    ensures r == Success(None) <==> forall j :: 0 <= j < |s| ==> HasName(s[j]) && !NameIs(s[j], n)
    ensures r.Success? && r.value.Some? ==>
      exists i :: 0 <= i < |s| && s[i] == r.value.value && NameIs(s[i], n) &&
        forall j :: 0 <= j < i ==> HasName(s[j]) && !NameIs(s[j], n)
    ensures r.Failure? ==> r.error == NullDereference
    ensures r.Failure? ==>
      exists i :: 0 <= i < |s| && !HasName(s[i]) &&
        forall j :: 0 <= j < i ==> HasName(s[j]) && !NameIs(s[j], n)
  {
    var k := ScanLength(s, n);
    if k == |s| then Success(None)
    else if NameIs(s[k], n) then Success(Some(s[k]))
    else Failure(NullDereference)
  }

  /** The first descriptor named n is what the scan returns, whatever follows it. */
  lemma FindByNameFirst(s: seq<Descriptor>, n: string, i: nat)
    requires i < |s| && NameIs(s[i], n)
    requires forall j :: 0 <= j < i ==> HasName(s[j]) && !NameIs(s[j], n)
    ensures FindByName(s, n) == Success(Some(s[i]))
  {
  }

  /** `getServiceDataByName(name)`: a loop over `getServices()` with an early return. */
  method GetServiceDataByName(env: Environment, n: string) returns (r: Result<Option<Descriptor>, Error>)
    ensures Services(env).Failure? ==> r == Failure(Services(env).error)
    ensures Services(env).Success? ==> r == FindByName(Services(env).value, n)
  {
    var found := GetServices(env);
    if found.Failure? {
      return Failure(found.error);
    }
    var services := found.value;
    var i := 0;
    while i < |services|
      invariant 0 <= i <= |services|
      invariant forall j :: 0 <= j < i ==> HasName(services[j]) && !NameIs(services[j], n)
    {
      var service := services[i];
      if !HasName(service) {
        return Failure(NullDereference);
      }
      if NameIs(service, n) {
        FindByNameFirst(services, n, i);
        return Success(Some(service));
      }
      i := i + 1;
    }
    return Success(None);
  }

  // ---------------------------------------------------------------------------
  // getServiceDataByLabels

  /** The descriptors whose label is in `labels`, in their original order. */
  function ByLabels(s: seq<Descriptor>, labels: set<string>): (r: seq<Descriptor>)
    ensures forall d :: d in r <==> d in s && LabelIn(d, labels)
    ensures Subsequence(r, s)
  {
    if s == [] then []
    else
      var rest := ByLabels(s[1..], labels);
      assert s == [s[0]] + s[1..];
      if LabelIn(s[0], labels) then
        assert ([s[0]] + rest)[1..] == rest;
        [s[0]] + rest
      else rest
  }

  /** Each matching descriptor is kept as often as it occurs; every other one is dropped. */
  lemma {:induction false} ByLabelsCount(s: seq<Descriptor>, labels: set<string>, d: Descriptor)
    ensures multiset(ByLabels(s, labels))[d] == if LabelIn(d, labels) then multiset(s)[d] else 0
  {
    if s != [] {
      ByLabelsCount(s[1..], labels, d);
      assert s == [s[0]] + s[1..];
    }
  }

  /** Filtering distributes over concatenation, so it keeps the relative order of any two parts. */
  lemma {:induction false} ByLabelsAppend(a: seq<Descriptor>, b: seq<Descriptor>, labels: set<string>)
    ensures ByLabels(a + b, labels) == ByLabels(a, labels) + ByLabels(b, labels)
  {
    if a == [] {
      assert a + b == b;
    } else {
      assert (a + b)[1..] == a[1..] + b;
      ByLabelsAppend(a[1..], b, labels);
    }
  }

  /** Extending the filtered prefix by one descriptor appends it exactly when it matches. */
  lemma ByLabelsStep(s: seq<Descriptor>, labels: set<string>, i: nat)
    requires i < |s|
    ensures ByLabels(s[..i + 1], labels) ==
      ByLabels(s[..i], labels) + (if LabelIn(s[i], labels) then [s[i]] else [])
  {
    assert s[..i + 1] == s[..i] + [s[i]];
    ByLabelsAppend(s[..i], [s[i]], labels);
    assert [s[i]][1..] == [];
  }

  /** `getServiceDataByLabels(labels)`: add each matching descriptor in turn. */
  method GetServiceDataByLabels(env: Environment, labels: set<string>) returns (r: Result<seq<Descriptor>, Error>)
    ensures Services(env).Failure? ==> r == Failure(Services(env).error)
    ensures Services(env).Success? ==> r == Success(ByLabels(Services(env).value, labels))
  {
    var found := GetServices(env);
    if found.Failure? {
      return Failure(found.error);
    }
    var services := found.value;
    assert Services(env) == Success(services);
    var matched: seq<Descriptor> := [];
    var i := 0;
    while i < |services|
      invariant 0 <= i <= |services|
      invariant matched == ByLabels(services[..i], labels)
    {
      ByLabelsStep(services, labels, i);
      if LabelIn(services[i], labels) {
        matched := matched + [services[i]];
      }
      i := i + 1;
    }
    assert services[..i] == services;
    return Success(matched);
  }

  // ---------------------------------------------------------------------------
  // Typed construction

  /**
   * The private `getServiceInfo(map, type)`: the type's constructor applied to
   * the descriptor (None where it throws), a failure naming the descriptor otherwise.
   */
  function Construct<I>(build: Descriptor -> Option<I>, d: Descriptor): (r: Result<I, Error>)
    ensures r.Success? <==> build(d).Some?
    ensures r.Success? ==> Some(r.value) == build(d)
    ensures r.Failure? ==> r.error == ServiceConstruction(NameOf(d))
  {
    match build(d)
    case Some(info) => Success(info)
    case None => Failure(ServiceConstruction(NameOf(d)))
  }

  /**
   * One constructed info per descriptor, in order, or the failure of the first
   * descriptor whose construction fails: never a partial list.
   */
  function ConstructAll<I>(build: Descriptor -> Option<I>, ds: seq<Descriptor>): (r: Result<seq<I>, Error>)
    ensures r.Success? <==> forall i :: 0 <= i < |ds| ==> build(ds[i]).Some?
    ensures r.Success? ==> |r.value| == |ds| && forall i :: 0 <= i < |ds| ==> build(ds[i]) == Some(r.value[i])
    ensures r.Failure? ==>
      exists i :: 0 <= i < |ds| && build(ds[i]).None? && r.error == ServiceConstruction(NameOf(ds[i])) &&
        forall j :: 0 <= j < i ==> build(ds[j]).Some?
  {
    if ds == [] then Success([])
    else match build(ds[0])
      case None => Failure(ServiceConstruction(NameOf(ds[0])))
      case Some(info) =>
        match ConstructAll(build, ds[1..])
        case Failure(e) =>
          assert forall i :: 1 <= i < |ds| ==> ds[i] == ds[1..][i - 1];
          Failure(e)
        case Success(rest) =>
          assert forall i :: 1 <= i < |ds| ==> ds[i] == ds[1..][i - 1];
          Success([info] + rest)
  }

  // ---------------------------------------------------------------------------
  // getServiceInfo(name, type)

  /**
   * `getServiceInfo(name, type)` on an already-flattened services list:
   * `labels` is the registry entry for the type (None where `get` returns
   * null). A failed name scan propagates. The label test runs before the
   * name lookup's result is checked, so a name with no descriptor fails when
   * the type is registered.
   */
  function ResolveByName<I>(s: seq<Descriptor>, labels: Option<set<string>>, n: string,
                            build: Descriptor -> Option<I>): (r: Result<Option<I>, Error>)
    ensures FindByName(s, n).Failure? ==> r == Failure(NullDereference)
    ensures labels.None? && FindByName(s, n).Success? ==> r == Success(None)
    ensures r.Success? && r.value.Some? ==>
      labels.Some? &&
      (exists i :: 0 <= i < |s| && NameIs(s[i], n) && LabelIn(s[i], labels.value) &&
         build(s[i]) == Some(r.value.value) &&
         (forall j :: 0 <= j < i ==> HasName(s[j]) && !NameIs(s[j], n)))
    ensures r.Failure? ==> r.error == NullDereference || r.error == ServiceConstruction(Str(n))
  {
    match FindByName(s, n)
    case Failure(e) => Failure(e)
    case Success(found) =>
      if labels.None? then Success(None)
      else match found
        case None => Failure(NullDereference)
        case Some(d) =>
          if LabelIn(d, labels.value) then
            match Construct(build, d)
            case Failure(e) => Failure(e)
            case Success(info) => Success(Some(info))
          else Success(None)
  }

  /**
   * The first descriptor named n decides: with a label registered for the type
   * its info is constructed, otherwise the result is absent.
   */
  lemma ResolveByNameFound<I>(s: seq<Descriptor>, labels: set<string>, n: string,
                              build: Descriptor -> Option<I>, i: nat)
    requires i < |s| && NameIs(s[i], n)
    requires forall j :: 0 <= j < i ==> HasName(s[j]) && !NameIs(s[j], n)
    ensures LabelIn(s[i], labels) && build(s[i]).Some? ==>
      ResolveByName(s, Some(labels), n, build) == Success(build(s[i]))
    ensures LabelIn(s[i], labels) && build(s[i]).None? ==>
      ResolveByName(s, Some(labels), n, build) == Failure(ServiceConstruction(Str(n)))
    ensures !LabelIn(s[i], labels) ==> ResolveByName(s, Some(labels), n, build) == Success(None)
  {
    FindByNameFirst(s, n, i);
  }

  /** For a type with no registry entry the result is absent, even when no descriptor has the name. */
  lemma ResolveByNameUnregistered<I>(s: seq<Descriptor>, n: string, build: Descriptor -> Option<I>)
    requires FindByName(s, n).Success?
    ensures ResolveByName(s, None, n, build) == Success(None)
  {
  }

  /**
   * As written, a name that no descriptor carries makes a registered type fail
   * with a null dereference: it is never reported as absent. The failure comes
   * from the name scan when a nameless descriptor is reached, and otherwise
   * from the label test on the missing descriptor.
   */
  lemma ResolveByNameMissing<I>(s: seq<Descriptor>, labels: set<string>, n: string,
                                build: Descriptor -> Option<I>)
    requires forall j :: 0 <= j < |s| ==> !NameIs(s[j], n)
    ensures ResolveByName(s, Some(labels), n, build) == Failure(NullDereference)
  {
  }

  /** `getServiceInfo(name, serviceInfoType)`. */
  method GetServiceInfo<I>(env: Environment, registry: LabelRegistry, n: string, t: ServiceType,
                           build: Descriptor -> Option<I>) returns (r: Result<Option<I>, Error>)
    ensures Services(env).Failure? ==> r == Failure(Services(env).error)
    ensures Services(env).Success? ==>
      r == ResolveByName(Services(env).value,
                         if t in registry.labels then Some(registry.labels[t]) else None, n, build)
  {
    var found := GetServiceDataByName(env, n);
    if found.Failure? {
      return Failure(found.error);
    }
    var serviceInfoMap := found.value;
    if t !in registry.labels {
      return Success(None);
    }
    var labels := registry.labels[t];
    if serviceInfoMap.None? {
      return Failure(NullDereference);
    }
    if LabelIn(serviceInfoMap.value, labels) {
      var info := Construct(build, serviceInfoMap.value);
      if info.Failure? {
        return Failure(info.error);
      }
      return Success(Some(info.value));
    }
    return Success(None);
  }

  // ---------------------------------------------------------------------------
  // getServiceInfos(type)

  /**
   * `getServiceInfos(serviceInfoType)`: nothing for a type with no registry
   * entry (the environment is then not even read); otherwise one info per
   * label-matched descriptor, in order, failing as a whole if one construction fails.
   */
  method GetServiceInfos<I>(env: Environment, registry: LabelRegistry, t: ServiceType,
                            build: Descriptor -> Option<I>) returns (r: Result<seq<I>, Error>)
    ensures t !in registry.labels ==> r == Success([])
    ensures t in registry.labels && Services(env).Failure? ==> r == Failure(Services(env).error)
    ensures t in registry.labels && Services(env).Success? ==>
      r == ConstructAll(build, ByLabels(Services(env).value, registry.labels[t]))
  {
    var infos: seq<I> := [];
    if t !in registry.labels {
      return Success(infos);
    }
    var labels := registry.labels[t];
    var matched := GetServiceDataByLabels(env, labels);
    if matched.Failure? {
      return Failure(matched.error);
    }
    var maps := matched.value;
    var i := 0;
    while i < |maps|
      invariant 0 <= i <= |maps|
      invariant |infos| == i
      invariant forall j :: 0 <= j < i ==> build(maps[j]) == Some(infos[j])
    {
      var info := Construct(build, maps[i]);
      if info.Failure? {
        return Failure(info.error);
      }
      infos := infos + [info.value];
      i := i + 1;
    }
    var all := ConstructAll(build, maps);
    assert all.Success? && |all.value| == |infos|;
    assert forall j :: 0 <= j < |infos| ==> all.value[j] == infos[j];
    assert all.value == infos;
    return Success(infos);
  }

  /**
   * When no descriptor carries a label of the type, the type yields an empty
   * list, never a failure; in particular when there are no descriptors at all.
   */
  lemma {:induction false} NoMatchesNoInfos<I>(s: seq<Descriptor>, labels: set<string>, build: Descriptor -> Option<I>)
    requires forall j :: 0 <= j < |s| ==> !LabelIn(s[j], labels)
    ensures ConstructAll(build, ByLabels(s, labels)) == Success([])
  {
    if s != [] {
      assert forall j :: 0 <= j < |s[1..]| ==> s[1..][j] == s[j + 1];
      NoMatchesNoInfos(s[1..], labels, build);
    }
  }
}
