/**
 * What CloudEnvironment reads from the platform: the two environment
 * variables, their decoded form, and the flattening of the services map into
 * one ordered list of service descriptors.
 */
module DescriptorStore {
  import opened Wrappers

  /** A decoded JSON value; numbers are kept as integers. */
  datatype Value =
    | Null
    | Bool(b: bool)
    | Number(n: int)
    | Str(s: string)
    | Array(items: seq<Value>)
    | Object(fields: map<string, Value>)

  /** One service descriptor: the attribute map Jackson decodes. */
  type Descriptor = map<string, Value>

  /** One entry of the decoded VCAP_SERVICES map: a category and its descriptors. */
  datatype Category = Category(name: string, services: seq<Descriptor>)

  /** The decoded VCAP_APPLICATION object, seen through `getUris()`. */
  datatype InstanceInfo = InstanceInfo(uris: seq<string>)

  /** The exceptions the core lets escape. */
  datatype Error =
    | Decoding(variable: string)          // RuntimeException wrapping a JSON decoding failure
    | NotInCloud                          // IllegalArgumentException: no instance information
    | IndexOutOfBounds                    // `get(0)` on an empty URI list
    | StringIndexOutOfBounds              // `substring(-1)` on a URI without a '.'
    | NullDereference                     // NullPointerException
    | ServiceConstruction(name: Value)    // CloudServiceException naming the descriptor

  const ServicesVariable := "VCAP_SERVICES"
  const ApplicationVariable := "VCAP_APPLICATION"

  /**
   * The collaborators of CloudEnvironment: the process environment as seen by
   * EnvironmentAccessor, and the JSON decoder applied to each variable (None
   * where decoding throws). The services decoder yields the map's entries in
   * its iteration order, which Java leaves unspecified.
   */
  datatype Environment = Environment(
    variables: map<string, string>,
    readServices: string -> Option<seq<Category>>,
    readInstance: string -> Option<InstanceInfo>)

  /** `getValue(key)`: None where `System.getenv` returns null. */
  function GetValue(env: Environment, key: string): (r: Option<string>)
    ensures r.Some? <==> key in env.variables
    ensures r.Some? ==> r.value == env.variables[key]
  {
    if key in env.variables then Some(env.variables[key]) else None
  }

  /** Every character of s is one that `String.trim` removes (code point at most U+0020). */
  predicate IsBlank(s: string)
  {
    forall i :: 0 <= i < |s| ==> s[i] <= ' '
  }

  /** `String.trim`'s first scan: from st, step over characters up to U+0020. */
  function TrimStartIndex(s: string, st: nat): (k: nat)
    requires st <= |s|
    ensures st <= k <= |s|
    ensures forall i :: st <= i < k ==> s[i] <= ' '
    ensures k < |s| ==> s[k] > ' '
    decreases |s| - st
  {
    if st < |s| && s[st] <= ' ' then TrimStartIndex(s, st + 1) else st
  }

  /** `String.trim`'s second scan: from len, step back over characters up to U+0020, but not below st. */
  function TrimEndIndex(s: string, st: nat, len: nat): (k: nat)
    requires st <= len <= |s|
    ensures st <= k <= len
    ensures forall i :: k <= i < len ==> s[i] <= ' '
    ensures st < k ==> s[k - 1] > ' '
    decreases len
  {
    if st < len && s[len - 1] <= ' ' then TrimEndIndex(s, st, len - 1) else len
  }

  /** `String.trim`: the part of s between the two scans. */
  function Trim(s: string): (r: string)
    ensures r == [] <==> IsBlank(s)
    ensures r != [] ==> r[0] > ' ' && r[|r| - 1] > ' '
  {
    var st := TrimStartIndex(s, 0);
    var len := TrimEndIndex(s, st, |s|);
    s[st..len]
  }

  /**
   * `getInstanceInfo()`: absent when VCAP_APPLICATION is unset or blank,
   * a decoding failure when it does not decode.
   */
  function InstanceInfoOf(env: Environment): (r: Result<Option<InstanceInfo>, Error>)
    ensures r == Success(None) <==>
      ApplicationVariable !in env.variables || IsBlank(env.variables[ApplicationVariable])
    ensures r.Failure? <==>
      ApplicationVariable in env.variables && !IsBlank(env.variables[ApplicationVariable]) &&
      env.readInstance(env.variables[ApplicationVariable]).None?
    ensures r.Failure? ==> r.error == Decoding(ApplicationVariable)
    ensures (ApplicationVariable in env.variables && !IsBlank(env.variables[ApplicationVariable]) &&
             env.readInstance(env.variables[ApplicationVariable]).Some?) ==>
      r == Success(env.readInstance(env.variables[ApplicationVariable]))
  {
    match GetValue(env, ApplicationVariable)
    case None => Success(None)
    case Some(text) =>
      if Trim(text) == [] then Success(None)
      else match env.readInstance(text)
        case None => Failure(Decoding(ApplicationVariable))
        case Some(info) => Success(Some(info))
  }

  /**
   * `getRawServices()`: no categories when VCAP_SERVICES is unset or of length
   * zero (a blank but non-empty value still goes to the decoder).
   */
  function RawServices(env: Environment): (r: Result<seq<Category>, Error>)
    ensures ServicesVariable !in env.variables || env.variables[ServicesVariable] == [] ==>
      r == Success([])
    ensures r.Failure? <==>
      ServicesVariable in env.variables && env.variables[ServicesVariable] != [] &&
      env.readServices(env.variables[ServicesVariable]).None?
    ensures r.Failure? ==> r.error == Decoding(ServicesVariable)
    ensures r.Success? && ServicesVariable in env.variables && env.variables[ServicesVariable] != [] ==>
      Some(r.value) == env.readServices(env.variables[ServicesVariable])
  {
    match GetValue(env, ServicesVariable)
    case None => Success([])
    case Some(text) =>
      if |text| == 0 then Success([])
      else match env.readServices(text)
        case None => Failure(Decoding(ServicesVariable))
        case Some(categories) => Success(categories)
  }

  /** Total number of descriptors over all categories. */
  function Size(cats: seq<Category>): nat
  {
    if cats == [] then 0 else |cats[0].services| + Size(cats[1..])
  }

  /** The descriptors of all categories, one category after the other. */
  function Concat(cats: seq<Category>): (r: seq<Descriptor>)
    ensures |r| == Size(cats)
  {
    if cats == [] then [] else cats[0].services + Concat(cats[1..])
  }

  lemma {:induction false} ConcatAppend(a: seq<Category>, b: seq<Category>)
    ensures Concat(a + b) == Concat(a) + Concat(b)
  {
    if a == [] {
      assert a + b == b;
    } else {
      assert (a + b)[1..] == a[1..] + b;
      ConcatAppend(a[1..], b);
    }
  }

  /**
   * Each category's descriptors appear in the flattened list as one block, in
   * their own order, after those of the categories iterated before it.
   */
  lemma {:induction false} ConcatSplit(cats: seq<Category>, i: nat)
    requires i < |cats|
    ensures Concat(cats) == Concat(cats[..i]) + cats[i].services + Concat(cats[i + 1..])
  {
    var tail := [cats[i]] + cats[i + 1..];
    assert cats == cats[..i] + tail;
    ConcatAppend(cats[..i], tail);
    assert tail[0] == cats[i] && tail[1..] == cats[i + 1..];
  }

  /** Removing the category at i takes exactly that category out of the multiset. */
  lemma RemoveAt(b: seq<Category>, i: nat)
    requires i < |b|
    ensures multiset(b[..i] + b[i + 1..]) == multiset(b) - multiset{b[i]}
  {
    assert b == b[..i] + [b[i]] + b[i + 1..];
    assert multiset(b) == multiset(b[..i]) + multiset{b[i]} + multiset(b[i + 1..]);
  }

  /** Removing the category at i removes exactly its descriptors from the flattened multiset. */
  lemma ConcatRemove(b: seq<Category>, i: nat)
    requires i < |b|
    ensures multiset(Concat(b)) == multiset(Concat(b[..i] + b[i + 1..])) + multiset(b[i].services)
  {
    ConcatSplit(b, i);
    ConcatAppend(b[..i], b[i + 1..]);
    var pre, post := Concat(b[..i]), Concat(b[i + 1..]);
    assert multiset(pre + b[i].services + post) == multiset(pre) + multiset(b[i].services) + multiset(post);
    assert multiset(pre + post) == multiset(pre) + multiset(post);
  }

  /**
   * The iteration order of the decoded map does not change which descriptors
   * are flattened, nor how often: any reordering of the categories yields the
   * same multiset.
   */
  lemma {:induction false} ConcatPermutation(a: seq<Category>, b: seq<Category>)
    requires multiset(a) == multiset(b)
    ensures multiset(Concat(a)) == multiset(Concat(b))
  {
    if a == [] {
      assert |multiset(b)| == 0;
      assert b == [];
    } else {
      var x := a[0];
      assert x in multiset(b);
      var i :| 0 <= i < |b| && b[i] == x;
      var rest := b[..i] + b[i + 1..];
      assert multiset(a[1..]) == multiset(rest) by {
        RemoveAt(b, i);
        assert a == [x] + a[1..];
        assert multiset(a[1..]) == multiset(a) - multiset{x};
      }
      ConcatPermutation(a[1..], rest);
      assert multiset(Concat(b)) == multiset(Concat(rest)) + multiset(x.services) by {
        ConcatRemove(b, i);
      }
      assert multiset(Concat(a)) == multiset(x.services) + multiset(Concat(a[1..])) by {
        assert Concat(a) == x.services + Concat(a[1..]);
      }
    }
  }

  /** The flattened services list `getServices()` returns, or the decoding failure. */
  function Services(env: Environment): (r: Result<seq<Descriptor>, Error>)
    ensures r.Failure? <==> RawServices(env).Failure?
    ensures r.Failure? ==> r.error == Decoding(ServicesVariable)
    ensures r.Success? ==> |r.value| == Size(RawServices(env).value)
  {
    match RawServices(env)
    case Failure(e) => Failure(e)
    case Success(cats) => Success(Concat(cats))
  }

  /** An unset or zero-length VCAP_SERVICES yields no descriptors at all. */
  lemma NoServicesVariable(env: Environment)
    requires ServicesVariable !in env.variables || env.variables[ServicesVariable] == []
    ensures Services(env) == Success([])
  {
  }

  /** `getServices()`: append each category's list in iteration order. */
  method GetServices(env: Environment) returns (r: Result<seq<Descriptor>, Error>)
    ensures r.Failure? <==> RawServices(env).Failure?
    ensures r.Failure? ==> r.error == Decoding(ServicesVariable)
    ensures r.Success? ==> r.value == Concat(RawServices(env).value) && |r.value| == Size(RawServices(env).value)
  {
    var raw := RawServices(env);
    if raw.Failure? {
      return Failure(raw.error);
    }
    var cats := raw.value;
    var flat: seq<Descriptor> := [];
    var i := 0;
    while i < |cats|
      invariant 0 <= i <= |cats|
      invariant flat + Concat(cats[i..]) == Concat(cats)
    {
      assert cats[i..][1..] == cats[i + 1..];
      flat := flat + cats[i].services;
      i := i + 1;
    }
    assert cats[i..] == [];
    return Success(flat);
  }
}
