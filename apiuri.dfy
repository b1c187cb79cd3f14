/**
 * `getCloudApiUri()`: the address of the platform's management API, derived
 * from the application's first public address by replacing its first host
 * label with "api".
 */
module ApiUri {
  import opened Wrappers
  import opened DescriptorStore

  /** `s.indexOf(c)`: the first position of c in s, or -1. */
  function IndexOf(s: string, c: char): (r: int)
    ensures -1 <= r < |s|
    ensures r == -1 <==> c !in s
    ensures 0 <= r ==> s[r] == c && c !in s[..r]
  {
    if s == [] then -1
    else if s[0] == c then 0
    else
      var k := IndexOf(s[1..], c);
      if k < 0 then -1
      else
        assert s[..k + 1] == [s[0]] + s[1..][..k];
        k + 1
  }

  /** The first occurrence is the only position that `IndexOf` can report. */
  lemma IndexOfFirst(s: string, c: char, k: nat)
    requires k < |s| && s[k] == c && c !in s[..k]
    ensures IndexOf(s, c) == k
  {
  }

  /**
   * `"api" + u.substring(u.indexOf("."))`: "api" followed by u from its first
   * '.' on; `substring(-1)` throws when u has no '.'.
   */
  function ApiAddress(u: string): (r: Result<string, Error>)
    ensures r.Failure? <==> '.' !in u
    ensures r.Failure? ==> r.error == StringIndexOutOfBounds
    ensures r.Success? ==> |r.value| > 3 && r.value[..3] == "api" && r.value[3] == '.'
    ensures r.Success? ==>
      var k := |u| - (|r.value| - 3);
      0 <= k && u[k..] == r.value[3..] && '.' !in u[..k]
  {
    var i := IndexOf(u, '.');
    if i < 0 then Failure(StringIndexOutOfBounds)
    else
      var r := "api" + u[i..];
      assert r[3..] == u[i..];
      Success(r)
  }

  /** The first host label, whatever it is, is replaced by "api"; the rest is kept. */
  lemma ApiAddressReplacesFirstLabel(first: string, rest: string)
    requires '.' !in first
    ensures ApiAddress(first + "." + rest) == Success("api." + rest)
  {
    var u := first + "." + rest;
    assert u[..|first|] == first;
    IndexOfFirst(u, '.', |first|);
    assert u[|first|..] == "." + rest;
    assert "api" + u[|first|..] == "api." + rest;
  }

  /** The conventional example: "myapp.example.com" becomes "api.example.com". */
  lemma ApiAddressExample()
    ensures ApiAddress("myapp.example.com") == Success("api.example.com")
  {
    var first, rest := "myapp", "example.com";
    assert first + "." + rest == "myapp.example.com";
    assert "api." + rest == "api.example.com";
    assert '.' !in first by {
      assert first == ['m', 'y', 'a', 'p', 'p'];
    }
    ApiAddressReplacesFirstLabel(first, rest);
  }

  /** An address that already starts with "api." is its own API address. */
  lemma ApiAddressOfApi(a: string)
    requires |a| > 3 && a[..3] == "api" && a[3] == '.'
    ensures ApiAddress(a) == Success(a)
  {
    var rest := a[4..];
    assert a[..4] == a[..3] + [a[3]] == "api.";
    assert a == a[..4] + rest;
    ApiAddressReplacesFirstLabel("api", rest);
  }

  /** Deriving the API address of an API address changes nothing. */
  lemma ApiAddressIdempotent(u: string)
    requires ApiAddress(u).Success?
    ensures ApiAddress(ApiAddress(u).value) == ApiAddress(u)
  {
    ApiAddressOfApi(ApiAddress(u).value);
  }

  /**
   * `getCloudApiUri()`: decoding failures of VCAP_APPLICATION propagate; no
   * instance information is an illegal argument; an empty URI list fails in
   * `get(0)`; otherwise the API address of the first URI.
   */
  function CloudApiUri(env: Environment): (r: Result<string, Error>)
    ensures InstanceInfoOf(env).Failure? ==> r == Failure(Decoding(ApplicationVariable))
    ensures InstanceInfoOf(env) == Success(None) ==> r == Failure(NotInCloud)
    ensures r.Success? <==>
      InstanceInfoOf(env).Success? && InstanceInfoOf(env).value.Some? &&
      InstanceInfoOf(env).value.value.uris != [] && '.' in InstanceInfoOf(env).value.value.uris[0]
    ensures r.Success? ==> ApiAddress(InstanceInfoOf(env).value.value.uris[0]) == r
    ensures (InstanceInfoOf(env).Success? && InstanceInfoOf(env).value.Some? &&
             InstanceInfoOf(env).value.value.uris == []) ==>
      r == Failure(IndexOutOfBounds)
    ensures (InstanceInfoOf(env).Success? && InstanceInfoOf(env).value.Some? &&
             InstanceInfoOf(env).value.value.uris != [] && '.' !in InstanceInfoOf(env).value.value.uris[0]) ==>
      r == Failure(StringIndexOutOfBounds)
  {
    match InstanceInfoOf(env)
    case Failure(e) => Failure(e)
    case Success(None) => Failure(NotInCloud)
    case Success(Some(info)) =>
      if info.uris == [] then Failure(IndexOutOfBounds)
      else ApiAddress(info.uris[0])
  }

  /** Without VCAP_APPLICATION, or with a blank one, there is no API address. */
  lemma CloudApiUriOutsideCloud(env: Environment)
    requires ApplicationVariable !in env.variables || IsBlank(env.variables[ApplicationVariable])
    ensures CloudApiUri(env) == Failure(NotInCloud)
  {
  }
}
