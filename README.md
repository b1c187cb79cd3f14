# Cloud Foundry service resolution, modelled in Dafny

This project models the service-resolution core of `CloudEnvironment` in the
Cloud Foundry runtime library. An application reads two environment
variables: `VCAP_APPLICATION` describes the running instance and
`VCAP_SERVICES` lists the bound services. Each service is described by an
attribute map (a *descriptor*) carrying a `name` and a `label`. The library
maps these descriptors onto typed service-information objects (MySQL, Redis,
MongoDB, PostgreSQL, RabbitMQ). A process-wide registry says which labels
identify which type. Several historical labels may denote one type: RabbitMQ
has three.

Files and modules:

- `wrappers.dfy` (`Wrappers`): `Option` stands for a Java `null` result and
  `Result` for an exception that propagates to the caller.
- `registry.dfy` (`Registry`): the label registry. It is a class whose `labels`
  map is updated in place by `Register` (`labelledServiceType`).
  `StaticInit` replays the static initialiser. The pure function `WithLabel`
  specifies one registration.
- `store.dfy` (`DescriptorStore`): the decoded JSON values, the environment,
  `getInstanceInfo`, `getRawServices` and `getServices`. `String.trim` is
  modelled as Java implements it, with two index scans.
- `resolver.dfy` (`Resolver`): `getServiceDataByName`,
  `getServiceDataByLabels`, both `getServiceInfo` overloads and
  `getServiceInfos`. The loops are methods proved against the specification
  functions `FindByName`, `ByLabels` and `ConstructAll`.
- `apiuri.dfy` (`ApiUri`): `getCloudApiUri` and the `indexOf`/`substring`
  surgery it performs.

The environment is a `map<string, string>`. JSON decoding is a given total
function per variable that returns `None` where Jackson throws. Each service
type's reflective constructor is a given function `Descriptor -> Option<I>`.
The decoded `VCAP_SERVICES` map is a sequence of categories in the map's
iteration order. Java leaves that order unspecified, so no property here
depends on it: categories are flattened in the iteration order of the `Map`
the decoder returns, which the source does not fix. `ConcatPermutation` proves that any reordering of the
categories flattens to the same multiset of descriptors.

The model follows the code as written; in particular:

- `getServiceInfo(name, type)` with a name that no descriptor carries does not
  return absent. When a descriptor without a name is reached first, the name
  scan itself fails (`NullDereference`), whatever the type. Otherwise, when
  the type has a registry entry, the label test dereferences the missing
  descriptor and fails the same way; when the type has no entry, the
  `labels != null` test short-circuits and the result is absent.
- `VCAP_SERVICES` counts as unset only when absent or of length zero. A
  whitespace-only value is handed to the decoder. `VCAP_APPLICATION` counts
  as unset when absent or blank after `trim()`.
- The name scan dereferences `service.get("name")`. A descriptor without a
  name (or with a JSON `null` name) that is reached before a match makes the
  lookup fail rather than be skipped.
- `getServiceInfos` for a type with no registry entry returns an empty list
  without reading `VCAP_SERVICES`, so a malformed value is not reported then.

## Model

| member | source | states |
|---|---|---|
| `Registry.WithLabel` | cloudfoundry-runtime/src/main/java/org/cloudfoundry/runtime/env/CloudEnvironment.java:30-40 | after registering `(t, l)`, `t` is a key, `t`'s labels are exactly its old labels plus `l`, and every other type's labels are unchanged |
| `Registry.WithLabelIdempotent` | cloudfoundry-runtime/src/main/java/org/cloudfoundry/runtime/env/CloudEnvironment.java:39 | registering the same association twice equals registering it once (set add) |
| `Registry.WithLabelCommutes` | cloudfoundry-runtime/src/main/java/org/cloudfoundry/runtime/env/CloudEnvironment.java:30-40 | two registrations give the same map in either order, so population order is immaterial |
| `Registry.WithLabelNew` | cloudfoundry-runtime/src/main/java/org/cloudfoundry/runtime/env/CloudEnvironment.java:33-39 | the first registration of a type creates a one-label set |
| `Registry.WithLabelKnown` | cloudfoundry-runtime/src/main/java/org/cloudfoundry/runtime/env/CloudEnvironment.java:33-39 | a further registration of a known type adds the label to its existing set |
| `Registry.WithLabelThree` | cloudfoundry-runtime/src/main/java/org/cloudfoundry/runtime/env/CloudEnvironment.java:49-53 | three registrations of a type not yet registered leave it exactly those three labels and every other entry unchanged |
| `Registry.WithLabelKeepsDisjoint` | cloudfoundry-runtime/src/main/java/org/cloudfoundry/runtime/env/CloudEnvironment.java:30-40 | adding a label that no other type holds preserves "no label belongs to two types" |
| `Registry.LabelRegistry.constructor` | cloudfoundry-runtime/src/main/java/org/cloudfoundry/runtime/env/CloudEnvironment.java:28 | the registry starts as an empty map |
| `Registry.LabelRegistry.Register` | cloudfoundry-runtime/src/main/java/org/cloudfoundry/runtime/env/CloudEnvironment.java:30-40 | the in-place update (create the set if absent, then add) leaves exactly `WithLabel` of the old map |
| `Registry.StaticInit` | cloudfoundry-runtime/src/main/java/org/cloudfoundry/runtime/env/CloudEnvironment.java:42-54 | the seven registrations leave exactly the static table, in which labels are disjoint |
| `Registry.StaticLabelsContents` | cloudfoundry-runtime/src/main/java/org/cloudfoundry/runtime/env/CloudEnvironment.java:42-54 | replaying the static registrations yields Mysql `mysql-5.1`, Redis `redis-2.2`, Mongo `mongodb-1.8`, Postgresql `postgresql-9.0` and Rabbit `rabbitmq-2.4`, `rabbitmq-srs-2.4.1`, `rabbitmq-2.4.1` |
| `Registry.StaticLabelCounts` | cloudfoundry-runtime/src/main/java/org/cloudfoundry/runtime/env/CloudEnvironment.java:42-54 | Rabbit has exactly three labels, each other built-in type exactly one, and a type is in the table exactly when it is one of the five built-in types |
| `Registry.StaticLabelsKeys` | cloudfoundry-runtime/src/main/java/org/cloudfoundry/runtime/env/CloudEnvironment.java:42-54 | the seven static registrations register exactly the five built-in types and no `Other` type |
| `Registry.StaticLabelsDisjoint` | cloudfoundry-runtime/src/main/java/org/cloudfoundry/runtime/env/CloudEnvironment.java:42-54 | after static initialisation no label belongs to two types |
| `DescriptorStore.GetValue` | cloudfoundry-runtime/src/main/java/org/cloudfoundry/runtime/env/CloudEnvironment.java:61-63 | a variable's value is present exactly when the environment defines it, and is then that value |
| `DescriptorStore.TrimStartIndex` | cloudfoundry-runtime/src/main/java/org/cloudfoundry/runtime/env/CloudEnvironment.java:68 | `trim`'s forward scan stops at the first character above U+0020, and everything it skips is at most U+0020 |
| `DescriptorStore.TrimEndIndex` | cloudfoundry-runtime/src/main/java/org/cloudfoundry/runtime/env/CloudEnvironment.java:68 | `trim`'s backward scan stops after the last character above U+0020, never below the start, and everything it drops is at most U+0020 |
| `DescriptorStore.Trim` | cloudfoundry-runtime/src/main/java/org/cloudfoundry/runtime/env/CloudEnvironment.java:68 | `trim()` is empty exactly when the string is blank, and a non-empty result starts and ends with a non-blank character |
| `DescriptorStore.InstanceInfoOf` | cloudfoundry-runtime/src/main/java/org/cloudfoundry/runtime/env/CloudEnvironment.java:66-77 | the instance info is absent exactly when `VCAP_APPLICATION` is unset or blank; it fails exactly when a non-blank value does not decode, and then with a decoding failure of that variable; when a non-blank value decodes, the result is that decoded value |
| `DescriptorStore.RawServices` | cloudfoundry-runtime/src/main/java/org/cloudfoundry/runtime/env/CloudEnvironment.java:99-109 | an unset or zero-length `VCAP_SERVICES` gives no categories; the call fails exactly when a non-empty value does not decode, and then with a decoding failure of that variable; when a non-empty value decodes, the categories are the decoded ones |
| `DescriptorStore.Concat` | cloudfoundry-runtime/src/main/java/org/cloudfoundry/runtime/env/CloudEnvironment.java:114-117 | the flattened list's length is the sum of the categories' list lengths |
| `DescriptorStore.ConcatAppend` | cloudfoundry-runtime/src/main/java/org/cloudfoundry/runtime/env/CloudEnvironment.java:115-117 | flattening two runs of categories is the concatenation of flattening each |
| `DescriptorStore.ConcatSplit` | cloudfoundry-runtime/src/main/java/org/cloudfoundry/runtime/env/CloudEnvironment.java:115-117 | each category's descriptors appear intact and in their own order, between those of earlier and later categories |
| `DescriptorStore.ConcatRemove` | cloudfoundry-runtime/src/main/java/org/cloudfoundry/runtime/env/CloudEnvironment.java:115-117 | taking one category out of the iteration removes exactly its descriptors from the flattened multiset |
| `DescriptorStore.ConcatPermutation` | cloudfoundry-runtime/src/main/java/org/cloudfoundry/runtime/env/CloudEnvironment.java:115-117 | any iteration order of the services map flattens to the same multiset of descriptors |
| `DescriptorStore.NoServicesVariable` | cloudfoundry-runtime/src/main/java/org/cloudfoundry/runtime/env/CloudEnvironment.java:100-103 | an unset or zero-length `VCAP_SERVICES` yields an empty services list, never an error |
| `DescriptorStore.Services` | cloudfoundry-runtime/src/main/java/org/cloudfoundry/runtime/env/CloudEnvironment.java:111-119 | the services list fails exactly when the raw services fail, always with the decoding failure of `VCAP_SERVICES`, and otherwise holds as many descriptors as all categories together |
| `DescriptorStore.GetServices` | cloudfoundry-runtime/src/main/java/org/cloudfoundry/runtime/env/CloudEnvironment.java:111-119 | the loop returns the concatenation of all category lists, of the summed length, or the decoding failure |
| `Resolver.ScanLength` | cloudfoundry-runtime/src/main/java/org/cloudfoundry/runtime/env/CloudEnvironment.java:124-128 | the scan passes exactly the leading descriptors that carry a name other than the one sought and stops at a match or a nameless descriptor |
| `Resolver.FindByName` | cloudfoundry-runtime/src/main/java/org/cloudfoundry/runtime/env/CloudEnvironment.java:121-130 | the result is the first descriptor with the name, with no earlier one having it; it is null exactly when every descriptor has another name; otherwise a nameless descriptor reached before a match fails the lookup |
| `Resolver.FindByNameFirst` | cloudfoundry-runtime/src/main/java/org/cloudfoundry/runtime/env/CloudEnvironment.java:124-127 | the first descriptor with the name is returned whatever follows it |
| `Resolver.GetServiceDataByName` | cloudfoundry-runtime/src/main/java/org/cloudfoundry/runtime/env/CloudEnvironment.java:121-130 | the loop with early return computes `FindByName` of the services list, or propagates its decoding failure |
| `Resolver.ByLabels` | cloudfoundry-runtime/src/main/java/org/cloudfoundry/runtime/env/CloudEnvironment.java:132-142 | the result is a subsequence of the services list in original order, and a descriptor is in it exactly when it is in the list with a label in the set |
| `Resolver.ByLabelsCount` | cloudfoundry-runtime/src/main/java/org/cloudfoundry/runtime/env/CloudEnvironment.java:135-139 | each matching descriptor is kept as often as it occurs, and every other one is dropped |
| `Resolver.ByLabelsAppend` | cloudfoundry-runtime/src/main/java/org/cloudfoundry/runtime/env/CloudEnvironment.java:135-139 | filtering distributes over concatenation, so the relative order of any two parts is kept |
| `Resolver.ByLabelsStep` | cloudfoundry-runtime/src/main/java/org/cloudfoundry/runtime/env/CloudEnvironment.java:135-139 | one more loop step appends the descriptor to the filtered prefix exactly when its label is in the set |
| `Resolver.GetServiceDataByLabels` | cloudfoundry-runtime/src/main/java/org/cloudfoundry/runtime/env/CloudEnvironment.java:132-142 | the loop returns `ByLabels` of the services list, or propagates its decoding failure |
| `Resolver.Construct` | cloudfoundry-runtime/src/main/java/org/cloudfoundry/runtime/env/CloudEnvironment.java:169-176 | construction succeeds exactly when the type's constructor does, with its value; otherwise it fails naming the descriptor |
| `Resolver.ConstructAll` | cloudfoundry-runtime/src/main/java/org/cloudfoundry/runtime/env/CloudEnvironment.java:160-176 | the result is one constructed info per descriptor, in order, exactly when every construction succeeds; otherwise it is the failure of the first failing descriptor, never a partial list |
| `Resolver.ResolveByName` | cloudfoundry-runtime/src/main/java/org/cloudfoundry/runtime/env/CloudEnvironment.java:145-152 | a failed name scan (a nameless descriptor reached first) propagates as a null dereference; a type without a registry entry yields null once the lookup succeeds; a constructed info comes only from the first descriptor with the name, whose label is in the type's registered set; any failure is the null dereference or the construction failure naming the descriptor (the cases are spelled out by `ResolveByNameFound`, `ResolveByNameUnregistered` and `ResolveByNameMissing`) |
| `Resolver.ResolveByNameFound` | cloudfoundry-runtime/src/main/java/org/cloudfoundry/runtime/env/CloudEnvironment.java:145-152 | for the first descriptor with the name and a registered type, a label in the type's set yields the constructed info or a construction failure naming it; any other label yields null |
| `Resolver.ResolveByNameUnregistered` | cloudfoundry-runtime/src/main/java/org/cloudfoundry/runtime/env/CloudEnvironment.java:146-151 | a type without a registry entry yields null whenever the name lookup itself does not fail, including when no descriptor has the name |
| `Resolver.ResolveByNameMissing` | cloudfoundry-runtime/src/main/java/org/cloudfoundry/runtime/env/CloudEnvironment.java:145-148 | for a registered type, a name that no descriptor carries fails with a null dereference and is never reported as null, whether or not some descriptor lacks a name |
| `Resolver.GetServiceInfo` | cloudfoundry-runtime/src/main/java/org/cloudfoundry/runtime/env/CloudEnvironment.java:144-153 | the method computes the name lookup followed by the label gate with the registry's entry for the type, or propagates the decoding failure |
| `Resolver.GetServiceInfos` | cloudfoundry-runtime/src/main/java/org/cloudfoundry/runtime/env/CloudEnvironment.java:155-167 | an unregistered type yields an empty list; otherwise the result is `ConstructAll` over the label-matched descriptors in order, or the decoding failure |
| `Resolver.NoMatchesNoInfos` | cloudfoundry-runtime/src/main/java/org/cloudfoundry/runtime/env/CloudEnvironment.java:159-166 | when no descriptor carries a label of the type (in particular when there are none), the type yields an empty list, not an error |
| `ApiUri.IndexOf` | cloudfoundry-runtime/src/main/java/org/cloudfoundry/runtime/env/CloudEnvironment.java:86 | `indexOf` is -1 exactly when the character is absent, and otherwise the position of its first occurrence |
| `ApiUri.IndexOfFirst` | cloudfoundry-runtime/src/main/java/org/cloudfoundry/runtime/env/CloudEnvironment.java:86 | a position holding the character with none before it is the one `indexOf` reports |
| `ApiUri.ApiAddress` | cloudfoundry-runtime/src/main/java/org/cloudfoundry/runtime/env/CloudEnvironment.java:86 | the address fails exactly when the URI has no `.`; otherwise it is `api` followed by the URI's suffix that starts at its first `.` |
| `ApiUri.ApiAddressReplacesFirstLabel` | cloudfoundry-runtime/src/main/java/org/cloudfoundry/runtime/env/CloudEnvironment.java:86 | for any dot-free first label, `label.rest` becomes `api.rest` |
| `ApiUri.ApiAddressExample` | cloudfoundry-runtime/src/main/java/org/cloudfoundry/runtime/env/CloudEnvironment.java:86 | `myapp.example.com` becomes `api.example.com` |
| `ApiUri.ApiAddressOfApi` | cloudfoundry-runtime/src/main/java/org/cloudfoundry/runtime/env/CloudEnvironment.java:86 | an address that already starts with `api.` is its own API address |
| `ApiUri.ApiAddressIdempotent` | cloudfoundry-runtime/src/main/java/org/cloudfoundry/runtime/env/CloudEnvironment.java:86 | deriving the API address of an API address changes nothing |
| `ApiUri.CloudApiUri` | cloudfoundry-runtime/src/main/java/org/cloudfoundry/runtime/env/CloudEnvironment.java:79-87 | a decoding failure propagates; no instance info is an illegal-argument failure; success happens exactly when the instance has a first URI containing a `.`, and is that URI's API address; an empty URI list fails with an index-out-of-bounds failure, a dot-free first URI with a string-index-out-of-bounds failure |
| `ApiUri.CloudApiUriOutsideCloud` | cloudfoundry-runtime/src/main/java/org/cloudfoundry/runtime/env/CloudEnvironment.java:66-83 | with `VCAP_APPLICATION` unset or blank there is no API address, only the illegal-argument failure |

## Left out

- JSON decoding (Jackson `ObjectMapper.readValue`) is a foreign library. Each variable's decoder is a given total function whose `None` stands for any exception it throws. A decoded value of the wrong shape (the unchecked casts) is not modelled.
- `System.getenv` in `EnvironmentAccessor` reads the process environment. The environment is a given map instead.
- The `setCloudEnvironment` test hook only swaps that map, so it is not modelled.
- The reflective `getConstructor(Map.class).newInstance` and the concrete `*ServiceInfo` classes are not part of this model. Each type's constructor is a given partial function from descriptors.
- `ApplicationInstanceInfo` is not part of this model. Its `getUris()` is a given sequence of strings, so a missing URI field in the instance JSON is not modelled.
- Exception messages and cause chains are not modelled. A construction failure carries only the descriptor's `name` value.
- JSON numbers are integers in `Value`. Floating-point numbers are not modelled.
- Thread safety of the static registry is a concurrency concern and is not modelled. Without mutable globals in Dafny, the static map becomes a `LabelRegistry` object passed to the resolution methods.
