# WBPA.Amazon core, modelled in Dafny

WBPA.Amazon is a thin adapter over the AWS SDK for .NET. Its core is modelled here:

- **`Manager<TClient, TConfig>`** (`manager.dfy`, module `Runtime`) is the base class of every client manager.
  - The constructor rejects null credentials and a null region parser, captures the configured `ManagerOptions`, and defers building the client.
  - The first read of `Client` runs the build step and caches the result. The build step creates a `TConfig`, then runs a chain of `IgnoreMissingMethod` assignments: the resolved region, then nineteen options. Each assignment is skipped when `TConfig` lacks the member. Finally it constructs `TClient` from the credentials and the configuration.
  - `Dispose(bool)` marks the manager disposed, then reads `Client` and disposes it.
  - The manager is a class with the lazy slot (`client`) and the `disposed` flag as fields. The configuration under construction is a class whose member values are a map that each assignment updates.
- **`ConstantClassCollection<T>`** (`constant_class_collection.dfy`) is an `IList` wrapper over a `List`. It is a class whose `items` sequence every mutating member reassigns. `List`'s argument exceptions are returned as error values.
- **`UriExtensions.ToRegionEndpoint`** (`uri_extensions.dfy`) resolves a URI to a region. It runs the null checks, then either calls a caller-supplied parser or takes the first catalog region whose `SystemName` occurs in the host, ignoring case.
- **`RequestExtensions.GetApproximateMessageSize`** (`request_extensions.dfy`) sums the lengths of every parameter key and value. It returns 0 for a null request, and the accumulator is a C# `int` with wrap-around. Strings are sequences of UTF-16 code units, so `Length` counts a supplementary character as 2, as .NET does.

`wrappers.dfy` holds the `Option`, `Result` and `Outcome` types that stand for null and for raised exceptions. `aws_types.dfy` holds stand-ins for the SDK's `RegionEndpoint` and `AWSCredentials`.

Two points about how the model reads the code:

- **Disposing a manager whose `Client` was never read.** `Client?.Dispose()` reads a `Lazy` value, so it builds the client first, then disposes it. If the build fails, the exception escapes `Dispose` after the manager has already been marked disposed. The model states this:
  - `Runtime.Manager.DisposeCore` states both outcomes.
  - `Runtime.Manager.Valid` records that a disposed manager holds a client exactly when `TClient` can be constructed.
- **The build step's chain.** The twenty chained `IgnoreMissingMethod` calls are modelled as data plus one recursive method that runs them in order:
  - `Runtime.BuildOrder` is the list of members in the order the chain assigns them.
  - `Runtime.Assigned` gives the value each assignment uses.
  - `Runtime.Manager.RunLinks` runs the links. One proof about `RunLinks`, together with the lemma `Runtime.RunMeaning`, covers all twenty assignments.

## Model

| member | source | states |
|---|---|---|
| Runtime.NewManager | src/WBPA.Amazon/Runtime/Manager.cs:28-33 | A null `credentials` fails with ArgumentNull("credentials") before the parser is checked. A null parser fails with ArgumentNull("regionEndpointParser"). Otherwise the result is a fresh, valid manager that has built nothing. It holds the given credentials and parser and the options `ConfigureOptions` produces. |
| Runtime.Manager.constructor | src/WBPA.Amazon/Runtime/Manager.cs:32-33 | Captures its inputs with an empty client slot, not disposed, no construction made, and establishes the lifecycle invariant `Valid`. |
| Runtime.ClientConfig.constructor | src/WBPA.Amazon/Runtime/Manager.cs:35 | A fresh TConfig has the type's members and default values. |
| Runtime.ClientConfig.Assign | src/WBPA.Amazon/Runtime/Manager.cs:36 | One IgnoreMissingMethod link: the member is set when TConfig has it; otherwise the configuration is unchanged. |
| Runtime.RunMeaning | src/WBPA.Amazon/Runtime/Manager.cs:35-55 | After a chain of links runs, each member the chain names and TConfig has holds its assigned value. Every other member keeps its previous value and its presence. |
| Runtime.BuildOrderComplete | src/WBPA.Amazon/Runtime/Manager.cs:36-55 | The build step's chain names every one of the twenty configuration members. |
| Runtime.CompleteChainPopulates | src/WBPA.Amazon/Runtime/Manager.cs:35-55 | A chain naming every member, run on a fresh instance, populates it: every supported member has its assigned value, and every unsupported member is exactly as in the fresh instance. |
| Runtime.Manager.RunLinks | src/WBPA.Amazon/Runtime/Manager.cs:36-55 | Running the links in order leaves the configuration equal to `Run` of the links on its old values. |
| Runtime.Manager.Configure | src/WBPA.Amazon/Runtime/Manager.cs:35-55 | The configuration the build step produces is populated: the region comes from the parser, each supported option comes from the captured options, and unsupported members keep the defaults. |
| Runtime.PopulatedUnique | src/WBPA.Amazon/Runtime/Manager.cs:35-55 | The configuration the build step produces is determined by the configuration type, the resolved region and the options. |
| Runtime.RegionIgnoresOptions | src/WBPA.Amazon/Runtime/Manager.cs:36 | When TConfig has a RegionEndpoint, the configured region is the parser's answer whatever the options. |
| Runtime.Client.constructor | src/WBPA.Amazon/Runtime/Manager.cs:56 | A new client holds the given credentials and configuration and is not disposed. |
| Runtime.Manager.Build | src/WBPA.Amazon/Runtime/Manager.cs:34-57 | When TClient has the (credentials, config) constructor, the result is a fresh, undisposed client with the manager's credentials and a populated configuration. Otherwise the result is MissingConstructor. Each call that constructs a client adds exactly one to the manager's construction count, and the slot and the disposed flag are untouched. |
| Runtime.Manager.GetClient | src/WBPA.Amazon/Runtime/Manager.cs:75 | Once a client is cached, every read returns it without building again. A first successful read builds exactly one client and caches it. A failed build leaves the slot empty. The slot invariant, the lifecycle invariant and the disposed flag are preserved. |
| Runtime.Client.Dispose | src/WBPA.Amazon/Runtime/Manager.cs:68 | The client is disposed afterwards. |
| Runtime.Manager.DisposeCore | src/WBPA.Amazon/Runtime/Manager.cs:64-69 | It changes nothing when already disposed or when `disposing` is false. Otherwise the manager is marked disposed and the client is disposed. A client that was never built is built first, exactly once. If the build fails, the error propagates with the manager still marked disposed. `Valid` is preserved. |
| Runtime.Manager.Dispose | src/WBPA.Amazon/Runtime/Manager.cs:80-84 | Afterwards the manager is disposed and valid. A second Dispose changes nothing. When TClient can be constructed, exactly one client exists and it is disposed. A client built by the first Dispose is fresh. When TClient cannot be constructed, a first Dispose fails with MissingConstructor and leaves no client. |
| ConstantClassCollections.FirstIndex | src/WBPA.Amazon/ConstantClassCollection.cs:108-111 | The result is -1 exactly when the item is absent. Otherwise it is an index holding the item with no earlier occurrence. |
| ConstantClassCollections.ConstantClassCollection.constructor | src/WBPA.Amazon/ConstantClassCollection.cs:14-21 | A new collection is empty. |
| ConstantClassCollections.ConstantClassCollection.Get | src/WBPA.Amazon/ConstantClassCollection.cs:30 | An index in range returns the element there. Any other index fails with ArgumentOutOfRange. |
| ConstantClassCollections.ConstantClassCollection.Set | src/WBPA.Amazon/ConstantClassCollection.cs:31 | An index in range replaces that position and no other. Any other index fails with ArgumentOutOfRange and leaves the list unchanged. |
| ConstantClassCollections.ConstantClassCollection.Count | src/WBPA.Amazon/ConstantClassCollection.cs:38 | Count is the number of elements. |
| ConstantClassCollections.ConstantClassCollection.IsReadOnly | src/WBPA.Amazon/ConstantClassCollection.cs:44 | The collection is never read-only. |
| ConstantClassCollections.ConstantClassCollection.Add | src/WBPA.Amazon/ConstantClassCollection.cs:50-62 | The item is appended at the end and Count grows by one. |
| ConstantClassCollections.ConstantClassCollection.Clear | src/WBPA.Amazon/ConstantClassCollection.cs:67-70 | The list is empty and Count is 0. |
| ConstantClassCollections.ConstantClassCollection.Contains | src/WBPA.Amazon/ConstantClassCollection.cs:77-80 | True exactly when the item occurs, in agreement with IndexOf. |
| ConstantClassCollections.ConstantClassCollection.CopyTo | src/WBPA.Amazon/ConstantClassCollection.cs:87-90 | A null array fails with ArgumentNull, a negative index with ArgumentOutOfRange, and too little room with Argument. In each failure case the array is untouched. Otherwise the elements are copied in order from `arrayIndex` on, and the rest of the array is unchanged. |
| ConstantClassCollections.ConstantClassCollection.Remove | src/WBPA.Amazon/ConstantClassCollection.cs:97-100 | Returns true exactly when the item occurred. Only the first occurrence is removed, and the order of the rest is kept. The multiset loses exactly one copy. |
| ConstantClassCollections.ConstantClassCollection.IndexOf | src/WBPA.Amazon/ConstantClassCollection.cs:108-111 | Returns -1 exactly when the item is absent. Otherwise it returns the smallest index holding the item. |
| ConstantClassCollections.ConstantClassCollection.Insert | src/WBPA.Amazon/ConstantClassCollection.cs:118-121 | For 0 <= index <= Count, the item is spliced in at that index and the multiset gains one copy. Otherwise it fails with ArgumentOutOfRange and the list is unchanged. |
| ConstantClassCollections.ConstantClassCollection.RemoveAt | src/WBPA.Amazon/ConstantClassCollection.cs:127-130 | For 0 <= index < Count, exactly that position is cut out. Otherwise it fails with ArgumentOutOfRange and the list is unchanged. |
| UriExtensions.OccursMeaning | src/WBPA.Amazon/UriExtensions.cs:31 | The containment test holds exactly when the name is a prefix of some suffix of the host. |
| UriExtensions.FirstWhere | src/WBPA.Amazon/UriExtensions.cs:31 | The result is -1 exactly when no element matches. Otherwise it is a matching index with no match before it. |
| UriExtensions.FirstOrDefault | src/WBPA.Amazon/UriExtensions.cs:31 | The result is null exactly when no element matches. Otherwise it is the first matching element of the sequence. |
| UriExtensions.ToRegionEndpointWith | src/WBPA.Amazon/UriExtensions.cs:41-46 | A null endpoint fails with ArgumentNull("endpoint") before the parser is checked. A null parser fails with ArgumentNull("parser"). Otherwise the parser's answer is returned unchanged. |
| UriExtensions.ToRegionEndpoint | src/WBPA.Amazon/UriExtensions.cs:27-33 | A null endpoint fails with ArgumentNull. A relative URI fails with InvalidOperation when the catalog is non-empty, and yields null when it is empty, because the host is read only inside the search predicate. An absolute URI yields null exactly when no catalog region's SystemName occurs in the host, ignoring case. Otherwise it yields the first catalog region that does. |
| UriExtensions.ResolvesNamedRegion | src/WBPA.Amazon/UriExtensions.cs:27-33 | A host that contains some catalog region's SystemName resolves to a region. |
| RequestExtensions.Wrap32 | src/WBPA.Amazon/Runtime/Internal/RequestExtensions.cs:18-22 | The wrapped value is in the Int32 range and equals the input when the input is already in range. |
| RequestExtensions.Wrap32Mod | src/WBPA.Amazon/Runtime/Internal/RequestExtensions.cs:18-22 | Wrapping is reduction modulo 2^32 into the signed range. |
| RequestExtensions.Wrap32Add | src/WBPA.Amazon/Runtime/Internal/RequestExtensions.cs:21-22 | Adding to an already wrapped sum gives the same result as wrapping the exact sum. |
| RequestExtensions.SumOverRemove | src/WBPA.Amazon/Runtime/Internal/RequestExtensions.cs:19-23 | The sum over a key set equals any one key's entry size plus the sum over the other keys, so the iteration order does not matter. |
| RequestExtensions.SumOverFrame | src/WBPA.Amazon/Runtime/Internal/RequestExtensions.cs:19-23 | The sum over a key set depends only on the entries of those keys. |
| RequestExtensions.TotalAdd | src/WBPA.Amazon/Runtime/Internal/RequestExtensions.cs:19-23 | Adding a parameter with a new key raises the total by the key's length plus the value's length. |
| RequestExtensions.GetApproximateMessageSize | src/WBPA.Amazon/Runtime/Internal/RequestExtensions.cs:15-25 | A null request gives 0, and so does an empty parameter dictionary. Otherwise the result is the exact total of key and value lengths wrapped to Int32, which is the total itself when the total fits. This holds for every iteration order. |

## Left out

- Thread safety is not modelled. This covers `Lazy<T>`'s publication mode and the `volatile` disposed flag; the model is single-threaded.
- `Lazy<T>` caches a factory exception, whereas the model leaves the slot empty after a failed build and builds again on the next read. The build outcome is a deterministic function of the manager's fields, so every read still reports the same error. What differs is that in the model each such read runs the configuration chain and calls the region parser again.
- Reflection is given as data rather than modelled:
  - `ActivatorUtility` and `IgnoreMissingMethod` become `ConfigType` (the members TConfig has and a fresh instance's values) and `ClientType` (whether TClient has the constructor).
  - In `UriExtensions`, the set of `RegionEndpoint` static fields is the parameter `catalog`.
- Cuemon's `ConfigureOptions` is modelled by `Runtime.ConfigureOptions`: the default `ManagerOptions` (a parameter), or `setup` applied to them, with `setup` a function from options to options. A `setup` that raises is not modelled.
- `regionEndpointParser` is a pure, total function (`() -> Option<RegionEndpoint>`): it returns the same region on every call and never raises. This is what lets the slot invariant compare a cached configuration with the parser's answer at any later time.
- The SDK's setting types are not modelled. Booleans, integers, `TimeSpan`, strings and proxy credentials are opaque tokens.
- The client keeps the configuration's values, not a reference to the `TConfig` object.
- The SDK client's own `Dispose` and `GC.SuppressFinalize` are reduced to the client's disposed flag.
- A cached read of `Client` runs neither the region parser nor the configuration chain. The model shows that it runs no build (the construction count is unchanged), but it does not count parser calls or chain runs separately. The parser is pure, so such a re-run could not be observed in this model.
- Runtime.Manager.Build — the build fails only when TClient lacks the (credentials, config) constructor. A setter of an existing TConfig member that raises, and a TClient constructor that raises, are not modelled; in the code either exception would escape `Client` and `Dispose` as well.
- Null values are only partly modelled:
  - An exception raised by the region parser is not modelled.
  - A null parameter key or value in a request (a NullReferenceException) is not modelled.
- `StringComparison.OrdinalIgnoreCase` is modelled as ASCII case folding. Unicode case mappings are not modelled.
- The untyped `ICollection<ConstantClass>.Add` overload is modelled by the single `Add`, since both append to the wrapped list.
- Element equality in `Contains`, `IndexOf` and `Remove` is Dafny's `==` on the element type. It stands for `ConstantClass.Equals`, whose comparison of the constant's `Value` belongs to the SDK and is not modelled.
- The enumerators (`GetEnumerator`) are not modelled.
- `AmazonWebServiceRequestExtensions.Marshall` and `AttributeType` are context, not core, and are not part of this model.
