# Request options and ForbidContext, modelled in Dafny

This project models two small pieces of the ASP.NET Core HTTP abstractions.

**Per-request named options.** `RequestOptions<TOptions>` resolves a named options value for the current request. `RequestOptionsFactory<TOptions>` does the building.
- `GetAsync(name, context)` treats a null name as `Options.DefaultName`.
- It returns the cached value when the name is already present.
- Otherwise it asks the factory for a value, stores it under the name and returns the stored value.
- `CreateAsync(name, context)` builds a base value with the options library's `IOptionsFactory<TOptions>.Create(name)`.
- It then awaits every registered `IConfigureRequestOptions<TOptions>` once, in registration order. Each configurator receives the same name and context.

In the model (module `RequestOptions`):
- options are a type parameter `O` and the request context a type parameter `C`;
- a configurator is a function `(name, options, context) -> Result<O, E>`, where `Failure` stands for a thrown exception;
- the factory's inputs are a record `Factory(create, configures)`;
- the chain is the left fold `ConfigureAll`, and `Create` is the factory's result as a value;
- `CreateAsync` is a method whose loop follows the source's `foreach`, proved equal to the fold;
- the cache is a `map<string, O>`;
- `GetAsync` is a pure function from the cache, the factory, an optional name and the context to the new cache and the result.

Module `RequestOptionsScenarios` instantiates the model with concrete options. It replays the two behaviours the tests check: the `"12!|"` ordering and the recorded context. A call-recording configurator shows that each configurator runs exactly once, in order, with the same name and context.

**ForbidContext.** Both constructors of `ForbidContext` are modelled in module `ForbidContext`. Each is a function returning `Result<Forbid, ArgumentError>`. A null scheme or properties value is `None` of an `Option`. The scheme check is `string.IsNullOrEmpty`, so a whitespace-only scheme is accepted. The exception is `new ArgumentException(nameof(authenticationScheme))`. That call passes the parameter's name as the exception *message*, and the model records exactly that message.

## Model

| member | source | states |
|---|---|---|
| RequestOptions.GetAsync | src/Microsoft.AspNetCore.Http.Extensions/RequestOptions.cs:58-69 | A successful result is the value stored under the normalised name. A failure leaves the cache unchanged. Existing entries are never replaced or dropped, and only the requested name can be added. A hit returns the cached value with the cache unchanged. A miss returns the factory's full-chain result. |
| RequestOptions.CreateAsync | src/Microsoft.AspNetCore.Http.Extensions/RequestOptions.cs:89-97 | The loop over the configurators yields the left fold of the chain over the base value. A failing base factory fails the call with its error. |
| RequestOptions.ConfigureAllSplit | src/Microsoft.AspNetCore.Http.Extensions/RequestOptions.cs:92-95 | Running the first `i` configurators and then, on success, the rest equals running the whole chain. |
| RequestOptions.FirstFailureStopsChain | src/Microsoft.AspNetCore.Http.Extensions/RequestOptions.cs:92-95 | If the first `i` configurators succeed and configurator `i` throws, the chain throws that error and later configurators do not affect the outcome. |
| RequestOptions.ConfigureAllSnoc | src/Microsoft.AspNetCore.Http.Extensions/RequestOptions.cs:92-95 | A configurator registered last is applied last, to the result of all earlier ones. |
| RequestOptions.NullNameIsDefaultName | src/Microsoft.AspNetCore.Http.Extensions/RequestOptions.cs:60 | `GetAsync(null)` and `GetAsync(DefaultName)` give the same cache and the same result. |
| RequestOptions.HitIgnoresFactory | src/Microsoft.AspNetCore.Http.Extensions/RequestOptions.cs:61-64 | On a cache hit the factory and context are not consulted: any factory and any context give the same outcome. |
| RequestOptions.GetAsyncIdempotent | src/Microsoft.AspNetCore.Http.Extensions/RequestOptions.cs:61-68 | After a successful call, a second call for the same name returns the same value and cache, whatever the factory would now produce. |
| RequestOptions.FailureAllowsRetry | src/Microsoft.AspNetCore.Http.Extensions/RequestOptions.cs:67 | A failed call stores nothing: a later call, with any factory and context, runs that whole chain again from a fresh base value and may succeed. The clause that a retry with the same factory and context behaves exactly like the first attempt holds only because configurators are pure functions in this model; in the source a configurator that failed on a transient error can succeed on retry. |
| RequestOptions.DistinctNamesIndependent | src/Microsoft.AspNetCore.Http.Extensions/RequestOptions.cs:54-68 | Resolving one name does not change what a different, uncached name resolves to, whatever factory and context the later call uses. |
| RequestOptions.FreshScopeRunsChain | src/Microsoft.AspNetCore.Http.Extensions/RequestOptions.cs:54-56 | A new resolver starts with an empty cache, so its first call runs the full chain. |
| RequestOptions.NormalizeName | src/Microsoft.AspNetCore.Http.Extensions/RequestOptions.cs:60 | Definition, no contract: a null name becomes `DefaultName`, any other name is kept. |
| RequestOptions.ConfigureAll | src/Microsoft.AspNetCore.Http.Extensions/RequestOptions.cs:92-95 | Definition, no contract: the left fold of the configurators over the options, each given the same name and context; the first failure ends the chain. |
| RequestOptions.Create | src/Microsoft.AspNetCore.Http.Extensions/RequestOptions.cs:89-97 | Definition, no contract: the base factory's value for the name, or its failure, followed by `ConfigureAll`. This is the factory result `GetAsync` uses; `CreateAsync` is proved equal to it. |
| RequestOptions.ServeExtendsCache | src/Microsoft.AspNetCore.Http.Extensions/RequestOptions.cs:61-68 | Over a sequence of calls, no cached entry is ever replaced or dropped: the final cache extends the initial one. |
| RequestOptions.ServeKeepsEntry | src/Microsoft.AspNetCore.Http.Extensions/RequestOptions.cs:61-64 | Over a sequence of calls, an entry already cached is returned by every later call for its name and is still in the final cache with the same value. |
| RequestOptions.OneValuePerName | src/Microsoft.AspNetCore.Http.Extensions/RequestOptions.cs:61-68 | Over a sequence of calls, once a call for a name succeeds, every later call for that name returns the same value. |
| RequestOptionsScenarios.AppendersConcatenate | src/Microsoft.AspNetCore.Http.Extensions/RequestOptions.cs:92-95 | Configurators that append suffixes leave the message as the base message followed by each suffix once, in registration order. |
| RequestOptionsScenarios.ConfigureAsyncRunsLast | test/Microsoft.AspNetCore.Http.Extensions.Tests/RequestOptionsTests.cs:30-51 | From base message `"12"`, the configurators appending `"!"` then `"|"` give `"12!|"` for the default name, given or null. |
| RequestOptionsScenarios.CanConfigureAsync | test/Microsoft.AspNetCore.Http.Extensions.Tests/RequestOptionsTests.cs:13-28 | A configurator that records the context yields options whose context is the one passed to `GetAsync`. |
| RequestOptionsScenarios.ChainCallsEachOnceInOrder | src/Microsoft.AspNetCore.Http.Extensions/RequestOptions.cs:92-95 | The chain calls each configurator exactly once, in registration order. Every call gets the same name and context. |
| RequestOptionsScenarios.FactoryRerunsWholeChain | src/Microsoft.AspNetCore.Http.Extensions/RequestOptions.cs:89-97 | With a base factory that yields an empty log, a factory call's log holds exactly one call per configurator, in registration order, each with the call's name and context. |
| ForbidContext.IsNullOrEmpty | src/Microsoft.AspNetCore.Authentication.Abstractions/ForbidContext.cs:32 | Definition, no contract: `string.IsNullOrEmpty`, true for a null string or one of length zero. |
| ForbidContext.NewForbidContext | src/Microsoft.AspNetCore.Authentication.Abstractions/ForbidContext.cs:29-36 | Construction succeeds exactly when the scheme is non-null and non-empty. On success the context, scheme and properties are kept unchanged. Otherwise it fails with the argument error for the scheme parameter. |
| ForbidContext.NewForbidContextWithoutProperties | src/Microsoft.AspNetCore.Authentication.Abstractions/ForbidContext.cs:19-21 | The same acceptance rule and error, with null properties. |
| ForbidContext.WithoutPropertiesIsNullProperties | src/Microsoft.AspNetCore.Authentication.Abstractions/ForbidContext.cs:19-21 | The two-argument constructor equals the three-argument one with `properties = null`. |
| ForbidContext.NullOrEmptySchemeRejected | src/Microsoft.AspNetCore.Authentication.Abstractions/ForbidContext.cs:32-35 | A null scheme and an empty scheme both fail with the argument error. |
| ForbidContext.WhitespaceSchemeAccepted | src/Microsoft.AspNetCore.Authentication.Abstractions/ForbidContext.cs:32 | Every non-empty scheme is accepted and kept as given, whitespace-only ones included: the check is emptiness, not blankness. |

## Left out

- Dependency-injection wiring (`AddRequestOptions`, the `ConfigureAsync` registration extension, `GetOptionsAsync`) is container plumbing. The model passes the base factory and the configurator sequence explicitly.
- `IOptionsFactory<TOptions>.Create` belongs to the options library, which is not part of this model. It is an opaque `create: string -> Result<O, E>`, and the tests' `"12"` prefix is taken as its output. `Options.DefaultName` also comes from that library. It is modelled as the empty string, and no lemma depends on its value.
- `Task`/`async`: each `await` is sequential function application. `ConfigureRequestOptions.ConfigureAsync` is plain application of the stored delegate, which is how the model calls a configurator.
- The check-then-populate race between concurrent `GetAsync` calls for one name in one request is not modelled. The model has one caller per cache.
- Options are values, not shared mutable objects. A configurator returns the configured options. The source's "same instance" is modelled as "the value read back from the cache". A value that a failed attempt partly configured is never visible: nothing is cached, and a retry starts from a fresh base value.
- `HttpContext`, `AuthenticationProperties` and `BaseAuthenticationContext` are opaque. The base constructor is not part of this model. It is assumed to store its three arguments and not throw.
- RequestOptions.GetAsync: configurators are modelled as pure, total functions that cannot change the request context or call back into the resolver. In the source a configurator receives the live `HttpContext`. Through its request services it can reach the same request-scoped resolver with `GetOptionsAsync` while the outer call is still running. Such a re-entrant call for another name would cache that name too. A guarded re-entrant call for the same name would have its entry overwritten when the outer call stores its value. An unguarded one would never return. The frame clauses (`OnlyTouches`, `Extends`), the "only the requested name can be added" promise and `DistinctNamesIndependent` hold only for configurators that do not re-enter the resolver.
