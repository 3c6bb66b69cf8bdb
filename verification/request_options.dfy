/** Per-request named options: `RequestOptionsFactory<TOptions>` builds an
    options value for a name and runs every registered asynchronous
    configurator over it; `RequestOptions<TOptions>` caches the finished value
    per name for the lifetime of one request.

    Each `await` is modelled as sequential function application, and an
    exception as a `Failure`. Options are values: a configurator returns the
    configured options instead of mutating a shared instance. */
module RequestOptions {
  import opened Wrappers

  /** The well-known default name of the options library (`Options.DefaultName`,
      the empty string). No property below depends on its value. */
  const DefaultName: string := ""

  /** A registered asynchronous configurator: given the options name, the
      options built so far and the request context, it yields the configured
      options or fails. Invoking one is `ConfigureRequestOptions.ConfigureAsync`. */
  type Configurator<!O, -C, E> = (string, O, C) -> Result<O, E>

  /** What `RequestOptionsFactory` is given at construction: the opaque base
      options factory (`IOptionsFactory<TOptions>.Create`, which may throw) and
      the configurators in registration order. */
  datatype Factory<!O, -C, E> = Factory(create: string -> Result<O, E>, configures: seq<Configurator<O, C, E>>)

  /** The per-request cache state together with what a call returned. */
  datatype Resolved<O, E> = Resolved(cache: map<string, O>, result: Result<O, E>)

  /** A null name stands for the default name. */
  function NormalizeName(name: Option<string>): string
  {
    match name
    case None => DefaultName
    case Some(n) => n
  }

  /** Reference semantics of the configurator chain: a left fold of the
      configurators over `opts`, each receiving the same `name` and `ctx`; the
      first failure ends the chain and is the chain's outcome. */
  function ConfigureAll<O, C, E>(cs: seq<Configurator<O, C, E>>, name: string, opts: O, ctx: C): Result<O, E>
    decreases |cs|
  {
    if |cs| == 0 then Success(opts)
    else
      match cs[0](name, opts, ctx)
      case Failure(e) => Failure(e)
      case Success(o) => ConfigureAll(cs[1..], name, o, ctx)
  }

  /** `CreateAsync` as a value: a fresh base value for `name`, then the whole
      configurator chain. Nothing is remembered between calls. */
  function Create<O, C, E>(f: Factory<O, C, E>, name: string, ctx: C): Result<O, E>
  {
    var base :- f.create(name);
    ConfigureAll(f.configures, name, base, ctx)
  }

  /** Entries of `cache` other than `key` are untouched in `cache'`, and
      `cache'` has no new key other than `key`. */
  ghost predicate OnlyTouches<O>(cache: map<string, O>, cache': map<string, O>, key: string)
  {
    && cache'.Keys <= cache.Keys + {key}
    && forall k :: k in cache && k != key ==> k in cache' && cache'[k] == cache[k]
  }

  /** Every entry of `cache` is still present, with the same value, in `cache'`. */
  ghost predicate Extends<O>(cache: map<string, O>, cache': map<string, O>)
  {
    forall k :: k in cache ==> k in cache' && cache'[k] == cache[k]
  }

  /** Fold of the chain split at `i`: running the first `i` configurators and
      then, on success, the rest is the same as running them all. */
  lemma {:induction false} ConfigureAllSplit<O, C, E>(cs: seq<Configurator<O, C, E>>, i: nat, name: string, opts: O, ctx: C)
    requires i <= |cs|
    ensures var prefix := ConfigureAll(cs[..i], name, opts, ctx);
            ConfigureAll(cs, name, opts, ctx)
              == if prefix.Failure? then prefix else ConfigureAll(cs[i..], name, prefix.value, ctx)
    decreases i
  {
    if i == 0 {
      assert cs[..0] == [];
      assert cs[0..] == cs;
    } else {
      assert cs[..i][0] == cs[0];
      assert cs[..i][1..] == cs[1..][..i - 1];
      assert cs[1..][i - 1..] == cs[i..];
      match cs[0](name, opts, ctx)
      case Failure(e) =>
      case Success(o) =>
        ConfigureAllSplit(cs[1..], i - 1, name, o, ctx);
    }
  }

  /** The first failing configurator decides the chain's outcome: if the
      first `i` configurators succeed and configurator `i` fails with `e`, the
      chain fails with `e`, and the configurators after `i` do not matter. */
  lemma FirstFailureStopsChain<O, C, E>(cs: seq<Configurator<O, C, E>>, i: nat, name: string, opts: O, ctx: C, o: O, e: E)
    requires i < |cs|
    requires ConfigureAll(cs[..i], name, opts, ctx) == Success(o)
    requires cs[i](name, o, ctx) == Failure(e)
    ensures ConfigureAll(cs, name, opts, ctx) == Failure(e)
  {
    ConfigureAllSplit(cs, i, name, opts, ctx);
    assert cs[i..][0] == cs[i];
  }

  /** Appending one configurator applies it last, to the result of the
      chain before it. */
  lemma ConfigureAllSnoc<O, C, E>(cs: seq<Configurator<O, C, E>>, c: Configurator<O, C, E>, name: string, opts: O, ctx: C)
    ensures var prefix := ConfigureAll(cs, name, opts, ctx);
            ConfigureAll(cs + [c], name, opts, ctx)
              == if prefix.Failure? then prefix else c(name, prefix.value, ctx)
  {
    var all := cs + [c];
    ConfigureAllSplit(all, |cs|, name, opts, ctx);
    assert all[..|cs|] == cs;
    assert all[|cs|..] == [c];
    assert [c][1..] == [];
  }

  /** `RequestOptionsFactory<TOptions>.CreateAsync`: builds the base value,
      then awaits each configurator once, in registration order, with the same
      name and context; an exception from any of them ends the call. */
  method CreateAsync<O, C, E>(f: Factory<O, C, E>, name: string, ctx: C) returns (r: Result<O, E>)
    ensures r == Create(f, name, ctx)
    ensures f.create(name).Failure? ==> r == Failure(f.create(name).error)
    ensures f.create(name).Success? ==> r == ConfigureAll(f.configures, name, f.create(name).value, ctx)
  {
    var base := f.create(name);
    if base.Failure? {
      return Failure(base.error);
    }
    var options := base.value;
    var i := 0;
    while i < |f.configures|
      invariant 0 <= i <= |f.configures|
      invariant ConfigureAll(f.configures, name, base.value, ctx) == ConfigureAll(f.configures[i..], name, options, ctx)
    {
      var step := f.configures[i](name, options, ctx);
      assert f.configures[i..][0] == f.configures[i];
      assert f.configures[i..][1..] == f.configures[i + 1..];
      if step.Failure? {
        return Failure(step.error);
      }
      options := step.value;
      i := i + 1;
    }
    assert f.configures[i..] == [];
    r := Success(options);
  }

  /** `RequestOptions<TOptions>.GetAsync`: a null name means the default
      name; a cached value is returned as is; otherwise the factory's value is
      stored under the name and the stored value is returned. A failure of the
      factory propagates and stores nothing. */
  function GetAsync<O, C, E>(cache: map<string, O>, f: Factory<O, C, E>, name: Option<string>, ctx: C): (out: Resolved<O, E>)
    // the value returned is the value stored under the (normalised) name
    ensures out.result.Success? ==> NormalizeName(name) in out.cache && out.cache[NormalizeName(name)] == out.result.value
    // nothing is stored when the call fails
    ensures out.result.Failure? ==> out.cache == cache
    // no entry is ever replaced or dropped, and only the requested name may be added
    ensures Extends(cache, out.cache)
    ensures OnlyTouches(cache, out.cache, NormalizeName(name))
    // a hit: the cached value, the cache unchanged
    ensures NormalizeName(name) in cache ==> out == Resolved(cache, Success(cache[NormalizeName(name)]))
    // a miss: whatever the factory's full chain yields
    ensures NormalizeName(name) !in cache ==> out.result == Create(f, NormalizeName(name), ctx)
  {
    var key := NormalizeName(name);
    if key in cache then
      Resolved(cache, Success(cache[key]))
    else
      match Create(f, key, ctx)
      case Failure(e) => Resolved(cache, Failure(e))
      case Success(o) =>
        var cache' := cache[key := o];
        Resolved(cache', Success(cache'[key]))
  }

  /** `GetAsync(null)` and `GetAsync(DefaultName)` read and write the same
      entry and return the same value. */
  lemma NullNameIsDefaultName<O, C, E>(cache: map<string, O>, f: Factory<O, C, E>, ctx: C)
    ensures GetAsync(cache, f, None, ctx) == GetAsync(cache, f, Some(DefaultName), ctx)
  {
  }

  /** On a hit the factory is not consulted: any two factories give the same
      outcome. */
  lemma HitIgnoresFactory<O, C, E>(cache: map<string, O>, f: Factory<O, C, E>, g: Factory<O, C, E>, name: Option<string>, ctx: C, ctx': C)
    requires NormalizeName(name) in cache
    ensures GetAsync(cache, f, name, ctx) == GetAsync(cache, g, name, ctx')
  {
  }

  /** Idempotence: after a successful call, a second call for the same name
      returns the same value and leaves the cache as the first left it, and
      it does so whatever the factory would now produce. */
  lemma GetAsyncIdempotent<O, C, E>(cache: map<string, O>, f: Factory<O, C, E>, g: Factory<O, C, E>, name: Option<string>, ctx: C, ctx': C)
    requires GetAsync(cache, f, name, ctx).result.Success?
    ensures var first := GetAsync(cache, f, name, ctx);
            GetAsync(first.cache, g, name, ctx') == first
  {
  }

  /** After a failed call nothing is cached, so a retry, with whatever
      factory and context are then in place, runs that whole chain again from
      a fresh base value and may succeed; with the same factory and context it
      behaves exactly like the first attempt. */
  lemma FailureAllowsRetry<O, C, E>(cache: map<string, O>, f: Factory<O, C, E>, g: Factory<O, C, E>, name: Option<string>, ctx: C, ctx': C)
    requires GetAsync(cache, f, name, ctx).result.Failure?
    ensures var first := GetAsync(cache, f, name, ctx);
            GetAsync(first.cache, g, name, ctx') == GetAsync(cache, g, name, ctx')
    ensures var first := GetAsync(cache, f, name, ctx);
            GetAsync(first.cache, g, name, ctx').result == Create(g, NormalizeName(name), ctx')
    ensures var first := GetAsync(cache, f, name, ctx);
            GetAsync(first.cache, f, name, ctx) == first
  {
  }

  /** Two different uncached names get independent values: resolving the
      first does not change what the second resolves to, whatever factory and
      context the second call uses. */
  lemma DistinctNamesIndependent<O, C, E>(cache: map<string, O>, f: Factory<O, C, E>, g: Factory<O, C, E>, a: Option<string>, b: Option<string>, ctx: C, ctx': C)
    requires NormalizeName(a) != NormalizeName(b)
    requires NormalizeName(b) !in cache
    ensures var first := GetAsync(cache, f, a, ctx);
            GetAsync(first.cache, g, b, ctx').result == Create(g, NormalizeName(b), ctx')
  {
  }

  /** A fresh request scope starts with an empty cache, so its first call
      always runs the full chain and observes nothing from elsewhere. */
  lemma FreshScopeRunsChain<O, C, E>(f: Factory<O, C, E>, name: Option<string>, ctx: C)
    ensures GetAsync(map[], f, name, ctx).result == Create(f, NormalizeName(name), ctx)
  {
  }

  /** The outcome of a request that makes several `GetAsync` calls in turn. */
  datatype Session<O, E> = Session(cache: map<string, O>, results: seq<Result<O, E>>)

  /** Runs `GetAsync` for each name in order, threading the cache. */
  function Serve<O, C, E>(cache: map<string, O>, f: Factory<O, C, E>, names: seq<Option<string>>, ctx: C): (s: Session<O, E>)
    ensures |s.results| == |names|
    decreases |names|
  {
    if |names| == 0 then Session(cache, [])
    else
      var first := GetAsync(cache, f, names[0], ctx);
      var rest := Serve(first.cache, f, names[1..], ctx);
      Session(rest.cache, [first.result] + rest.results)
  }

  /** A sequence of calls never replaces or drops a cached entry: the final
      cache extends the initial one. */
  lemma {:induction false} ServeExtendsCache<O, C, E>(cache: map<string, O>, f: Factory<O, C, E>, names: seq<Option<string>>, ctx: C)
    ensures Extends(cache, Serve(cache, f, names, ctx).cache)
    decreases |names|
  {
    if |names| != 0 {
      var first := GetAsync(cache, f, names[0], ctx);
      ServeExtendsCache(first.cache, f, names[1..], ctx);
    }
  }

  /** A cached entry is stable for the rest of the request: every later call
      for its name returns it, and it survives into the final cache. */
  lemma {:induction false} ServeKeepsEntry<O, C, E>(cache: map<string, O>, f: Factory<O, C, E>, names: seq<Option<string>>, ctx: C, key: string, j: nat)
    requires key in cache
    requires j < |names| && NormalizeName(names[j]) == key
    ensures Serve(cache, f, names, ctx).results[j] == Success(cache[key])
    ensures key in Serve(cache, f, names, ctx).cache && Serve(cache, f, names, ctx).cache[key] == cache[key]
    decreases |names|
  {
    ServeExtendsCache(cache, f, names, ctx);
    var first := GetAsync(cache, f, names[0], ctx);
    if j > 0 {
      assert names[1..][j - 1] == names[j];
      ServeKeepsEntry(first.cache, f, names[1..], ctx, key, j - 1);
    }
  }

  /** At most one options value per name per request: once a call for a name
      has succeeded, every later call for that name returns the same value. */
  lemma {:induction false} OneValuePerName<O, C, E>(cache: map<string, O>, f: Factory<O, C, E>, names: seq<Option<string>>, ctx: C, i: nat, j: nat)
    requires i < j < |names|
    requires NormalizeName(names[i]) == NormalizeName(names[j])
    requires Serve(cache, f, names, ctx).results[i].Success?
    ensures Serve(cache, f, names, ctx).results[j] == Serve(cache, f, names, ctx).results[i]
    decreases |names|
  {
    var first := GetAsync(cache, f, names[0], ctx);
    assert names[1..][j - 1] == names[j];
    if i == 0 {
      ServeKeepsEntry(first.cache, f, names[1..], ctx, NormalizeName(names[0]), j - 1);
    } else {
      assert names[1..][i - 1] == names[i];
      OneValuePerName(first.cache, f, names[1..], ctx, i - 1, j - 1);
    }
  }
}
