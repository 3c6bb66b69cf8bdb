/** Concrete configurators over concrete options, replaying the behaviour the
    request-options tests check and pinning down "each configurator runs once,
    in registration order, with the same name and context". */
module RequestOptionsScenarios {
  import opened Wrappers
  import opened RequestOptions

  /** The tests' options class: the recorded request context (initially null)
      and a message string. */
  datatype TestOptions<C> = TestOptions(context: Option<C>, message: string)

  /** A configurator that appends `suffix` to the message, like
      `o.Message += "!"` in an asynchronous configurator. */
  function Append<C, E>(suffix: string): Configurator<TestOptions<C>, C, E>
  {
    (name: string, o: TestOptions<C>, ctx: C) => Success(o.(message := o.message + suffix))
  }

  /** One `Append` configurator per suffix, in the given order. */
  function Appenders<C, E>(suffixes: seq<string>): (cs: seq<Configurator<TestOptions<C>, C, E>>)
    ensures |cs| == |suffixes|
    decreases |suffixes|
  {
    if |suffixes| == 0 then [] else [Append(suffixes[0])] + Appenders(suffixes[1..])
  }

  /** The concatenation of `parts`, first to last. */
  function Concat(parts: seq<string>): string
    decreases |parts|
  {
    if |parts| == 0 then "" else parts[0] + Concat(parts[1..])
  }

  /** Appending configurators compose in registration order: the message ends
      with every suffix exactly once, in order, after the base message, and the
      recorded context is left alone. */
  lemma {:induction false} AppendersConcatenate<C, E>(suffixes: seq<string>, name: string, o: TestOptions<C>, ctx: C)
    ensures ConfigureAll(Appenders<C, E>(suffixes), name, o, ctx)
         == Success(o.(message := o.message + Concat(suffixes)))
    decreases |suffixes|
  {
    if |suffixes| != 0 {
      var cs := Appenders<C, E>(suffixes);
      assert cs[0] == Append(suffixes[0]);
      assert cs[1..] == Appenders<C, E>(suffixes[1..]);
      var o' := o.(message := o.message + suffixes[0]);
      assert cs[0](name, o, ctx) == Success(o');
      AppendersConcatenate<C, E>(suffixes[1..], name, o', ctx);
      assert o.message + suffixes[0] + Concat(suffixes[1..]) == o.message + Concat(suffixes);
    } else {
      assert o.message + Concat(suffixes) == o.message;
    }
  }

  /** A factory whose base options already carry `"12"` (what the options
      library's synchronous configurators produce) and whose asynchronous
      configurators append `"!"` and then `"|"`. */
  function RunsLastFactory<C, E>(): Factory<TestOptions<C>, C, E>
  {
    Factory((name: string) => Success(TestOptions(None, "12")), [Append("!"), Append("|")])
  }

  /** The asynchronous configurators run after the base configuration and in
      registration order: resolving the default name yields `"12!|"`, whether
      the name is given or null. */
  lemma ConfigureAsyncRunsLast<C, E>(ctx: C)
    ensures GetAsync(map[], RunsLastFactory<C, E>(), Some(DefaultName), ctx).result.Success?
    ensures GetAsync(map[], RunsLastFactory<C, E>(), Some(DefaultName), ctx).result.value.message == "12!|"
    ensures GetAsync(map[], RunsLastFactory<C, E>(), None, ctx).result.value.message == "12!|"
  {
    var f := RunsLastFactory<C, E>();
    assert f.configures == Appenders<C, E>(["!", "|"]) by {
      assert Appenders<C, E>(["!", "|"][1..][1..]) == [];
      assert ["!", "|"][1..][1..] == [];
    }
    AppendersConcatenate<C, E>(["!", "|"], DefaultName, TestOptions(None, "12"), ctx);
    assert Concat(["!", "|"]) == "!|" by {
      assert ["!", "|"][1..] == ["|"];
      assert ["|"][1..] == [];
    }
  }

  /** A configurator that records the request context on the options, like
      `o.Context = ctx`. */
  function RecordContext<C, E>(): Configurator<TestOptions<C>, C, E>
  {
    (name: string, o: TestOptions<C>, ctx: C) => Success(o.(context := Some(ctx)))
  }

  /** An asynchronous configurator sees the request context of the call:
      resolving the default name returns options whose recorded context is the
      context passed to `GetAsync`, for every base options value. */
  lemma CanConfigureAsync<C, E>(ctx: C, base: TestOptions<C>)
    ensures var f := Factory((name: string) => Success(base), [RecordContext<C, E>()]);
            GetAsync(map[], f, Some(DefaultName), ctx).result == Success(base.(context := Some(ctx)))
  {
    var f := Factory((name: string) => Success(base), [RecordContext<C, E>()]);
    assert f.configures[1..] == [];
  }

  /** One configurator invocation as seen by the configurator: its
      registration tag and the name and context it was handed. */
  datatype Call<T, C> = Call(tag: T, name: string, ctx: C)

  /** A configurator that appends a record of its own invocation to a log. */
  function Recorder<T, C, E>(tag: T): Configurator<seq<Call<T, C>>, C, E>
  {
    (name: string, log: seq<Call<T, C>>, ctx: C) => Success(log + [Call(tag, name, ctx)])
  }

  /** One `Recorder` per tag, in registration order. */
  function Recorders<T, C, E>(tags: seq<T>): (cs: seq<Configurator<seq<Call<T, C>>, C, E>>)
    ensures |cs| == |tags|
    decreases |tags|
  {
    if |tags| == 0 then [] else [Recorder(tags[0])] + Recorders(tags[1..])
  }

  /** The chain invokes each configurator exactly once, in registration
      order, each with the same name and context: the log grows by one
      entry per configurator and entry `k` is configurator `k`'s call. */
  lemma {:induction false} ChainCallsEachOnceInOrder<T, C, E>(tags: seq<T>, name: string, log: seq<Call<T, C>>, ctx: C)
    ensures ConfigureAll(Recorders<T, C, E>(tags), name, log, ctx).Success?
    ensures var r := ConfigureAll(Recorders<T, C, E>(tags), name, log, ctx).value;
            && |r| == |log| + |tags|
            && r[..|log|] == log
            && forall k :: 0 <= k < |tags| ==> r[|log| + k] == Call(tags[k], name, ctx)
    decreases |tags|
  {
    if |tags| != 0 {
      var cs := Recorders<T, C, E>(tags);
      assert cs[0] == Recorder(tags[0]);
      assert cs[1..] == Recorders<T, C, E>(tags[1..]);
      var log' := log + [Call(tags[0], name, ctx)];
      assert cs[0](name, log, ctx) == Success(log');
      ChainCallsEachOnceInOrder<T, C, E>(tags[1..], name, log', ctx);
      var r := ConfigureAll(cs, name, log, ctx).value;
      assert r == ConfigureAll(Recorders<T, C, E>(tags[1..]), name, log', ctx).value;
      assert r[..|log|] == r[..|log'|][..|log|];
      forall k | 0 <= k < |tags|
        ensures r[|log| + k] == Call(tags[k], name, ctx)
      {
        if k == 0 {
          assert r[|log|] == r[..|log'|][|log|];
        } else {
          assert r[|log'| + (k - 1)] == Call(tags[1..][k - 1], name, ctx);
        }
      }
    }
  }

  /** A factory call whose base factory yields an empty log runs the whole
      chain: its log holds exactly one invocation per configurator, in
      registration order, each with the call's name and context. */
  lemma FactoryRerunsWholeChain<T, C, E>(tags: seq<T>, name: string, ctx: C)
    ensures var f := Factory((n: string) => Success([]), Recorders<T, C, E>(tags));
            && Create(f, name, ctx).Success?
            && |Create(f, name, ctx).value| == |tags|
            && forall k :: 0 <= k < |tags| ==> Create(f, name, ctx).value[k] == Call(tags[k], name, ctx)
  {
    ChainCallsEachOnceInOrder<T, C, E>(tags, name, [], ctx);
  }
}
