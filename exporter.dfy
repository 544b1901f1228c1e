/** The exporter's collection core: building the enabled sources from the
    registry (fail-fast), and recording one outcome per source per scrape. */
module Exporter {
  import opened Wrappers
  import opened Sources

  // ---------------------------------------------------------------------
  // Loading the enabled sources
  // ---------------------------------------------------------------------

  /** Why loading the enabled sources stopped: a name with no registered
      factory ("source %q not available"), or the error a factory
      returned, passed on unchanged. */
  datatype LoadError<E> = NotAvailable(name: string) | FactoryFailed(cause: E)

  /** `name` is registered and its factory builds a source. */
  predicate Loadable<S, E>(factories: Registry<S, E>, name: string) {
    name in factories && factories[name].Ok?
  }

  /** The error loading reports when it reaches a name that is not loadable. */
  function Failure<S, E>(factories: Registry<S, E>, name: string): LoadError<E>
    requires !Loadable(factories, name)
  {
    if name !in factories then NotAvailable(name) else FactoryFailed(factories[name].error)
  }

  /** The loading loop as a fold: visit `names` left to right, adding each
      built source to `acc` (a repeated name overwrites), and stop at the
      first name that is unknown or whose factory fails. */
  function LoadFrom<S, E>(factories: Registry<S, E>, acc: map<string, S>, names: seq<string>)
    : Result<map<string, S>, LoadError<E>>
    decreases |names|
  {
    if names == [] then Ok(acc)
    else if !Loadable(factories, names[0]) then Err(Failure(factories, names[0]))
    else LoadFrom(factories, acc[names[0] := factories[names[0]].value], names[1..])
  }

  /** What loading `names` from an empty source list yields. */
  function Loaded<S, E>(factories: Registry<S, E>, names: seq<string>)
    : Result<map<string, S>, LoadError<E>>
  {
    LoadFrom(factories, map[], names)
  }

  /** The names loading looks up in the registry, in order: every name up to
      and including the first one that is not loadable. A looked-up name
      that is registered has its factory called exactly at that step. */
  function Lookups<S, E>(factories: Registry<S, E>, names: seq<string>): seq<string>
    decreases |names|
  {
    if names == [] then []
    else [names[0]] + (if Loadable(factories, names[0]) then Lookups(factories, names[1..]) else [])
  }

  /** The position of the first name in `names` that is not loadable. */
  function FirstFailure<S, E>(factories: Registry<S, E>, names: seq<string>): (k: nat)
    requires exists i | 0 <= i < |names| :: !Loadable(factories, names[i])
    ensures k < |names| && !Loadable(factories, names[k])
    ensures forall j | 0 <= j < k :: Loadable(factories, names[j])
    decreases |names|
  {
    if !Loadable(factories, names[0]) then 0
    else
      assert exists i | 0 <= i < |names[1..]| :: !Loadable(factories, names[1..][i]) by {
        var i :| 0 <= i < |names| && !Loadable(factories, names[i]);
        assert names[1..][i - 1] == names[i];
      }
      1 + FirstFailure(factories, names[1..])
  }

  /** loadSources: look each name up in the registry, call its factory and
      store the result under the name; return at the first unknown name or
      failing factory, with no map. `lookups` records the names looked up.
      The registry is a value here, so loading cannot change it. */
  method LoadSources<S, E>(factories: Registry<S, E>, list: seq<string>)
    returns (r: Result<map<string, S>, LoadError<E>>, ghost lookups: seq<string>)
    ensures r == Loaded(factories, list)
    ensures lookups == Lookups(factories, list)
  {
    var sourceList: map<string, S> := map[];
    lookups := [];
    for i := 0 to |list|
      invariant LoadFrom(factories, sourceList, list[i..]) == Loaded(factories, list)
      invariant lookups + Lookups(factories, list[i..]) == Lookups(factories, list)
    {
      var name := list[i];
      lookups := lookups + [name];
      if name !in factories {
        r := Err(NotAvailable(name));
        return;
      }
      var c := factories[name];
      if c.Err? {
        r := Err(FactoryFailed(c.error));
        return;
      }
      sourceList := sourceList[name := c.value];
    }
    assert list[|list|..] == [];
    r := Ok(sourceList);
  }

  /** Success of the fold from any starting map: it succeeds exactly when
      every name is loadable, and then adds one entry per listed name,
      holding that name's factory result, and keeps the other entries. */
  lemma {:induction false} LoadFromOk<S, E>(factories: Registry<S, E>, acc: map<string, S>, names: seq<string>)
    ensures LoadFrom(factories, acc, names).Ok? <==>
            forall i | 0 <= i < |names| :: Loadable(factories, names[i])
    ensures LoadFrom(factories, acc, names).Ok? ==>
            var m := LoadFrom(factories, acc, names).value;
            && m.Keys == acc.Keys + (set n | n in names)
            && (forall n | n in names :: n in factories && factories[n].Ok? && m[n] == factories[n].value)
            && (forall n | n in acc && n !in names :: m[n] == acc[n])
    decreases |names|
  {
    if names != [] {
      var name := names[0];
      var rest := names[1..];
      assert names == [name] + rest;
      if Loadable(factories, name) {
        var acc' := acc[name := factories[name].value];
        LoadFromOk(factories, acc', rest);
        assert forall i | 0 <= i < |rest| :: rest[i] == names[i + 1];
        assert (set n | n in names) == {name} + (set n | n in rest);
      }
    }
  }

  /** Loading succeeds exactly when every listed name is registered and its
      factory succeeds. The map then has exactly the listed names as keys
      (none for an empty list), each holding its factory's result, and every
      listed name was looked up, in order, once per occurrence. */
  lemma {:induction false} LoadedOk<S, E>(factories: Registry<S, E>, list: seq<string>)
    ensures Loaded(factories, list).Ok? <==>
            forall i | 0 <= i < |list| :: Loadable(factories, list[i])
    ensures Loaded(factories, list).Ok? ==>
            var m := Loaded(factories, list).value;
            && m.Keys == (set n | n in list)
            && (forall n | n in list :: n in factories && factories[n].Ok? && m[n] == factories[n].value)
            && Lookups(factories, list) == list
  {
    LoadFromOk(factories, map[], list);
    if forall i | 0 <= i < |list| :: Loadable(factories, list[i]) {
      LookupsAllLoadable(factories, list);
    }
  }

  /** When every name is loadable, every name is looked up. */
  lemma {:induction false} LookupsAllLoadable<S, E>(factories: Registry<S, E>, names: seq<string>)
    requires forall i | 0 <= i < |names| :: Loadable(factories, names[i])
    ensures Lookups(factories, names) == names
    decreases |names|
  {
    if names != [] {
      assert forall i | 0 <= i < |names[1..]| :: names[1..][i] == names[i + 1];
      LookupsAllLoadable(factories, names[1..]);
    }
  }

  /** Failure of the fold from any starting map: the error is the one for
      the first name that is not loadable, and the lookups stop there. */
  lemma {:induction false} LoadFromFails<S, E>(factories: Registry<S, E>, acc: map<string, S>, names: seq<string>)
    requires exists i | 0 <= i < |names| :: !Loadable(factories, names[i])
    ensures var k := FirstFailure(factories, names);
            && LoadFrom(factories, acc, names) == Err(Failure(factories, names[k]))
            && Lookups(factories, names) == names[..k + 1]
    decreases |names|
  {
    if Loadable(factories, names[0]) {
      var rest := names[1..];
      assert exists i | 0 <= i < |rest| :: !Loadable(factories, rest[i]) by {
        var i :| 0 <= i < |names| && !Loadable(factories, names[i]);
        assert rest[i - 1] == names[i];
      }
      LoadFromFails(factories, acc[names[0] := factories[names[0]].value], rest);
      var k := FirstFailure(factories, rest);
      assert names[..k + 2] == [names[0]] + rest[..k + 1];
    }
  }

  /** When some listed name is unknown or its factory fails, loading returns
      no map: it reports "not available" naming the first such name if that
      name is unregistered, and otherwise that factory's error unchanged.
      The names looked up are exactly those up to and including it. */
  lemma LoadedFailsAtFirstFailure<S, E>(factories: Registry<S, E>, list: seq<string>)
    requires exists i | 0 <= i < |list| :: !Loadable(factories, list[i])
    ensures var k := FirstFailure(factories, list);
            && (list[k] !in factories ==> Loaded(factories, list) == Err(NotAvailable(list[k])))
            && (list[k] in factories ==>
                  Loaded(factories, list) == Err(FactoryFailed(factories[list[k]].error)))
            && Lookups(factories, list) == list[..k + 1]
  {
    LoadFromFails(factories, map[], list);
  }

  /** Fail-fast: once a prefix of the list fails, whatever follows it is
      neither looked up nor changes the outcome. */
  lemma {:induction false} LoadFromFailFast<S, E>(factories: Registry<S, E>, acc: map<string, S>,
                                                 prefix: seq<string>, rest: seq<string>)
    requires LoadFrom(factories, acc, prefix).Err?
    ensures LoadFrom(factories, acc, prefix + rest) == LoadFrom(factories, acc, prefix)
    ensures Lookups(factories, prefix + rest) == Lookups(factories, prefix)
    decreases |prefix|
  {
    var names := prefix + rest;
    assert names[0] == prefix[0];
    if Loadable(factories, prefix[0]) {
      assert names[1..] == prefix[1..] + rest;
      LoadFromFailFast(factories, acc[prefix[0] := factories[prefix[0]].value], prefix[1..], rest);
    }
  }

  /** Loading consults the registry only for the names it looks up: a
      registry that agrees on those names gives the same outcome and the
      same lookups, so the factories of later names are never called. */
  lemma {:induction false} LoadFromReadsOnlyLookups<S, E>(f: Registry<S, E>, g: Registry<S, E>,
                                                         acc: map<string, S>, names: seq<string>)
    requires forall n | n in Lookups(f, names) :: (n in f <==> n in g) && (n in f ==> f[n] == g[n])
    ensures LoadFrom(f, acc, names) == LoadFrom(g, acc, names)
    ensures Lookups(f, names) == Lookups(g, names)
    decreases |names|
  {
    if names != [] {
      var name := names[0];
      assert name in Lookups(f, names);
      if Loadable(f, name) {
        assert forall n | n in Lookups(f, names[1..]) :: n in Lookups(f, names);
        LoadFromReadsOnlyLookups(f, g, acc[name := f[name].value], names[1..]);
      }
    }
  }

  // ---------------------------------------------------------------------
  // Recording the outcome of each source in a scrape
  // ---------------------------------------------------------------------

  const SUCCESS := "success"
  const ERROR := "error"

  /** One observation of the scrape-duration summary, by its labels
      `source` and `result`; the observed duration is not modelled. */
  datatype Observation = Observation(source: string, result: string)

  /** The `result` label for the error a source's Update returned. */
  function ResultLabel<E>(err: Option<E>): (tag: string)
    ensures tag == ERROR <==> err.Some?
    ensures tag == SUCCESS <==> err.None?
  {
    if err.Some? then ERROR else SUCCESS
  }

  /** The shared scrape-duration summary: how many observations it holds
      under each (source, result) label pair. */
  class ScrapeSummary {
    var observations: multiset<Observation>

    constructor ()
      ensures observations == multiset{}
    {
      observations := multiset{};
    }

    /** Record one observation under the labels `source` and `result`. */
    method Observe(source: string, result: string)
      modifies this
      ensures observations == old(observations) + multiset{Observation(source, result)}
    {
      observations := observations + multiset{Observation(source, result)};
    }
  }

  /** collectFromSource: `updateErr` is what the source's Update returned.
      The label starts as "success", becomes "error" when Update returned an
      error, and exactly one observation is recorded under the source's
      name and that label. */
  method CollectFromSource<E>(name: string, updateErr: Option<E>, summary: ScrapeSummary)
    modifies summary
    ensures summary.observations == old(summary.observations) + multiset{Observation(name, ResultLabel(updateErr))}
  {
    var result := SUCCESS;
    if updateErr.Some? {
      result := ERROR;
    }
    summary.Observe(name, result);
  }

  /** `after` is `before` plus exactly one observation per enabled source,
      labelled with that source's outcome, and nothing else. */
  ghost predicate RecordsCycle<S, E>(before: multiset<Observation>, after: multiset<Observation>,
                                     sourceList: map<string, S>, update: string -> Option<E>)
  {
    forall o :: after[o] == before[o] +
      (if o.source in sourceList && o.result == ResultLabel(update(o.source)) then 1 else 0)
  }

  /** Per scrape, an enabled source whose Update failed gains one "error"
      observation and no "success" one, a source whose Update succeeded the
      reverse, and a name that is not enabled gains nothing. */
  lemma RecordsCycleOnePerSource<S, E>(before: multiset<Observation>, after: multiset<Observation>,
                                       sourceList: map<string, S>, update: string -> Option<E>, name: string)
    requires RecordsCycle(before, after, sourceList, update)
    ensures name in sourceList ==>
              && after[Observation(name, ERROR)] == before[Observation(name, ERROR)] + (if update(name).Some? then 1 else 0)
              && after[Observation(name, SUCCESS)] == before[Observation(name, SUCCESS)] + (if update(name).None? then 1 else 0)
    ensures name !in sourceList ==> forall result :: after[Observation(name, result)] == before[Observation(name, result)]
  {
  }

  /** Collect, run one source at a time: every enabled source's outcome is
      recorded once, whatever the other sources returned (every Update is
      taken to return; panics and hung calls are not modelled). `update` gives,
      by source name, what each source's Update returned in this scrape. */
  method Collect<S, E>(sourceList: map<string, S>, update: string -> Option<E>, summary: ScrapeSummary)
    modifies summary
    ensures RecordsCycle(old(summary.observations), summary.observations, sourceList, update)
  {
    var pending := sourceList.Keys;
    while pending != {}
      invariant pending <= sourceList.Keys
      invariant forall o :: (summary.observations[o] == old(summary.observations)[o] +
        (if o.source in sourceList && o.source !in pending && o.result == ResultLabel(update(o.source)) then 1 else 0))
      decreases pending
    {
      var name :| name in pending;
      CollectFromSource(name, update(name), summary);
      pending := pending - {name};
    }
  }
}
