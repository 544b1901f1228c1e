# openldap_exporter: source loading and per-source scrape outcomes

A Dafny model of the collection core of `openldap_exporter`, a Prometheus
exporter. At startup the exporter turns an ordered list of enabled source
names into a name → source map. It does this by looking each name up in the
`Factories` registry of the `sources` package and calling that name's
factory. Loading is fail-fast. An unknown name stops it with the error
`source %q not available`. A failing factory stops it with that factory's
own error. In both cases no map is returned. On each scrape, every enabled
source's `Update` is called. The outcome is labelled `success` or `error`,
and exactly one observation is recorded under the labels
`(source, result)` in the scrape-duration summary.

Files:

- `wrappers.dfy` (module `Wrappers`): `Option` and `Result`.
- `sources.dfy` (module `Sources`): the registry type. A registered factory
  is represented by the outcome of calling it, `Result<S, E>`. `S` is the
  source type and `E` the factory's error type, both left abstract.
- `exporter.dfy` (module `Exporter`): `loadSources` as the method
  `LoadSources`, proved against the fold `LoadFrom` / `Loaded` and the
  lookup trace `Lookups`, with lemmas about both. It also holds
  `collectFromSource` as `CollectFromSource` and `Collect` run one source at
  a time, over a `ScrapeSummary` class that holds the summary's
  observations as a multiset of label pairs.

Note: the registry's declared value type in sources/source.go:11 names
`LustreSource`, which is not defined in the package. What `loadSources`
stores is a `sources.OpenLDAPSource` (openldap_exporter.go:75,79). The
model's factories produce the abstract source type `S`.

The registry is passed to `LoadSources` as a value. Loading therefore
cannot change it, which is what `loadSources` guarantees by only reading
`sources.Factories` (openldap_exporter.go:71).

`loadSources` returns a factory's error unchanged
(openldap_exporter.go:76-78). The model carries it unchanged in
`FactoryFailed(cause)`.

## Model

| member | source | states |
|---|---|---|
| `Exporter.LoadSources` | openldap_exporter.go:68-82 | The loop returns exactly the fail-fast fold `Loaded` of the registry over the list. Its ghost trace of looked-up names is exactly `Lookups`. |
| `Exporter.LoadedOk` | openldap_exporter.go:69-81 | Loading succeeds iff every listed name is registered and its factory succeeds. The map's key set is then exactly the set of listed names, so an empty list gives an empty map. Each entry is that name's factory result, and every name is looked up in list order, once per occurrence. |
| `Exporter.LoadFromOk` | openldap_exporter.go:69-81 | The same, from any partly built map: success iff all names are loadable, one entry per listed name holding its factory result, and earlier entries for unlisted names kept. |
| `Exporter.LookupsAllLoadable` | openldap_exporter.go:70-79 | When every name is loadable, the registry is consulted for every listed name, in order. |
| `Exporter.FirstFailure` | openldap_exporter.go:70-78 | When some name is not loadable, it gives the position of the first one: that name is unknown or its factory fails, and every name before it is loadable. |
| `Exporter.LoadedFailsAtFirstFailure` | openldap_exporter.go:70-78 | When some name is not loadable, loading returns an error and no map. For the first such name, the error is `NotAvailable(name)` if the name is unregistered, otherwise that factory's own error unchanged. The names looked up are exactly the list up to and including it. |
| `Exporter.LoadFromFails` | openldap_exporter.go:70-78 | The same failure outcome and lookup trace, from any partly built map. |
| `Exporter.LoadFromFailFast` | openldap_exporter.go:70-78 | Once a prefix of the list fails, appending more names changes neither the outcome nor the names looked up. |
| `Exporter.LoadFromReadsOnlyLookups` | openldap_exporter.go:70-79 | Two registries that agree on the looked-up names give the same outcome and lookups. So the factories of names after the failing one are never consulted. |
| `Exporter.ResultLabel` | openldap_exporter.go:55-64 | The result label is "error" iff `Update` returned an error, and "success" iff it returned none. |
| `Exporter.ScrapeSummary.Observe` | openldap_exporter.go:65 | Adds exactly one observation under the given (source, result) labels and changes nothing else. |
| `Exporter.CollectFromSource` | openldap_exporter.go:54-66 | Adds exactly one observation, labelled with the source name and `ResultLabel` of what `Update` returned. |
| `Exporter.RecordsCycleOnePerSource` | openldap_exporter.go:54-66 | After a scrape, a source whose `Update` failed has one new "error" observation and no new "success" one, and a succeeding source the reverse. A name that is not enabled gains no observation. |
| `Exporter.Collect` | openldap_exporter.go:41-52 | After a scrape, every enabled source has exactly one new observation labelled with its own outcome, whatever the other sources' `Update` calls returned, provided each returns. Nothing else is added. |

## Left out

- Collect: every source's `Update` is assumed to return; panics and non-termination are not modelled. In the code nothing recovers a panic in a source's goroutine (openldap_exporter.go:45-48), so it ends the process and no observation survives; a hung `Update` stalls the scrape at `wg.Wait` (openldap_exporter.go:50). The promise that every enabled source is recorded, whatever the other sources returned, holds for scrapes in which every `Update` returns.
- CollectFromSource: `Update` is assumed to return (openldap_exporter.go:57); a panic or a call that never returns records no observation in the code.
- LoadSources: every factory is assumed to return; a nil factory registered in `Factories` panics at openldap_exporter.go:75, which the model does not represent.
- Concurrency in `Collect`: the wait group and the one goroutine per source (openldap_exporter.go:42-50). `Collect` calls `CollectFromSource` once per enabled source, sequentially and in an unspecified order. The summary is a multiset, so the order does not matter.
- Timing: `time.Now`, `time.Since` and the observed duration in seconds (openldap_exporter.go:56-58,65). These are a clock and floating point. An observation keeps only its labels.
- Logging of failures and successes (openldap_exporter.go:60,63) and in `main`.
- Calling a source's `Update`, and the metrics it writes to the channel. These are foreign code. The error `Update` returns is a parameter (`updateErr`, or `update` by source name in `Collect`).
- Factories as code: a factory is represented by the outcome of calling it. Every call of the same name's factory therefore yields the same result in the model. On a repeated name, the entry stored is the last call's result, but the model cannot show it differing from earlier calls. Independent instances from separate loads are not modelled.
- The text of the "not available" error: `fmt.Errorf` with `%q` quoting is represented by the constructor `NotAvailable(name)`, which carries the name.
- Emitting the summary's own samples after the sources (`scrapeDurations.Collect`, openldap_exporter.go:51), `Describe`, the summary's definition, and registration with the Prometheus library (openldap_exporter.go:18-28,35-38,84-86,117-118). These are library plumbing.
- `main`: flags, the version banner, the fixed source list `["procfs"]`, the HTTP handlers, the root page and `ListenAndServe` (openldap_exporter.go:88-136). These are I/O and bootstrap.
- Concrete sources and how they add themselves to `Factories`. They are not part of this repository's core, and their code is not part of this model.
