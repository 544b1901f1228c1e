/** The types that the `sources` package gives the exporter. */
module Sources {
  import opened Wrappers

  /** What one call of a registered factory yields: the constructed
      source `S`, or the factory's own error `E`. */
  type FactoryResult<S, E> = Result<S, E>

  /** The package-level `Factories` registry: each registered source name
      is mapped to the outcome of calling its zero-argument factory. */
  type Registry<S, E> = map<string, FactoryResult<S, E>>
}
