/**
 * Go's error conventions, as values.
 * - A Go function returning `(T, error)` returns both parts: `Fallible(value, err)`.
 *   On error the value part is whatever zero value the Go code returns beside it.
 * - A Go function that may `panic` returns an `Outcome`.
 */
module Results {

  datatype Option<+T> = None | Some(value: T)

  /** The errors the modelled code can produce. */
  datatype Error =
    | InvalidBool(envVar: string, value: string)   // internal/env.go: unrecognised boolean spelling
    | InvalidExportType(exportType: string)        // tracing/config.go: unknown exporter type
    | AlreadyRegistered                            // the metrics registry refused a collector

  /** Go's `(T, error)` pair. */
  datatype Fallible<+T> = Fallible(value: T, err: Option<Error>) {
    predicate Ok() { err.None? }
  }

  /** A call that either returns a value or panics with an error. */
  datatype Outcome<+T> = Returned(value: T) | Panicked(cause: Error)
}
