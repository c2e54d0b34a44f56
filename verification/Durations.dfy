/** time.ParseDuration and Duration.String, which are parameters of the conversions. */
module Durations {
  import opened Common

  const TEN_MINUTES: int := 600_000_000_000

  /** A parser and a printer of durations, which count nanoseconds. */
  datatype Format = Format(parse: string -> Option<int>, show: int -> string)
  {
    /** A printed duration parses to itself. */
    ghost predicate Coherent() {
      forall d: int :: parse(show(d)) == Some(d)
    }

    /** What the code falls back to when a timeout does not parse. */
    function ParseOrDefault(text: string): int {
      match parse(text) case Some(d) => d case None => TEN_MINUTES
    }
  }
}
