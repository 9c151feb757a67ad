/**
 * The part of Go's `regexp` package the middleware uses, kept abstract.
 *
 * The middleware only ever compiles a pattern and calls `ReplaceAllString`
 * on the compiled expression.  Neither the RE2 syntax nor the matching and
 * `$1` expansion rules are modelled: an `Engine` is any pair of functions
 * with those two signatures, and every result of the model holds for every
 * such engine.  `R` stands for the type of a compiled expression.
 */
module Regexp {
  import opened Wrappers

  datatype Engine<!R> = Engine(
    /** `regexp.Compile(pattern)`: `None` when Go reports an error. */
    compile: string -> Option<R>,
    /** `re.ReplaceAllString(src, repl)`: every match of `re` in `src` replaced. */
    replaceAll: (R, string, string) -> string
  )

  /** `regexp.Compile` as the middleware calls it: the engine's `compile`,
      with every pattern it is asked to compile recorded in order, so that
      which patterns a request compiles can be observed. */
  class Compiler<R> {
    const engine: Engine<R>
    var log: seq<string>

    constructor (engine: Engine<R>)
      ensures this.engine == engine && log == []
    {
      this.engine := engine;
      log := [];
    }

    /** `regexp.Compile(pattern)`. */
    method Compile(pattern: string) returns (re: Option<R>)
      modifies this
      ensures re == engine.compile(pattern)
      ensures log == old(log) + [pattern]
    {
      re := engine.compile(pattern);
      log := log + [pattern];
    }
  }
}
