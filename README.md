# DynamicHost middleware in Dafny

This project models `dynamichost`, a Traefik middleware plugin that rewrites the `Host` of an
incoming request with a list of regular-expression rules before handing the request on to the
next handler of the chain.

- `Rules` (`rules.dfy`): a `HeaderConfig` rule (`name`, `regexPattern`, `newHost`). `Step` is
  one iteration of the rewrite loop. `Rewrite` is the left fold of that step over a rule list,
  stopped by the first pattern that does not compile. `FirstInvalid` is the index of that first
  pattern. The lemmas state what the fold means: when it succeeds, that rules compose in order,
  that rules after a failing one are irrelevant, and that rule names have no effect.
- `DynamicHostPlugin` (`dynamichost.dfy`): `Config`, `CreateConfig`, `New` and the request handler
  `DynamicHost.ServeHTTP`. `ServeHTTP` is a loop that updates the request in place. Its
  postconditions tie the final request, the response writer and the next handler to `Rewrite`
  and `FirstInvalid`.
- `Http` (`http.dfy`): the request (a class whose host and headers the handler overwrites), the
  response writer (status and body) and the next handler (a log of the requests it received).
- `Regexp` (`regexp.dfy`): Go's `regexp` package as an `Engine`. An `Engine` is an arbitrary pair
  of functions `compile` and `replaceAll`. `ServeHTTP` receives it inside a `Compiler`, which
  also logs every pattern compiled, so which patterns a request compiles can be observed. Every
  result holds for every engine, so nothing depends on RE2 syntax or on how matches are replaced.
- `Wrappers` (`wrappers.dfy`): `Option` and `Result`.

A `DynamicHost` is not modified after `New` builds it, so it is a datatype value. The state that
changes lives in the request, the response writer and the next handler.

The behaviour modelled is what `dynamichost.go` does. Although `HeaderConfig` has a `name` field
and `New` builds a `[[ ]]` template, the code never reads the name and never runs the template:
- Every rule applies to the host; the rule's `name` is never read (`Rules.NameIrrelevant`).
  There is no filter on the field name.
- There is no templated (`[[ ]]`) mode. The template built at dynamichost.go:50 is never executed.
- Nothing is committed atomically. Each rule writes the host field and the `Host` header as soon
  as it is applied. A later invalid pattern leaves those writes in place, even though the
  request is answered with a 500 and not forwarded.

## Model

| member | source | states |
|---|---|---|
| `DynamicHostPlugin.CreateConfig` | dynamichost.go:26-30 | the default configuration has no rules |
| `DynamicHostPlugin.New` | dynamichost.go:41-52 | fails with "headers cannot be empty" exactly when the configuration has no rules; otherwise the instance keeps the same rules in the same order, the next handler and the name |
| `DynamicHostPlugin.DefaultConfigRejected` | dynamichost.go:41-44 | `New` always refuses the unmodified default configuration |
| `DynamicHostPlugin.DynamicHost.ServeHTTP` | dynamichost.go:54-68 | for k the first invalid rule (or the number of rules), the host is rules 0..k-1 folded in order over the original host, and the `Host` header equals it once a rule has been applied. No other header, the URL or the body changes. The compiler's log grows by exactly the patterns of rules 0..k, in order, on failure and by every pattern on success, so later patterns are never compiled. If every pattern compiles, the host is the full fold and the request is forwarded exactly once with the response untouched. Otherwise the status is 500, "Invalid regex pattern" and a line break are appended to the body, and nothing is forwarded |
| `Rules.Step` | dynamichost.go:56-62 | one iteration of the loop: compile the rule's pattern, stop on an error, otherwise `ReplaceAllString` on the current host. It has no contract of its own; its meaning is fixed by `Rules.RewritePrefixStep` |
| `Rules.Rewrite` | dynamichost.go:55-65 | the whole loop as a fold that stops at the first invalid pattern. It has no contract of its own; its meaning is fixed by `Rules.RewriteAppend`, `Rules.RewritePrefixStep`, `Rules.RewriteSucceedsIff`, `Rules.LaterRulesIrrelevant` and `Rules.NameIrrelevant` |
| `Rules.FirstInvalid` | dynamichost.go:55-60 | the result is the least index whose pattern does not compile: every earlier pattern compiles, and the one there does not, unless it is the list's length |
| `Rules.RewriteSucceedsIff` | dynamichost.go:55-60 | a rewrite fails exactly when some pattern fails to compile, whatever the host |
| `Rules.RewriteAppend` | dynamichost.go:55-65 | rewriting with `a + b` is rewriting with `a` and then with `b` on `a`'s output |
| `Rules.RewritePrefixStep` | dynamichost.go:62-64 | the first i+1 rules give `ReplaceAllString` of rule i applied to the output of the first i rules |
| `Rules.LaterRulesIrrelevant` | dynamichost.go:55-60 | once a list holds an invalid pattern, appending rules changes neither the failing index nor the failed result |
| `Rules.NameIrrelevant` | dynamichost.go:55-65 | rule lists that differ only in rule names give the same host and fail at the same rule |
| `Regexp.Compiler.Compile` | dynamichost.go:56 | gives the engine's compilation of the pattern and appends the pattern to the compiler's log |
| `Http.Request.SetHeader` | dynamichost.go:64 | `Header.Set` replaces one header and leaves every other header and field alone |
| `Http.ResponseWriter.Error` | dynamichost.go:58 | `http.Error` writes the status and appends the message and a line break to the body |
| `Http.Handler.ServeHTTP` | dynamichost.go:67 | the next handler receives the request, recorded once per call |

## Left out

- Go's `regexp` internals are not modelled: RE2 syntax, matching, and `$1` expansion in `ReplaceAllString`. Both operations are arbitrary functions passed in as an `Engine`.
- The `text/template` value built in `New` (dynamichost.go:50) is left out, because it is never executed.
- The `context.Context` argument of `New` is unused by the code and is left out.
- `net/http` details are left out:
  - Header-key canonicalisation, and headers with several values (a header holds one value here).
  - The `Content-Type` and `X-Content-Type-Options` headers that `http.Error` also sets.
  - Go's rule that a second `WriteHeader` is ignored.
  - What the next handler does with the request and the response.
- `Http.Handler.ServeHTTP`: the next handler is reduced to recording the request; it does not change the request or the response.
- Slice aliasing is not modelled. `New` stores the configuration's slice itself, so a later change to an element of `config.Headers` would be visible to the plugin; here the rules are an immutable sequence.
- Concurrent requests are left out. Each call of `ServeHTTP` is modelled on its own; the rules are only read.
- `dynamichost_test.go` is not modelled. It assigns a map to the rule list, and its one assertion depends on concrete regular-expression semantics.
