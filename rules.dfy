/**
 * The rewrite rules of the DynamicHost middleware and the host rewrite a
 * list of them denotes.
 *
 * One rule compiles its pattern and replaces every match in the current host
 * with its `newHost` text. A list of rules is a left fold of that step over
 * the host, stopped by the first pattern that does not compile. The rule's
 * `name` takes no part in any of it.
 */
module Rules {
  import opened Wrappers
  import opened Regexp

  /** One `HeaderConfig` entry of the plugin configuration. */
  datatype HeaderConfig = HeaderConfig(name: string, regexPattern: string, newHost: string)

  /** Whether the rule's pattern compiles. It depends on the pattern only,
      never on the request. */
  predicate Compiles<R>(e: Engine<R>, rule: HeaderConfig)
  {
    e.compile(rule.regexPattern).Some?
  }

  /** One iteration of the rewrite loop: compile, then replace every match in
      `host`; `None` when the pattern does not compile. */
  function Step<R>(e: Engine<R>, rule: HeaderConfig, host: string): (r: Option<string>)
  {
    match e.compile(rule.regexPattern)
    case None => None
    case Some(re) => Some(e.replaceAll(re, host, rule.newHost))
  }

  /** The host after every rule of `rules` has been applied in order, each to
      the output of the previous one; `None` as soon as a pattern does not
      compile. */
  function Rewrite<R>(e: Engine<R>, rules: seq<HeaderConfig>, host: string): (r: Option<string>)
    decreases |rules|
  {
    if rules == [] then Some(host)
    else match Step(e, rules[0], host)
      case None => None
      case Some(next) => Rewrite(e, rules[1..], next)
  }

  /** The patterns of `rules`, in order. */
  function Patterns(rules: seq<HeaderConfig>): (ps: seq<string>)
    ensures |ps| == |rules|
    ensures forall i :: 0 <= i < |rules| ==> ps[i] == rules[i].regexPattern
    decreases |rules|
  {
    if rules == [] then [] else [rules[0].regexPattern] + Patterns(rules[1..])
  }

  /** The patterns of two lists joined are their patterns joined. */
  lemma {:induction false} PatternsAppend(a: seq<HeaderConfig>, b: seq<HeaderConfig>)
    ensures Patterns(a + b) == Patterns(a) + Patterns(b)
    decreases |a|
  {
    if a == [] {
      assert a + b == b;
    } else {
      assert (a + b)[1..] == a[1..] + b;
      PatternsAppend(a[1..], b);
    }
  }

  /** Extending a rule list by one rule extends its patterns by that rule's. */
  lemma PatternsPrefixStep(rules: seq<HeaderConfig>, i: nat)
    requires i < |rules|
    ensures Patterns(rules[..i + 1]) == Patterns(rules[..i]) + [rules[i].regexPattern]
  {
    assert rules[..i + 1] == rules[..i] + [rules[i]];
    PatternsAppend(rules[..i], [rules[i]]);
  }

  /** The index of the first rule whose pattern does not compile, or
      `|rules|` when every pattern compiles. */
  function FirstInvalid<R>(e: Engine<R>, rules: seq<HeaderConfig>): (k: nat)
    ensures k <= |rules|
    ensures forall i :: 0 <= i < k ==> Compiles(e, rules[i])
    ensures k < |rules| ==> !Compiles(e, rules[k])
    decreases |rules|
  {
    if rules == [] || !Compiles(e, rules[0]) then 0
    else 1 + FirstInvalid(e, rules[1..])
  }

  /** A rewrite succeeds exactly when every pattern compiles, that is, when
      there is no invalid rule; the host never decides it. */
  lemma {:induction false} RewriteSucceedsIff<R>(e: Engine<R>, rules: seq<HeaderConfig>, host: string)
    ensures Rewrite(e, rules, host).Some? <==> FirstInvalid(e, rules) == |rules|
    ensures Rewrite(e, rules, host).Some? <==> forall i :: 0 <= i < |rules| ==> Compiles(e, rules[i])
    decreases |rules|
  {
    if rules != [] {
      match Step(e, rules[0], host)
      case None =>
      case Some(next) => RewriteSucceedsIff(e, rules[1..], next);
    }
  }

  /** Rules are applied in list order: rewriting with `a + b` rewrites with
      `a` and feeds its output, not the original host, to `b`. */
  lemma {:induction false} RewriteAppend<R>(e: Engine<R>, a: seq<HeaderConfig>, b: seq<HeaderConfig>, host: string)
    ensures Rewrite(e, a + b, host) ==
      match Rewrite(e, a, host)
      case None => None
      case Some(mid) => Rewrite(e, b, mid)
    decreases |a|
  {
    if a == [] {
      assert a + b == b;
    } else {
      assert (a + b)[0] == a[0];
      assert (a + b)[1..] == a[1..] + b;
      match Step(e, a[0], host)
      case None =>
      case Some(next) => RewriteAppend(e, a[1..], b, next);
    }
  }

  /** The loop's step: the first `i + 1` rules rewrite the output of the first
      `i` rules with rule `i`, that is, with `ReplaceAllString` of rule `i`'s
      compiled pattern and its `newHost`. */
  lemma RewritePrefixStep<R>(e: Engine<R>, rules: seq<HeaderConfig>, i: nat, host: string, mid: string)
    requires i < |rules|
    requires Rewrite(e, rules[..i], host) == Some(mid)
    ensures Rewrite(e, rules[..i + 1], host) == Step(e, rules[i], mid)
    ensures Compiles(e, rules[i]) ==>
      Rewrite(e, rules[..i + 1], host) == Some(e.replaceAll(e.compile(rules[i].regexPattern).value, mid, rules[i].newHost))
  {
    assert rules[..i + 1] == rules[..i] + [rules[i]];
    RewriteAppend(e, rules[..i], [rules[i]], host);
    assert [rules[i]][1..] == [];
  }

  /** Rules after the first invalid one play no part: appending rules to a
      list that already holds an invalid pattern moves neither the failing
      index nor the result. */
  lemma {:induction false} LaterRulesIrrelevant<R>(e: Engine<R>, a: seq<HeaderConfig>, b: seq<HeaderConfig>, host: string)
    requires FirstInvalid(e, a) < |a|
    ensures FirstInvalid(e, a + b) == FirstInvalid(e, a)
    ensures Rewrite(e, a + b, host) == None
  {
    RewriteSucceedsIff(e, a, host);
    RewriteAppend(e, a, b, host);
    assert (a + b)[FirstInvalid(e, a)] == a[FirstInvalid(e, a)];
  }

  /** Two rule lists that differ at most in the rules' names. */
  predicate SameButNames(a: seq<HeaderConfig>, b: seq<HeaderConfig>)
  {
    |a| == |b| &&
    forall i :: 0 <= i < |a| ==>
      a[i].regexPattern == b[i].regexPattern && a[i].newHost == b[i].newHost
  }

  /** A rule's `name` has no effect: renaming rules changes neither the
      resulting host nor which rule fails. */
  lemma {:induction false} NameIrrelevant<R>(e: Engine<R>, a: seq<HeaderConfig>, b: seq<HeaderConfig>, host: string)
    requires SameButNames(a, b)
    ensures Rewrite(e, a, host) == Rewrite(e, b, host)
    ensures FirstInvalid(e, a) == FirstInvalid(e, b)
    decreases |a|
  {
    if a != [] {
      assert Step(e, a[0], host) == Step(e, b[0], host);
      assert SameButNames(a[1..], b[1..]) by {
        forall i | 0 <= i < |a| - 1
          ensures a[1..][i].regexPattern == b[1..][i].regexPattern && a[1..][i].newHost == b[1..][i].newHost
        {
          assert a[1..][i] == a[i + 1] && b[1..][i] == b[i + 1];
        }
      }
      match Step(e, a[0], host)
      case None =>
      case Some(next) => NameIrrelevant(e, a[1..], b[1..], next);
    }
  }
}
