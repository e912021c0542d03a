/** The start-up check that required environment variables are set (`require`). */
module Env {

  /** The process environment: variable name to value. */
  type Environment = map<string, string>

  /** `os.getenv(k)` is truthy: the variable is set and not empty. */
  predicate IsSet(env: Environment, k: string) {
    k in env && env[k] != ""
  }

  /** The comprehension `[k for k in keys if not os.getenv(k)]`. */
  function Missing(keys: seq<string>, env: Environment): (m: seq<string>)
    ensures |m| <= |keys|
    ensures forall k :: k in m <==> k in keys && !IsSet(env, k)
  {
    if keys == [] then []
    else (if IsSet(env, keys[0]) then [] else [keys[0]]) + Missing(keys[1..], env)
  }

  /** `', '.join(xs)`. */
  function Join(xs: seq<string>, sep: string): string {
    if xs == [] then ""
    else if |xs| == 1 then xs[0]
    else xs[0] + sep + Join(xs[1..], sep)
  }

  const MessagePrefix := "Missing environment variables: "

  /** What `require` does: return normally, or raise RuntimeError with its message. */
  datatype Outcome = Pass | RuntimeError(message: string)

  function Require(keys: seq<string>, env: Environment): (r: Outcome)
    ensures r.RuntimeError? <==> (exists k :: k in keys && !IsSet(env, k))
    ensures r.RuntimeError? ==> r.message == MessagePrefix + Join(Missing(keys, env), ", ")
  {
    var missing := Missing(keys, env);
    if missing != [] then
      assert missing[0] in missing;
      RuntimeError(MessagePrefix + Join(missing, ", "))
    else
      assert forall k :: k in keys ==> IsSet(env, k);
      Pass
  }

  /** The missing list keeps the input order: it distributes over concatenation of key lists. */
  lemma {:induction false} MissingConcat(a: seq<string>, b: seq<string>, env: Environment)
    ensures Missing(a + b, env) == Missing(a, env) + Missing(b, env)
  {
    if a == [] {
      assert a + b == b;
    } else {
      var head := if IsSet(env, a[0]) then [] else [a[0]];
      var ab := a + b;
      assert ab[0] == a[0] && ab[1..] == a[1..] + b;
      MissingConcat(a[1..], b, env);
      calc {
        Missing(ab, env);
        head + Missing(a[1..] + b, env);
        head + (Missing(a[1..], env) + Missing(b, env));
        (head + Missing(a[1..], env)) + Missing(b, env);
      }
    }
  }

  /** Only whether each key is set matters, never the value it is set to. */
  lemma {:induction false} MissingDependsOnlyOnSetness(keys: seq<string>, e1: Environment, e2: Environment)
    requires forall k :: k in keys ==> (IsSet(e1, k) <==> IsSet(e2, k))
    ensures Missing(keys, e1) == Missing(keys, e2)
  {
    if keys != [] {
      MissingDependsOnlyOnSetness(keys[1..], e1, e2);
    }
  }

  lemma RequireDependsOnlyOnSetness(keys: seq<string>, e1: Environment, e2: Environment)
    requires forall k :: k in keys ==> (IsSet(e1, k) <==> IsSet(e2, k))
    ensures Require(keys, e1) == Require(keys, e2)
  {
    MissingDependsOnlyOnSetness(keys, e1, e2);
  }
}
