/**
 * The start-up check of the backend's environment (`validateEnvVariables`,
 * packages/backend/src/index.ts): both API keys must be set to a non-empty
 * value, otherwise start-up fails with a message listing the missing ones.
 */
module Environment {
  import opened Wrappers

  const REQUIRED_ENV_VARS: seq<string> := ["GROQ_API_KEY", "BRAVE_API_KEY"]

  const MISSING_MESSAGE_PREFIX: string := "Missing required environment variables: "

  /** `!process.env[key]`: the variable is unset or set to the empty string. */
  predicate IsMissing(env: map<string, string>, key: string) {
    key !in env || env[key] == ""
  }

  /** True when `sub` is `s` with some elements left out, the rest in their order. */
  predicate IsSubsequence(sub: seq<string>, s: seq<string>)
    decreases |s|
  {
    if sub == [] then true
    else if s == [] then false
    else if sub[0] == s[0] then IsSubsequence(sub[1..], s[1..])
    else IsSubsequence(sub, s[1..])
  }

  /** `keys.filter(key => !process.env[key])`. */
  function MissingAmong(keys: seq<string>, env: map<string, string>): (missing: seq<string>)
    ensures forall k :: k in missing <==> k in keys && IsMissing(env, k)
    ensures IsSubsequence(missing, keys)
    decreases |keys|
  {
    if keys == [] then []
    else
      var rest := MissingAmong(keys[1..], env);
      assert forall k :: k in keys <==> k == keys[0] || k in keys[1..];
      if IsMissing(env, keys[0]) then [keys[0]] + rest else rest
  }

  /** `parts.join(separator)`. */
  function Join(parts: seq<string>, separator: string): string
    decreases |parts|
  {
    if parts == [] then ""
    else if |parts| == 1 then parts[0]
    else parts[0] + separator + Join(parts[1..], separator)
  }

  /**
   * `validateEnvVariables`: the message of the error it throws, or none when
   * every required variable is set.
   */
  function ValidateEnvVariables(env: map<string, string>): (error: Option<string>)
    ensures error.None? <==> forall k :: k in REQUIRED_ENV_VARS ==> !IsMissing(env, k)
    ensures error.Some? ==> error.value == MISSING_MESSAGE_PREFIX + Join(MissingAmong(REQUIRED_ENV_VARS, env), ", ")
  {
    var missing := MissingAmong(REQUIRED_ENV_VARS, env);
    if |missing| > 0 then Some(MISSING_MESSAGE_PREFIX + Join(missing, ", ")) else None
  }

  /** With only the Brave key unset, start-up names exactly that key. */
  lemma OnlyBraveKeyMissing(groqKey: string)
    requires groqKey != ""
    ensures ValidateEnvVariables(map["GROQ_API_KEY" := groqKey]) == Some(MISSING_MESSAGE_PREFIX + "BRAVE_API_KEY")
  {
    var env := map["GROQ_API_KEY" := groqKey];
    assert REQUIRED_ENV_VARS[1..] == ["BRAVE_API_KEY"] && ["BRAVE_API_KEY"][1..] == [];
    assert MissingAmong(["BRAVE_API_KEY"], env) == ["BRAVE_API_KEY"];
  }
}
