/**
 * The provider client of Smart Study Buddy (src/ai_client.py), reduced to
 * what the explanation gateway relies on: the choice of provider and model
 * at construction, and a text generator whose answer (or failure) is not
 * known in advance.
 */
module AiClient {
  import opened Wrappers

  /** The two supported remote text-generation services. */
  datatype Provider = OpenAI | Anthropic

  /** A failed generation, re-raised with the provider that failed. */
  datatype GenerationError = GenerationError(provider: Provider, cause: string)

  /**
   * A stream of explanation chunks that has been requested but not yet
   * consumed: it will ask `provider` for `userPrompt` under `systemPrompt`.
   */
  datatype PendingStream = PendingStream(provider: Provider, systemPrompt: string, userPrompt: string)

  /** Lower-casing of one ASCII letter; other characters are kept. */
  function LowerChar(c: char): char
  {
    if 'A' <= c <= 'Z' then (c as int + 32) as char else c
  }

  /** `str.lower()` restricted to ASCII letters. */
  function Lower(s: string): (r: string)
    ensures |r| == |s|
    ensures forall i :: 0 <= i < |s| ==> r[i] == LowerChar(s[i])
  {
    if s == [] then [] else [LowerChar(s[0])] + Lower(s[1..])
  }

  /** Lower-casing twice is lower-casing once. */
  lemma LowerIdempotent(s: string)
    ensures Lower(Lower(s)) == Lower(s)
  {
  }

  /** The provider a configuration name selects, if any (case-insensitive). */
  function ParseProvider(name: string): (p: Option<Provider>)
    ensures p == Some(OpenAI) <==> Lower(name) == "openai"
    ensures p == Some(Anthropic) <==> Lower(name) == "anthropic"
  {
    var lowered := Lower(name);
    if lowered == "openai" then Some(OpenAI)
    else if lowered == "anthropic" then Some(Anthropic)
    else None
  }

  /** Provider names are matched without regard to letter case. */
  lemma ParseProviderCaseInsensitive(name: string)
    ensures ParseProvider(Lower(name)) == ParseProvider(name)
  {
    LowerIdempotent(name);
  }

  /** An unsupported name such as "cohere" selects no provider. */
  lemma UnsupportedProvider()
    ensures ParseProvider("cohere") == None
    ensures ParseProvider("OpenAI") == Some(OpenAI)
  {
  }

  /** The environment value of `key`, or `default` when it is not set. */
  function GetEnv(env: map<string, string>, key: string, default: string): string
  {
    if key in env then env[key] else default
  }

  class Client {
    const provider: Provider
    const model: string

    /**
     * Selects the provider by name and the model: the given one when it is
     * truthy, otherwise DEFAULT_MODEL from the environment, otherwise "gpt-4o".
     */
    constructor(name: string, model: Option<string>, env: map<string, string>)
      requires ParseProvider(name).Some?
      ensures provider == ParseProvider(name).value
      ensures Given(model) ==> this.model == model.value
      ensures !Given(model) && "DEFAULT_MODEL" in env ==> this.model == env["DEFAULT_MODEL"]
      ensures !Given(model) && "DEFAULT_MODEL" !in env ==> this.model == "gpt-4o"
    {
      provider := ParseProvider(name).value;
      this.model := if Given(model) then model.value else GetEnv(env, "DEFAULT_MODEL", "gpt-4o");
    }

    /**
     * One blocking request to the remote service. What it answers, and
     * whether it fails, is outside this model: any text, or a failure
     * re-raised under this client's provider.
     */
    method GenerateExplanation(systemPrompt: string, userPrompt: string)
      returns (r: Result<string, GenerationError>)
      ensures r.Failure? ==> r.error.provider == provider
    {
      var answered: bool :| true;
      var text: string :| true;
      var cause: string :| true;
      r := if answered then Success(text) else Failure(GenerationError(provider, cause));
    }

    /** A streamed request: nothing is sent until the stream is consumed. */
    function StreamExplanation(systemPrompt: string, userPrompt: string): PendingStream
    {
      PendingStream(provider, systemPrompt, userPrompt)
    }
  }
}
