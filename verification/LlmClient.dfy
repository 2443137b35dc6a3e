/**
 * The OpenAI client wrapper: API-key resolution and the normalisation of the reply.
 * The chat-completion request itself is an oracle.
 */
module LlmClient {
  import opened Wrappers

  /** The key pasted into the module for local use; empty as shipped. */
  const ApiKey: string := ""

  /** `OpenAIConfigError`: no key configured. */
  datatype ConfigError = NoApiKey

  /** What the completion service does with a request: a reply whose content may be None, or an exception. */
  datatype ServiceReply = Completion(content: Option<string>) | Raised

  /** The service, given the key and the user prompt. */
  type Service = (string, string) -> ServiceReply

  /** What `generate_code` gives its caller: the code, `OpenAIConfigError`, or any other exception. */
  datatype LlmReply = Code(text: string) | ConfigFailure | OtherFailure

  /** `_get_api_key`: the environment's `OPENAI_API_KEY` when non-empty, else the pasted key. */
  function ResolveKey(env: Option<string>, pasted: string): (r: Result<string, ConfigError>)
    ensures r.Ok? ==> r.value != ""
    ensures env.Some? && env.value != "" ==> r == Ok(env.value)
    ensures (env.None? || env.value == "") && pasted != "" ==> r == Ok(pasted)
    ensures r.Err? <==> (env.None? || env.value == "") && pasted == ""
  {
    var key := if env.Some? && env.value != "" then env.value else pasted;
    if key == "" then Err(NoApiKey) else Ok(key)
  }

  /** With the key shipped empty, a key is found exactly when the environment supplies one. */
  lemma ShippedKeyNeedsEnvironment(env: Option<string>)
    ensures ResolveKey(env, ApiKey).Ok? <==> env.Some? && env.value != ""
  {
  }

  /**
   * `generate_code`: resolve the key (a failure raises before any client exists), then
   * ask the service and return its content, or "" when the content is None.
   */
  function GenerateCode(env: Option<string>, pasted: string, service: Service, prompt: string): (r: LlmReply)
    ensures r.ConfigFailure? <==> ResolveKey(env, pasted).Err?
    ensures r.Code? ==> exists key :: ResolveKey(env, pasted) == Ok(key) && service(key, prompt).Completion?
    ensures r.Code? ==> r.text == service(ResolveKey(env, pasted).value, prompt).content.GetOr("")
    ensures r.OtherFailure? <==> ResolveKey(env, pasted).Ok? && service(ResolveKey(env, pasted).value, prompt).Raised?
  {
    match ResolveKey(env, pasted)
    case Err(_) => ConfigFailure
    case Ok(key) =>
      match service(key, prompt)
      case Raised => OtherFailure
      case Completion(content) => Code(content.GetOr(""))
  }

  /** Without a key the service is never consulted: any two services give the same reply. */
  lemma NoKeyNoRequest(env: Option<string>, pasted: string, s1: Service, s2: Service, prompt: string)
    requires ResolveKey(env, pasted).Err?
    ensures GenerateCode(env, pasted, s1, prompt) == GenerateCode(env, pasted, s2, prompt) == ConfigFailure
  {
  }
}
