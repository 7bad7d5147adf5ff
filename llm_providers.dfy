/**
 * The multi-provider revision of the LLM module (src/llm/mod.rs): a plain
 * role/content message, and the choice of client from the configured
 * provider name, with a default base URL per OpenAI-compatible provider.
 */
module LlmProviders {
  import opened Wrappers
  import opened Text
  import Anthropic

  /** The message of this revision: a role and a text, nothing else. */
  datatype Message = Message(role: string, content: string)

  function System(content: string): Message {
    Message("system", content)
  }

  function User(content: string): Message {
    Message("user", content)
  }

  function Assistant(content: string): Message {
    Message("assistant", content)
  }

  /** The three constructors keep the content and differ only in the role. */
  lemma ConstructorRoles(content: string)
    ensures System(content) == Message("system", content)
    ensures User(content) == Message("user", content)
    ensures Assistant(content) == Message("assistant", content)
    ensures System(content) != User(content) && User(content) != Assistant(content) && System(content) != Assistant(content)
  {
  }

  const OpenAiUrl: string := "https://api.openai.com/v1"

  /** The providers with a listed URL of their own, and those URLs. */
  const KnownProviders: map<string, string> := map[
    "openai" := "https://api.openai.com/v1",
    "minimax" := "https://api.minimaxi.chat/v1",
    "openrouter" := "https://openrouter.ai/api/v1",
    "google" := "https://generativelanguage.googleapis.com/v1beta/openai",
    "groq" := "https://api.groq.com/openai/v1",
    "together" := "https://api.together.xyz/v1",
    "deepseek" := "https://api.deepseek.com/v1"
  ]

  function DefaultBaseUrl(provider: string): (r: string)
    ensures provider in KnownProviders ==> r == KnownProviders[provider]
    ensures provider !in KnownProviders ==> r == OpenAiUrl
  {
    match provider
    case "openai" => "https://api.openai.com/v1"
    case "minimax" => "https://api.minimaxi.chat/v1"
    case "openrouter" => "https://openrouter.ai/api/v1"
    case "google" => "https://generativelanguage.googleapis.com/v1beta/openai"
    case "groq" => "https://api.groq.com/openai/v1"
    case "together" => "https://api.together.xyz/v1"
    case "deepseek" => "https://api.deepseek.com/v1"
    case _ => "https://api.openai.com/v1"
  }

  /** Only "openai" and names without a listed URL fall back to the OpenAI endpoint. */
  lemma OpenAiFallback(provider: string)
    ensures DefaultBaseUrl(provider) == OpenAiUrl <==> provider == "openai" || provider !in KnownProviders
  {
  }

  /** The client a configuration selects. */
  datatype Client =
    | AnthropicClient(client: Anthropic.AnthropicClient)
    | OpenAICompatibleClient(baseUrl: string, apiKey: string, model: string, maxTokens: nat)

  /**
   * create_client: "anthropic" selects the Anthropic client; every other name
   * the OpenAI-compatible one, at the configured URL or the provider's
   * default, without trailing '/' (OpenAICompatibleClient::new trims it).
   */
  function CreateClient(provider: string, baseUrl: Option<string>, apiKey: string, model: string, maxTokens: nat): (r: Client)
    ensures r.AnthropicClient? <==> provider == "anthropic"
    ensures r.AnthropicClient? ==> r.client == Anthropic.NewClient(baseUrl, apiKey, model, maxTokens)
    ensures r.OpenAICompatibleClient? ==>
      var chosen := if baseUrl.Some? then baseUrl.value else DefaultBaseUrl(provider);
      && IsPrefix(r.baseUrl, chosen)
      && (r.baseUrl == [] || r.baseUrl[|r.baseUrl| - 1] != '/')
      && (forall i :: |r.baseUrl| <= i < |chosen| ==> chosen[i] == '/')
      && r.apiKey == apiKey && r.model == model && r.maxTokens == maxTokens
  {
    if provider == "anthropic" then AnthropicClient(Anthropic.NewClient(baseUrl, apiKey, model, maxTokens))
    else OpenAICompatibleClient(TrimEnd(baseUrl.GetOr(DefaultBaseUrl(provider)), '/'), apiKey, model, maxTokens)
  }

  /** Without a configured URL a listed provider's client uses that provider's URL unchanged. */
  lemma DefaultUrlUsed(provider: string, apiKey: string, model: string, maxTokens: nat)
    requires provider != "anthropic"
    ensures CreateClient(provider, None, apiKey, model, maxTokens).baseUrl == DefaultBaseUrl(provider)
  {
    var url := DefaultBaseUrl(provider);
    assert url[|url| - 1] != '/';
  }

  /** A configured URL overrides the provider default, for every provider other than "anthropic". */
  lemma ConfiguredUrlOverrides(provider: string, url: string, apiKey: string, model: string, maxTokens: nat)
    requires provider != "anthropic"
    requires url != [] && url[|url| - 1] != '/'
    ensures CreateClient(provider, Some(url), apiKey, model, maxTokens).baseUrl == url
  {
  }
}
