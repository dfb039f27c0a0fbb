/**
 * The configuration loader: checks that the `llms`, `prompt` and `rag`
 * sections of a parsed YAML document are present and non-empty, indexes the
 * LLM entries by provider, and keeps the assembled configuration in a single
 * slot that `get_config` reads.
 */
module ConfigLoading {
  import opened Wrappers

  /** A YAML mapping of scalar settings, as the schema constructors receive it. */
  type Fields = map<string, string>

  /** The schema records; their constructors are taken as total. */
  datatype LLMConfig = LLMConfig(fields: Fields)
  datatype PromptTemplateConfig = PromptTemplateConfig(fields: Fields)
  datatype RAGConfig = RAGConfig(fields: Fields)
  datatype Config = Config(
    llmConfig: map<string, LLMConfig>,
    promptTemplateConfig: PromptTemplateConfig,
    ragConfig: RAGConfig)

  /**
   * The parsed document: each top-level section is absent (or YAML null),
   * or holds its value.
   */
  datatype Document = Document(llms: Option<seq<Fields>>, prompt: Option<Fields>, rag: Option<Fields>)

  /** What the loader raises. */
  datatype ConfigError =
    | NotInitialized   // get_config before any successful load
    | EmptyLlms        // `llms` absent or empty
    | MissingProvider  // an `llms` entry without a `provider` key (a KeyError)
    | EmptyPrompt      // `prompt` absent or empty
    | EmptyRag         // `rag` absent or empty

  const ProviderKey: string := "provider"

  predicate HasProvider(entry: Fields) {
    ProviderKey in entry
  }

  /** The `llms` list as the loop sees it: absent means empty. */
  function LlmEntries(doc: Document): seq<Fields> {
    if doc.llms.Some? then doc.llms.value else []
  }

  /** The `provider` values of the entries that have one. */
  function Providers(entries: seq<Fields>): set<string> {
    set i | 0 <= i < |entries| && HasProvider(entries[i]) :: entries[i][ProviderKey]
  }

  /** Entry `i` is the last of `entries[..n]` whose provider is `p`. */
  predicate LastWithProvider(entries: seq<Fields>, n: nat, i: nat, p: string)
    requires n <= |entries|
  {
    && i < n
    && HasProvider(entries[i]) && entries[i][ProviderKey] == p
    && forall j :: i < j < n && HasProvider(entries[j]) ==> entries[j][ProviderKey] != p
  }

  /**
   * `m` is the dictionary the loop builds from `entries[..n]`: one key per
   * provider, each mapped to the LLMConfig of the last entry naming it.
   */
  ghost predicate IndexedByProvider(entries: seq<Fields>, n: nat, m: map<string, LLMConfig>)
    requires n <= |entries|
  {
    && m.Keys == Providers(entries[..n])
    && forall p :: p in m ==>
         exists i: nat :: LastWithProvider(entries, n, i, p) && m[p] == LLMConfig(entries[i])
  }

  /** `_init_llms_config`'s outcome is an error exactly in these cases. */
  predicate LlmsValid(doc: Document) {
    LlmEntries(doc) != [] && forall i :: 0 <= i < |LlmEntries(doc)| ==> HasProvider(LlmEntries(doc)[i])
  }

  /**
   * `_init_llms_config`: fails with EmptyLlms on an absent or empty `llms`
   * section and with MissingProvider on an entry without a provider;
   * otherwise returns the entries keyed by provider, a later entry replacing
   * an earlier one with the same provider.
   */
  method InitLlmsConfig(doc: Document) returns (r: Result<map<string, LLMConfig>, ConfigError>)
    ensures r.Ok? <==> LlmsValid(doc)
    ensures LlmEntries(doc) == [] ==> r == Err(EmptyLlms)
    ensures LlmEntries(doc) != [] && !LlmsValid(doc) ==> r == Err(MissingProvider)
    ensures r.Ok? ==> IndexedByProvider(LlmEntries(doc), |LlmEntries(doc)|, r.value)
  {
    var llms := LlmEntries(doc);
    if llms == [] {
      return Err(EmptyLlms);
    }
    var m: map<string, LLMConfig> := map[];
    var n := 0;
    while n < |llms|
      invariant 0 <= n <= |llms|
      invariant forall i :: 0 <= i < n ==> HasProvider(llms[i])
      invariant IndexedByProvider(llms, n, m)
    {
      var entry := llms[n];
      if !HasProvider(entry) {
        return Err(MissingProvider);
      }
      ghost var before := m;
      m := m[entry[ProviderKey] := LLMConfig(entry)];
      IndexStep(llms, n, before);
      n := n + 1;
    }
    assert llms[..n] == llms;
    return Ok(m);
  }

  /** Adding entry `n` to the index of `entries[..n]` gives the index of `entries[..n + 1]`. */
  lemma IndexStep(entries: seq<Fields>, n: nat, m: map<string, LLMConfig>)
    requires n < |entries| && HasProvider(entries[n])
    requires IndexedByProvider(entries, n, m)
    ensures IndexedByProvider(entries, n + 1, m[entries[n][ProviderKey] := LLMConfig(entries[n])])
  {
  }

  /**
   * A later duplicate wins: in any dictionary the loader builds, a provider
   * maps to the LLMConfig of the LAST entry that names it, so an earlier
   * entry with that provider is kept only when it equals the last one.
   */
  lemma LaterDuplicateWins(entries: seq<Fields>, m: map<string, LLMConfig>, i: nat, j: nat)
    requires IndexedByProvider(entries, |entries|, m)
    requires i < j < |entries| && HasProvider(entries[i]) && HasProvider(entries[j])
    requires entries[i][ProviderKey] == entries[j][ProviderKey]
    requires forall k :: j < k < |entries| && HasProvider(entries[k]) ==> entries[k][ProviderKey] != entries[j][ProviderKey]
    ensures entries[j][ProviderKey] in m
    ensures m[entries[j][ProviderKey]] == LLMConfig(entries[j])
  {
  }

  /**
   * `_init_prompt_template_config`: an absent or empty `prompt` section is
   * an error; otherwise the template configuration is built from it.
   */
  function InitPromptTemplateConfig(doc: Document): (r: Result<PromptTemplateConfig, ConfigError>)
    ensures r.Err? <==> doc.prompt.None? || doc.prompt.value == map[]
    ensures r.Err? ==> r.error == EmptyPrompt
    ensures r.Ok? ==> r.value.fields == doc.prompt.value
  {
    if doc.prompt.None? || doc.prompt.value == map[] then Err(EmptyPrompt)
    else Ok(PromptTemplateConfig(doc.prompt.value))
  }

  /**
   * `_init_rag_config`: an absent or empty `rag` section is an error;
   * otherwise the RAG configuration is built from it.
   */
  function InitRagConfig(doc: Document): (r: Result<RAGConfig, ConfigError>)
    ensures r.Err? <==> doc.rag.None? || doc.rag.value == map[]
    ensures r.Err? ==> r.error == EmptyRag
    ensures r.Ok? ==> r.value.fields == doc.rag.value
  {
    if doc.rag.None? || doc.rag.value == map[] then Err(EmptyRag)
    else Ok(RAGConfig(doc.rag.value))
  }

  /** All three sections are usable, so loading the document succeeds. */
  predicate Loadable(doc: Document) {
    && LlmsValid(doc)
    && InitPromptTemplateConfig(doc).Ok?
    && InitRagConfig(doc).Ok?
  }

  /** The error loading raises: that of the first failing section, in the order llms, prompt, rag. */
  function FirstError(doc: Document): (e: ConfigError)
    requires !Loadable(doc)
    ensures e != NotInitialized
    ensures e == EmptyLlms <==> LlmEntries(doc) == []
  {
    if LlmEntries(doc) == [] then EmptyLlms
    else if !LlmsValid(doc) then MissingProvider
    else if InitPromptTemplateConfig(doc).Err? then EmptyPrompt
    else EmptyRag
  }

  /** The class-level slot `ConfigLoader.config`, with the operations that read and set it. */
  class ConfigLoader {
    var config: Option<Config>

    /** The slot starts out as None. */
    constructor ()
      ensures config == None
    {
      config := None;
    }

    /** `get_config`: the stored configuration, or NotInitialized when nothing was stored. */
    method GetConfig() returns (r: Result<Config, ConfigError>)
      ensures r.Err? <==> config.None?
      ensures r.Err? ==> r.error == NotInitialized
      ensures r.Ok? ==> Some(r.value) == config
    {
      if config.None? {
        return Err(NotInitialized);
      }
      return Ok(config.value);
    }

    /**
     * `from_file` after the YAML has been read: builds the three sections in
     * order and stores the assembled configuration only when all of them
     * succeed; on the first failure it raises that failure and leaves the
     * slot as it was.
     */
    method FromDocument(doc: Document) returns (r: Result<Config, ConfigError>)
      modifies this
      ensures r.Ok? <==> Loadable(doc)
      ensures r.Err? ==> r.error == FirstError(doc) && config == old(config)
      ensures r.Ok? ==> config == Some(r.value)
      ensures r.Ok? ==> IndexedByProvider(LlmEntries(doc), |LlmEntries(doc)|, r.value.llmConfig)
      ensures r.Ok? ==> r.value.promptTemplateConfig.fields == doc.prompt.value
      ensures r.Ok? ==> r.value.ragConfig.fields == doc.rag.value
    {
      var llms := InitLlmsConfig(doc);
      if llms.Err? {
        return Err(llms.error);
      }
      var prompt := InitPromptTemplateConfig(doc);
      if prompt.Err? {
        return Err(prompt.error);
      }
      var rag := InitRagConfig(doc);
      if rag.Err? {
        return Err(rag.error);
      }
      config := Some(Config(llms.value, prompt.value, rag.value));
      return Ok(config.value);
    }
  }

  /** After a successful load, `get_config` returns exactly the configuration the load returned. */
  method LoadThenGet(loader: ConfigLoader, doc: Document) returns (loaded: Result<Config, ConfigError>, got: Result<Config, ConfigError>)
    modifies loader
    ensures loaded.Ok? ==> got == loaded
    ensures loaded.Err? ==> loader.config == old(loader.config)
  {
    loaded := loader.FromDocument(doc);
    got := loader.GetConfig();
  }
}
