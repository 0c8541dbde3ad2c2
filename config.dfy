/** Application settings the core reads, and the CORS origin list. */
module Config {
  import opened Wrappers
  import opened Text

  /** The settings the core consults (the rest are framework plumbing). */
  datatype Settings = Settings(
    openaiApiKey: Option<string>,
    anthropicApiKey: Option<string>,
    defaultModel: string,
    maxTokens: int,
    corsOrigins: Option<string>)

  /** The declared defaults, before the environment is read. */
  const DefaultSettings: Settings := Settings(None, None, "gpt-4o-mini", 1000, None)

  /** `Settings.cors_origins_list`: split the configured string on ",",
      strip each entry and drop blank ones; a "*" entry stands for all
      origins; no setting (or an empty one) allows none. */
  function CorsOriginsList(s: Settings): (origins: seq<string>)
  {
    if Truthy(s.corsOrigins) then
      var entries := SplitStripNonBlank(s.corsOrigins.value, ',');
      if "*" in entries then ["*"] else entries
    else []
  }

  /** No setting, or an empty one, yields no origins; otherwise every origin
      is a stripped, non-empty entry without a comma, a "*" entry collapses
      the list to exactly ["*"], and without one the origins are the stripped
      comma-separated entries in their configured order, blank ones dropped. */
  lemma CorsOriginsListSpec(s: Settings)
    ensures !Truthy(s.corsOrigins) ==> CorsOriginsList(s) == []
    ensures forall k :: 0 <= k < |CorsOriginsList(s)| ==>
              IsStrippedWord(CorsOriginsList(s)[k]) && ',' !in CorsOriginsList(s)[k]
    ensures Truthy(s.corsOrigins) && "*" in SplitStripNonBlank(s.corsOrigins.value, ',')
            ==> CorsOriginsList(s) == ["*"]
    ensures Truthy(s.corsOrigins) && "*" !in SplitStripNonBlank(s.corsOrigins.value, ',')
            ==> CorsOriginsList(s) == DropEmpty(StripAll(Split(s.corsOrigins.value, ',')))
  {
    if Truthy(s.corsOrigins) {
      SplitStripNonBlankSpec(s.corsOrigins.value, ',');
      StripNonBlankIsDropEmpty(Split(s.corsOrigins.value, ','));
    }
  }
}
