/** `extractor_node`: reuse the cached extraction when a cache path was set
    and the cache holds data, otherwise extract from the uploaded files. Any
    failure, including a missing state key, yields the failure update. */
module Extractor {
  import opened Common
  import opened AgentState

  const Completed := "Extraction completed."
  const ComponentFailed := "Extraction Component Failed."

  /** The update after a successful extraction (or cache hit). */
  function Extracted(data: Fields): Command {
    Command(Say("extractor", Completed).(extractedData := Some(data)), "validator")
  }

  /** The update of the `except` branch. */
  const ExtractionFailed := Command(Say("extractor", ComponentFailed).(extractedData := Some(map[])), "supervisor")

  /** The cache is used: the path is set and not empty, and the cache file
      holds a non-empty dictionary. */
  predicate UsesCache(s: State, cached: Option<Fields>) {
    s.cachedExtractionPath.Some? && s.cachedExtractionPath.value != "" &&
    cached.Some? && Truthy(cached.value)
  }

  /** `extractor_node(state)`; `cached` is what `load_cached_extraction_data()`
      returns and `extract` is `extract_documents`. */
  function ExtractorNode(s: State, cached: Option<Fields>, extract: map<string, string> -> Result<Fields>): (c: Command)
    ensures c.update.extractedData.Some? && (c == ExtractionFailed || c == Extracted(c.update.extractedData.value))
    ensures c.goto == "validator" <==> c != ExtractionFailed
    // a missing cache-path key raises before anything else
    ensures s.cachedExtractionPath.None? ==> c == ExtractionFailed
    // cache hit: the cached data is passed on and `extract` plays no part
    ensures UsesCache(s, cached) ==> c == Extracted(cached.value)
    // otherwise (empty path, or an empty or unreadable cache) the files are extracted
    ensures s.cachedExtractionPath.Some? && !UsesCache(s, cached) ==>
              c == (if s.extractionFilePaths.None? then ExtractionFailed
                    else match extract(s.extractionFilePaths.value)
                      case Success(data) => Extracted(data)
                      case Failure(_) => ExtractionFailed)
  {
    if s.cachedExtractionPath.None? then ExtractionFailed
    else if UsesCache(s, cached) then Extracted(cached.value)
    else if s.extractionFilePaths.None? then ExtractionFailed
    else match extract(s.extractionFilePaths.value)
      case Success(data) => Extracted(data)
      case Failure(_) => ExtractionFailed
  }

  /** On a cache hit the extraction service is not consulted: any two
      services give the same update. */
  lemma CacheSkipsExtraction(s: State, cached: Option<Fields>,
                             e1: map<string, string> -> Result<Fields>, e2: map<string, string> -> Result<Fields>)
    requires UsesCache(s, cached)
    ensures ExtractorNode(s, cached, e1) == ExtractorNode(s, cached, e2)
    ensures ExtractorNode(s, cached, e1).update.extractedData == cached
  {
  }

  /** Every outcome appends exactly one message named `extractor` and touches
      no key but `extracted_data`. */
  lemma ExtractorSaysOnce(s: State, cached: Option<Fields>, extract: map<string, string> -> Result<Fields>)
    ensures var c := ExtractorNode(s, cached, extract);
            c.update.(extractedData := None) == Say("extractor", c.update.messages[0].content) &&
            c.update.messages[0].content in {Completed, ComponentFailed} &&
            c.goto in {"validator", "supervisor"}
  {
  }
}
