/**
 * The per-configuration settings record and the limit policy derived from it
 * (`AIServiceSettings`, `parseAIServiceSettings` and `concurrencyLimit`).
 */
module Settings {
  import opened Wrappers

  /**
   * The two optional settings fields. `None` is a nil pointer, so "unset" stays
   * distinct from an explicit `false` or `0`.
   */
  datatype AIServiceSettings = AIServiceSettings(
    concurrencyEnabled: Option<bool>,
    maxConcurrency: Option<int>)

  /** The zero value of the record: both fields unset. */
  const Unset := AIServiceSettings(None, None)

  /**
   * Parsing a raw settings blob. The empty blob is the unset record and never reaches
   * the decoder; any other blob is handed to the JSON decoder, which is a parameter
   * here, and its result (or error) is returned as it is.
   */
  function ParseAIServiceSettings(
    raw: string,
    decodeJson: string -> Result<AIServiceSettings, Error>): (r: Result<AIServiceSettings, Error>)
    ensures raw == [] ==> r == Success(Unset)
    ensures raw != [] ==> r == decodeJson(raw)
  {
    if raw == [] then Success(Unset) else decodeJson(raw)
  }

  /**
   * The concurrency limit a settings record asks for: 0 means "no gate", a positive
   * number is the most calls allowed in flight at once.
   */
  function ConcurrencyLimit(s: AIServiceSettings): (limit: nat)
    // a limit of exactly 1 (fully serialised) comes from an explicit disable or a max of 1
    ensures limit == 1 <==>
      s.concurrencyEnabled == Some(false) ||
      (s.concurrencyEnabled == None && s.maxConcurrency == Some(1))
    // no gate comes from an explicit enable, a non-positive max, or nothing at all
    ensures limit == 0 <==>
      s.concurrencyEnabled == Some(true) ||
      (s.concurrencyEnabled == None && (s.maxConcurrency == None || s.maxConcurrency.value <= 0))
    // any limit above 1 is exactly the configured max, and only when no flag is set
    ensures limit > 1 ==> s.concurrencyEnabled == None && s.maxConcurrency == Some(limit)
  {
    match (s.concurrencyEnabled, s.maxConcurrency)
    case (Some(enabled), _) => if !enabled then 1 else 0
    case (None, Some(max)) => if max <= 0 then 0 else max
    case (None, None) => 0
  }

  /** An explicit `false` serialises the calls, whatever the max says. */
  lemma DisabledSerialises(s: AIServiceSettings)
    requires s.concurrencyEnabled == Some(false)
    ensures ConcurrencyLimit(s) == 1
  {
  }

  /** An explicit `true` removes the gate, whatever the max says. */
  lemma EnabledIsUnbounded(s: AIServiceSettings)
    requires s.concurrencyEnabled == Some(true)
    ensures ConcurrencyLimit(s) == 0
  {
  }

  /** Without a flag, a positive max is the limit and a non-positive one gives no gate. */
  lemma MaxUsedWithoutFlag(s: AIServiceSettings)
    requires s.concurrencyEnabled == None && s.maxConcurrency.Some?
    ensures s.maxConcurrency.value > 0 ==> ConcurrencyLimit(s) == s.maxConcurrency.value
    ensures s.maxConcurrency.value <= 0 ==> ConcurrencyLimit(s) == 0
  {
  }

  /** The flag is a tie-break that beats the max: changing the max never changes the limit. */
  lemma FlagOverridesMax(s: AIServiceSettings, max: Option<int>)
    requires s.concurrencyEnabled.Some?
    ensures ConcurrencyLimit(s.(maxConcurrency := max)) == ConcurrencyLimit(s)
  {
  }

  /** The empty blob parses without error to the unset record, whose limit is 0. */
  lemma EmptyBlobIsUnbounded(decodeJson: string -> Result<AIServiceSettings, Error>)
    ensures ParseAIServiceSettings([], decodeJson) == Success(Unset)
    ensures ConcurrencyLimit(ParseAIServiceSettings([], decodeJson).value) == 0
  {
  }
}
