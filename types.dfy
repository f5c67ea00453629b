/** The configuration and the worker messages of the vanity-address generator
    (the interfaces `VanityConfig` and `WorkerMessage`), with the JavaScript
    truthiness tests the rest of the program applies to their optional fields. */
module Types {

  datatype Option<+T> = None | Some(value: T) {
    /** `x || default` for a field whose present values are all truthy. */
    function GetOr(default: T): T {
      if Some? then value else default
    }
  }

  /** A JavaScript number as the program produces it: `parseInt` gives either
      an integer or NaN. */
  datatype NumberValue = NaN | IntValue(n: int)

  /** `VanityConfig`: every field is optional. */
  datatype VanityConfig = VanityConfig(
    prefix: Option<string>,
    suffix: Option<string>,
    contains: Option<string>,
    caseSensitive: Option<bool>,
    maxAttempts: Option<NumberValue>)

  /** The object literal `{}`. */
  const EmptyConfig: VanityConfig := VanityConfig(None, None, None, None, None)

  /** Truthiness of an optional string: present and not the empty string. */
  predicate TextSet(s: Option<string>) {
    s.Some? && s.value != ""
  }

  /** Truthiness of an optional number: present, not NaN and not zero. */
  predicate NumberSet(n: Option<NumberValue>) {
    n.Some? && n.value.IntValue? && n.value.n != 0
  }

  /** `config.caseSensitive` used as a condition. */
  predicate IsCaseSensitive(cfg: VanityConfig) {
    cfg.caseSensitive == Some(true)
  }

  /** `config.prefix || config.suffix || config.contains`: the test both the
      command line and the coordinator apply before a search starts. */
  predicate HasPattern(cfg: VanityConfig) {
    TextSet(cfg.prefix) || TextSet(cfg.suffix) || TextSet(cfg.contains)
  }

  /** The `result` payload: the matching address, its secret key rendered as
      text, and the attempt count of the run that found it. */
  datatype FoundAddress = FoundAddress(publicKey: string, privateKey: string, attempts: int)

  datatype MessageType = Start | Stop | Result | Progress

  /** `WorkerMessage`: a tag and three optional payloads. */
  datatype WorkerMessage = WorkerMessage(
    kind: MessageType,
    config: Option<VanityConfig>,
    result: Option<FoundAddress>,
    attempts: Option<int>)

  function StartMessage(cfg: VanityConfig): WorkerMessage {
    WorkerMessage(Start, Some(cfg), None, None)
  }

  const StopMessage: WorkerMessage := WorkerMessage(Stop, None, None, None)

  function ProgressMessage(attempts: int): WorkerMessage {
    WorkerMessage(Progress, None, None, Some(attempts))
  }

  function ResultMessage(found: FoundAddress): WorkerMessage {
    WorkerMessage(Result, None, Some(found), None)
  }
}
