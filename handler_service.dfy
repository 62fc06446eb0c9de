/**
 * The error-dispatch rule of `ErrorHandlerService`
 * (workspace/libs/shared/error-handler/src/lib/error-handler.service.ts).
 *
 * The decisions the service makes are pure functions of the configuration and
 * the error, returning the events the service emits; the class below performs
 * them step by step on its trace, and its contracts tie each call to those
 * functions.
 */
module HandlerService {
  import opened Wrappers
  import opened Config
  import opened Sinks

  const InitMessage := "ErrorHandlerService initialized with config:"
  const HttpTag := "HTTP Error: "
  const ClientTag := "Client Error: "
  const ExternalLogPrefix := "Logging to external service: "
  const MissingConfigWarning := "External logging config is missing."

  /** The two kinds of error the service tells apart. */
  datatype ErrorKind = HttpError | ClientError

  /** The `instanceof HttpErrorResponse` test. */
  function Classify(e: Err): ErrorKind {
    if e.Http? then HttpError else ClientError
  }

  function Tag(k: ErrorKind): string {
    match k
    case HttpError => HttpTag
    case ClientError => ClientTag
  }

  /** What the constructor emits. */
  function InitEvents(cfg: ErrorHandlingConfig): seq<Event> {
    [ConsoleInfo(InitMessage, cfg)]
  }

  /** The delegation to the framework's default handler, when enabled. */
  function DefaultEvents(cfg: ErrorHandlingConfig, e: Err): seq<Event> {
    if cfg.includeDefaultErrorHandling then [DefaultHandled(e)] else []
  }

  /** The local diagnostic record, tagged by the error's kind. */
  function LocalRecord(e: Err): Event {
    ConsoleError(Tag(Classify(e)) + e.message, e)
  }

  /** What `logToExternalService` emits for the given external settings. */
  function ExternalEvents(ext: Option<ExternalLoggingConfig>, e: Err): seq<Event> {
    match ext
    case None => [ConsoleWarn(MissingConfigWarning)]
    case Some(x) => [ConsoleLog(ExternalLogPrefix + x.endpoint, ExternalLogPayload(x.apiKey, e))]
  }

  /** What `handleError` emits: `logToExternalService` is reached only when the settings are present. */
  function HandleEvents(cfg: ErrorHandlingConfig, e: Err): seq<Event> {
    DefaultEvents(cfg, e)
    + [LocalRecord(e)]
    + (if cfg.externalLoggingConfig.Some? then ExternalEvents(cfg.externalLoggingConfig, e) else [])
  }

  /** The events of handling the errors `es` one call after another. */
  function HandleAll(cfg: ErrorHandlingConfig, es: seq<Err>): seq<Event> {
    if es == [] then [] else HandleAll(cfg, es[..|es| - 1]) + HandleEvents(cfg, es[|es| - 1])
  }

  class ErrorHandlerService {
    /** The injected configuration; no method of the service assigns it. */
    var config: ErrorHandlingConfig
    /** Everything this service has sent to the default handler and the console so far. */
    var trace: seq<Event>

    constructor (config: ErrorHandlingConfig)
      ensures this.config == config
      ensures trace == InitEvents(config)
    {
      this.config := config;
      trace := [ConsoleInfo(InitMessage, config)];
    }

    method HandleError(error: Err)
      modifies this`trace
      ensures config == old(config)
      ensures trace == old(trace) + HandleEvents(config, error)
    {
      ghost var before := trace;
      if config.includeDefaultErrorHandling {
        trace := trace + [DefaultHandled(error)];
      }
      if Classify(error) == HttpError {
        trace := trace + [ConsoleError(HttpTag + error.message, error)];
      } else {
        trace := trace + [ConsoleError(ClientTag + error.message, error)];
      }
      assert trace == before + DefaultEvents(config, error) + [LocalRecord(error)];
      if config.externalLoggingConfig.Some? {
        LogToExternalService(error);
      }
    }

    method LogToExternalService(error: Err)
      modifies this`trace
      ensures config == old(config)
      ensures trace == old(trace) + ExternalEvents(config.externalLoggingConfig, error)
    {
      var externalConfig := config.externalLoggingConfig;
      if externalConfig.None? {
        trace := trace + [ConsoleWarn(MissingConfigWarning)];
        return;
      }
      var apiKey, endpoint := externalConfig.value.apiKey, externalConfig.value.endpoint;
      trace := trace + [ConsoleLog(ExternalLogPrefix + endpoint, ExternalLogPayload(apiKey, error))];
    }
  }
}
