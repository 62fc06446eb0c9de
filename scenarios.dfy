/**
 * The observable behaviour pinned down by the service's unit tests
 * (workspace/libs/shared/error-handler/src/lib/error-handler.service.spec.ts),
 * stated as the whole trace of a freshly constructed service after one call.
 * The tests' error messages are generalised to any message.
 */
module HandlerScenarios {
  import opened Wrappers
  import opened Config
  import opened Sinks
  import opened HandlerService

  const TestApiKey := "test-api-key"
  const TestEndpoint := "https://logging.example.com/api"

  /** The configuration every test starts from. */
  const TestConfig := ErrorHandlingConfig("TestApp", true, Some(ExternalLoggingConfig(TestApiKey, TestEndpoint)))

  /** A client error with default handling and external logging both enabled. */
  method ClientErrorScenario(message: string) returns (trace: seq<Event>)
    ensures trace == [
      ConsoleInfo("ErrorHandlerService initialized with config:", TestConfig),
      DefaultHandled(Client(message)),
      ConsoleError("Client Error: " + message, Client(message)),
      ConsoleLog("Logging to external service: " + TestEndpoint, ExternalLogPayload(TestApiKey, Client(message)))
    ]
  {
    var service := new ErrorHandlerService(TestConfig);
    service.HandleError(Client(message));
    trace := service.trace;
  }

  /** An `HttpErrorResponse` with status 404; its message is built by the framework. */
  method HttpErrorScenario(message: string) returns (trace: seq<Event>)
    ensures trace == [
      ConsoleInfo("ErrorHandlerService initialized with config:", TestConfig),
      DefaultHandled(Http(404, message)),
      ConsoleError("HTTP Error: " + message, Http(404, message)),
      ConsoleLog("Logging to external service: " + TestEndpoint, ExternalLogPayload(TestApiKey, Http(404, message)))
    ]
  {
    var service := new ErrorHandlerService(TestConfig);
    service.HandleError(Http(404, message));
    trace := service.trace;
  }

  /** Without external settings: no external record and no warning, the local record still appears. */
  method NoExternalLoggingScenario(message: string) returns (trace: seq<Event>)
    ensures trace == [
      ConsoleInfo("ErrorHandlerService initialized with config:", ErrorHandlingConfig("TestApp", true, None)),
      DefaultHandled(Client(message)),
      ConsoleError("Client Error: " + message, Client(message))
    ]
  {
    var service := new ErrorHandlerService(ErrorHandlingConfig("TestApp", true, None));
    service.HandleError(Client(message));
    trace := service.trace;
  }

  /** With default handling switched off the framework's handler is never called. */
  method NoDefaultHandlingScenario(message: string) returns (trace: seq<Event>)
    ensures trace == [
      ConsoleInfo("ErrorHandlerService initialized with config:", ErrorHandlingConfig("TestApp", false, None)),
      ConsoleError("Client Error: " + message, Client(message))
    ]
  {
    var service := new ErrorHandlerService(ErrorHandlingConfig("TestApp", false, None));
    service.HandleError(Client(message));
    trace := service.trace;
  }

  /**
   * Two successive calls on one service: the trace is the constructor's record
   * followed by the events of each call in turn, for any configuration.
   */
  method SuccessiveCallsScenario(cfg: ErrorHandlingConfig, a: Err, b: Err) returns (trace: seq<Event>)
    ensures trace == InitEvents(cfg) + HandleAll(cfg, [a, b])
  {
    var service := new ErrorHandlerService(cfg);
    service.HandleError(a);
    service.HandleError(b);
    trace := service.trace;
    assert [a, b][..1] == [a] && [a][..0] == [];
    assert HandleAll(cfg, [a]) == HandleEvents(cfg, a);
    assert HandleAll(cfg, [a, b]) == HandleEvents(cfg, a) + HandleEvents(cfg, b);
  }
}
