# Error-dispatch rule of `ErrorHandlerService`, modelled in Dafny

The shared error-handler library of the workspace replaces Angular's global
`ErrorHandler` with `ErrorHandlerService`. For every uncaught error the service:

1. calls the framework's default handler with the unmodified error when the
   configuration's `includeDefaultErrorHandling` is set;
2. writes one `console.error` record of its own, `"HTTP Error: "` or `"Client Error: "`
   followed by the message, with the error attached. The tag depends on
   whether the error is an `HttpErrorResponse`;
3. when `externalLoggingConfig` is present, writes one `console.log` record,
   `"Logging to external service: " + endpoint`, with payload `{apiKey, error}`.

The constructor only logs the configuration with `console.info`.

This project models that rule and proves which events it emits, how many,
with what content, and in what order.

- `config.dfy` (module `Config`) holds the configuration record. The optional
  `externalLoggingConfig` property is an `Option`.
- `sinks.dfy` (module `Sinks`) defines the error value
  `Err = Http(status, message) | Client(message)`.
  - Each call the service makes to the default handler or to the console is one
    `Event`, and a run of the service is a trace of events.
  - `Only(t, s)` keeps the events of a trace that went to sink `s`.
- `handler_service.dfy` (module `HandlerService`) has three parts.
  - The pure decisions: `Classify`, `DefaultEvents`, `LocalRecord`,
    `ExternalEvents` and `HandleEvents`.
  - `HandleAll`, the events of a sequence of calls.
  - The class `ErrorHandlerService`. Its methods append to a `trace` field and
    only have `trace` in their frame, so no method of the service changes
    `config`.
- `handler_properties.dfy` (module `HandlerProperties`) proves the properties
  of one call and of a sequence of calls.
- `scenarios.dfy` (module `HandlerScenarios`) restates the unit tests'
  expectations as whole traces of a fresh service.

The constructor (error-handler.service.ts:10-15) validates nothing, so the
model's constructor has no precondition and cannot fail. `applicationName` is
carried but never read.

## Model

| member | source | states |
|---|---|---|
| `HandlerService.ErrorHandlerService.constructor` | workspace/libs/shared/error-handler/src/lib/error-handler.service.ts:10-15 | construction stores the configuration as given, never fails, and emits exactly one `console.info` record carrying the configuration |
| `HandlerService.ErrorHandlerService.HandleError` | workspace/libs/shared/error-handler/src/lib/error-handler.service.ts:17-31 | one call appends exactly the events of `HandleEvents(config, error)` to the trace and leaves `config` unchanged |
| `HandlerService.ErrorHandlerService.LogToExternalService` | workspace/libs/shared/error-handler/src/lib/error-handler.service.ts:33-44 | appends the warning when the external settings are absent, and otherwise the external record built from them; `config` is unchanged |
| `HandlerProperties.HandleErrorLocalRecord` | workspace/libs/shared/error-handler/src/lib/error-handler.service.ts:22-26 | every call emits exactly one `console.error` record of the service's own, tagged `"HTTP Error: "` when the error is an `HttpErrorResponse` and `"Client Error: "` otherwise, followed by the message, with the original error attached, whatever the configuration |
| `HandlerProperties.HandleErrorDefaultHandling` | workspace/libs/shared/error-handler/src/lib/error-handler.service.ts:18-20 | the default handler is called exactly once with the unmodified error when `includeDefaultErrorHandling` is true, and never when it is false |
| `HandlerProperties.HandleErrorExternalLogging` | workspace/libs/shared/error-handler/src/lib/error-handler.service.ts:28-43 | with external settings present, exactly one external record: text `"Logging to external service: " + endpoint`, payload the settings' `apiKey` with the error; with them absent, none |
| `HandlerProperties.HandleErrorNoWarning` | workspace/libs/shared/error-handler/src/lib/error-handler.service.ts:28-38 | `handleError` never emits the missing-config warning, because the guard skips `logToExternalService` when the settings are absent; nor does it emit `console.info` |
| `HandlerProperties.HandleErrorOrder` | workspace/libs/shared/error-handler/src/lib/error-handler.service.ts:17-31 | a call emits only default-handler, `console.error` and external-log events, in that order: default handling first, then the local record, then the external record |
| `HandlerProperties.LogToExternalServiceOutcome` | workspace/libs/shared/error-handler/src/lib/error-handler.service.ts:33-44 | on its own, `logToExternalService` emits exactly one event: the warning `"External logging config is missing."` if and only if the settings are absent, the external record if and only if they are present |
| `HandlerProperties.HandleAllLocalRecords` | workspace/libs/shared/error-handler/src/lib/error-handler.service.ts:22-26 | over any sequence of calls, the service's own `console.error` records are one per error, in call order, each tagged by that error's kind |
| `HandlerProperties.HandleAllSinkCounts` | workspace/libs/shared/error-handler/src/lib/error-handler.service.ts:17-31 | over any sequence of calls: one default-handler call per error exactly when enabled, one external record per error exactly when configured, and no warning |
| `HandlerScenarios.SuccessiveCallsScenario` | workspace/libs/shared/error-handler/src/lib/error-handler.service.ts:10-31 | for any configuration, a new service handling `a` then `b` has as trace its `console.info` record followed by the events of `HandleAll(config, [a, b])`: the second call's events do not depend on the first |
| `HandlerScenarios.ClientErrorScenario` | workspace/libs/shared/error-handler/src/lib/error-handler.service.spec.ts:58-92 | with the test configuration, a client error yields the info record, then the default-handler call, `"Client Error: " + message`, and the external record to the test endpoint with the test key |
| `HandlerScenarios.HttpErrorScenario` | workspace/libs/shared/error-handler/src/lib/error-handler.service.spec.ts:68-79 | an HTTP 404 error is recorded as `"HTTP Error: " + message` with the error attached, between the default-handler call and the external record |
| `HandlerScenarios.NoExternalLoggingScenario` | workspace/libs/shared/error-handler/src/lib/error-handler.service.spec.ts:94-115 | without external settings the trace has no external record and no warning, and the local record is still emitted |
| `HandlerScenarios.NoDefaultHandlingScenario` | workspace/libs/shared/error-handler/src/lib/error-handler.service.spec.ts:127-137 | with `includeDefaultErrorHandling` false the default handler is never called |

## Left out

- The framework's own `ErrorHandler.handleError` is foreign code. It is the abstract event `DefaultHandled(error)`. Whatever that handler writes to the console itself (Angular's logs the error with `console.error`) is part of `DefaultHandled(error)` and is not counted among the `ConsoleError` events. An exception it throws would propagate to the caller and stop the rest of `handleError`, and that path is not modelled.
- How Angular builds `HttpErrorResponse.message` from status and URL is not modelled. The message is an opaque string, and the status is carried but not read.
- The console is global in the source and shared by every service instance. The model gives each service its own trace of what that service emitted. Real output and formatting are not modelled.
- The configuration object is shared by reference in the source: the host keeps it, and `handleError` re-reads `this.config` on every call. The model holds the configuration as a value, so a change that another holder makes to that object between calls is not modelled.
- The external log is only a `console.log` line in the source. No network send exists, so none is modelled.
- The configuration test `if (this.config.externalLoggingConfig)` is JavaScript truthiness on an object-typed property. It is modelled as presence (`Some`), since no object value is falsy.
- A value thrown that is not an `Error` (and so may lack `message`) is outside the declared parameter type `Error | HttpErrorResponse`, and is not modelled.
- Dependency-injection wiring (the injection token, `main.ts`, `app.config.ts`) is framework registration with no logic. It is not part of this model, and neither is the unrelated value that `main.ts` supplies for the configuration.
- Routing, UI modules and the documentation-site configuration are declarative and are not part of this model.
