/**
 * What one call of `handleError` (and of `logToExternalService`) emits, sink by
 * sink, and what a sequence of calls emits.
 */
module HandlerProperties {
  import opened Wrappers
  import opened Config
  import opened Sinks
  import opened HandlerService

  /** Splits the events of one `handleError` call into its three steps, sink by sink. */
  lemma OnlyHandleEvents(cfg: ErrorHandlingConfig, e: Err, s: Sink)
    ensures Only(HandleEvents(cfg, e), s)
         == Only(DefaultEvents(cfg, e), s) + Only([LocalRecord(e)], s)
            + Only(if cfg.externalLoggingConfig.Some? then ExternalEvents(cfg.externalLoggingConfig, e) else [], s)
  {
  }

  /**
   * Every call emits exactly one `console.error` record: its text is the kind's
   * tag followed by the message, the error itself is attached, and neither
   * depends on the configuration.
   */
  lemma HandleErrorLocalRecord(cfg: ErrorHandlingConfig, e: Err)
    ensures Only(HandleEvents(cfg, e), ErrorSink)
         == [ConsoleError((if e.Http? then "HTTP Error: " else "Client Error: ") + e.message, e)]
  {
    OnlyHandleEvents(cfg, e, ErrorSink);
    OnlySingle(LocalRecord(e), ErrorSink);
    if cfg.includeDefaultErrorHandling { OnlySingle(DefaultHandled(e), ErrorSink); }
    if cfg.externalLoggingConfig.Some? { OnlySingle(ExternalEvents(cfg.externalLoggingConfig, e)[0], ErrorSink); }
  }

  /** The default handler gets the unmodified error exactly once when enabled, and never otherwise. */
  lemma HandleErrorDefaultHandling(cfg: ErrorHandlingConfig, e: Err)
    ensures Only(HandleEvents(cfg, e), DefaultSink)
         == if cfg.includeDefaultErrorHandling then [DefaultHandled(e)] else []
  {
    OnlyHandleEvents(cfg, e, DefaultSink);
    OnlySingle(LocalRecord(e), DefaultSink);
    if cfg.includeDefaultErrorHandling { OnlySingle(DefaultHandled(e), DefaultSink); }
    if cfg.externalLoggingConfig.Some? { OnlySingle(ExternalEvents(cfg.externalLoggingConfig, e)[0], DefaultSink); }
  }

  /**
   * Exactly one external record when the external settings are present, carrying
   * their endpoint in its text and their API key with the error as payload;
   * none when they are absent.
   */
  lemma HandleErrorExternalLogging(cfg: ErrorHandlingConfig, e: Err)
    ensures Only(HandleEvents(cfg, e), LogSink)
         == match cfg.externalLoggingConfig
            case None => []
            case Some(x) => [ConsoleLog("Logging to external service: " + x.endpoint, ExternalLogPayload(x.apiKey, e))]
  {
    OnlyHandleEvents(cfg, e, LogSink);
    OnlySingle(LocalRecord(e), LogSink);
    if cfg.includeDefaultErrorHandling { OnlySingle(DefaultHandled(e), LogSink); }
    if cfg.externalLoggingConfig.Some? { OnlySingle(ExternalEvents(cfg.externalLoggingConfig, e)[0], LogSink); }
  }

  /**
   * `handleError` never warns, whatever the configuration (the warning branch of
   * `logToExternalService` is unreachable from it), and emits no `console.info`.
   */
  lemma HandleErrorNoWarning(cfg: ErrorHandlingConfig, e: Err)
    ensures Only(HandleEvents(cfg, e), WarnSink) == []
    ensures Only(HandleEvents(cfg, e), InfoSink) == []
  {
    OnlyHandleEvents(cfg, e, WarnSink);
    OnlyHandleEvents(cfg, e, InfoSink);
    OnlySingle(LocalRecord(e), WarnSink);
    OnlySingle(LocalRecord(e), InfoSink);
    if cfg.includeDefaultErrorHandling {
      OnlySingle(DefaultHandled(e), WarnSink);
      OnlySingle(DefaultHandled(e), InfoSink);
    }
    if cfg.externalLoggingConfig.Some? {
      OnlySingle(ExternalEvents(cfg.externalLoggingConfig, e)[0], WarnSink);
      OnlySingle(ExternalEvents(cfg.externalLoggingConfig, e)[0], InfoSink);
    }
  }

  /**
   * The call emits nothing but default-handler, `console.error` and external
   * `console.log` events, and in that order.
   */
  lemma HandleErrorOrder(cfg: ErrorHandlingConfig, e: Err)
    ensures HandleEvents(cfg, e)
         == Only(HandleEvents(cfg, e), DefaultSink)
            + Only(HandleEvents(cfg, e), ErrorSink)
            + Only(HandleEvents(cfg, e), LogSink)
  {
    HandleErrorDefaultHandling(cfg, e);
    HandleErrorLocalRecord(cfg, e);
    HandleErrorExternalLogging(cfg, e);
  }

  /**
   * Called on its own, `logToExternalService` emits exactly one event: the
   * warning when the settings are absent, the external record when present.
   */
  lemma LogToExternalServiceOutcome(ext: Option<ExternalLoggingConfig>, e: Err)
    ensures |ExternalEvents(ext, e)| == 1
    ensures Only(ExternalEvents(ext, e), WarnSink) == ExternalEvents(ext, e) <==> ext.None?
    ensures Only(ExternalEvents(ext, e), LogSink) == ExternalEvents(ext, e) <==> ext.Some?
    ensures ext.None? ==> ExternalEvents(ext, e) == [ConsoleWarn("External logging config is missing.")]
  {
  }

  /** The events of the last of a sequence of calls come after those of the earlier ones, sink by sink. */
  lemma OnlyHandleAllLast(cfg: ErrorHandlingConfig, es: seq<Err>, s: Sink)
    requires es != []
    ensures Only(HandleAll(cfg, es), s)
         == Only(HandleAll(cfg, es[..|es| - 1]), s) + Only(HandleEvents(cfg, es[|es| - 1]), s)
  {
    OnlyAppend(HandleAll(cfg, es[..|es| - 1]), HandleEvents(cfg, es[|es| - 1]), s);
  }

  /**
   * Over any sequence of calls, the `console.error` records are one per error,
   * in call order, each tagged by its error's kind.
   */
  lemma {:induction false} HandleAllLocalRecords(cfg: ErrorHandlingConfig, es: seq<Err>)
    ensures |Only(HandleAll(cfg, es), ErrorSink)| == |es|
    ensures forall i :: 0 <= i < |es| ==>
              Only(HandleAll(cfg, es), ErrorSink)[i]
              == ConsoleError((if es[i].Http? then "HTTP Error: " else "Client Error: ") + es[i].message, es[i])
  {
    if es != [] {
      var n := |es| - 1;
      var front := Only(HandleAll(cfg, es[..n]), ErrorSink);
      var all := Only(HandleAll(cfg, es), ErrorSink);
      HandleAllLocalRecords(cfg, es[..n]);
      OnlyHandleAllLast(cfg, es, ErrorSink);
      HandleErrorLocalRecord(cfg, es[n]);
      assert all == front + [LocalRecord(es[n])];
      forall i | 0 <= i < |es|
        ensures all[i] == ConsoleError((if es[i].Http? then "HTTP Error: " else "Client Error: ") + es[i].message, es[i])
      {
        if i < n {
          assert all[i] == front[i];
          assert es[..n][i] == es[i];
        }
      }
    }
  }

  /**
   * Over any sequence of calls: one default-handler call per error exactly when
   * enabled, one external record per error exactly when configured, and never
   * a warning.
   */
  lemma {:induction false} HandleAllSinkCounts(cfg: ErrorHandlingConfig, es: seq<Err>)
    ensures |Only(HandleAll(cfg, es), DefaultSink)| == if cfg.includeDefaultErrorHandling then |es| else 0
    ensures |Only(HandleAll(cfg, es), LogSink)| == if cfg.externalLoggingConfig.Some? then |es| else 0
    ensures Only(HandleAll(cfg, es), WarnSink) == []
  {
    if es != [] {
      var n := |es| - 1;
      HandleAllSinkCounts(cfg, es[..n]);
      OnlyHandleAllLast(cfg, es, DefaultSink);
      OnlyHandleAllLast(cfg, es, LogSink);
      OnlyHandleAllLast(cfg, es, WarnSink);
      HandleErrorDefaultHandling(cfg, es[n]);
      HandleErrorExternalLogging(cfg, es[n]);
      HandleErrorNoWarning(cfg, es[n]);
    }
  }
}
