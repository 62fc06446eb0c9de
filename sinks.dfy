/**
 * The observable effects of the error handler. Every call the service makes to
 * the framework's default handler or to the console is one `Event`, and a run
 * of the service is a trace of events in the order they were made.
 */
module Sinks {
  import opened Config

  /** The error value the handler receives: an `HttpErrorResponse` or any other `Error`. */
  datatype Err =
    | Http(status: int, message: string)
    | Client(message: string)

  /** The object `{apiKey, error}` passed as the second argument of the external `console.log`. */
  datatype ExternalLogPayload = ExternalLogPayload(apiKey: string, error: Err)

  datatype Event =
      /** `super.handleError(error)`: the framework's default handler. */
    | DefaultHandled(error: Err)
      /** `console.error(text, error)` */
    | ConsoleError(text: string, error: Err)
      /** `console.log(text, {apiKey, error})` */
    | ConsoleLog(text: string, payload: ExternalLogPayload)
      /** `console.warn(text)` */
    | ConsoleWarn(text: string)
      /** `console.info(text, config)` */
    | ConsoleInfo(text: string, config: ErrorHandlingConfig)

  /** The destination an event goes to. */
  datatype Sink = DefaultSink | ErrorSink | LogSink | WarnSink | InfoSink

  function SinkOf(ev: Event): Sink {
    match ev
    case DefaultHandled(_) => DefaultSink
    case ConsoleError(_, _) => ErrorSink
    case ConsoleLog(_, _) => LogSink
    case ConsoleWarn(_) => WarnSink
    case ConsoleInfo(_, _) => InfoSink
  }

  /** The events of `t` that went to sink `s`, in their original order. */
  function Only(t: seq<Event>, s: Sink): (r: seq<Event>)
    ensures |r| <= |t|
    ensures forall i :: 0 <= i < |r| ==> SinkOf(r[i]) == s
  {
    if t == [] then []
    else if SinkOf(t[0]) == s then [t[0]] + Only(t[1..], s)
    else Only(t[1..], s)
  }

  /** Filtering a trace by sink distributes over concatenation of traces. */
  lemma {:induction false} OnlyAppend(a: seq<Event>, b: seq<Event>, s: Sink)
    ensures Only(a + b, s) == Only(a, s) + Only(b, s)
  {
    if a == [] {
      assert a + b == b;
    } else {
      assert (a + b)[0] == a[0];
      assert (a + b)[1..] == a[1..] + b;
      OnlyAppend(a[1..], b, s);
    }
  }

  /** A trace made of one event keeps that event exactly for its own sink. */
  lemma OnlySingle(ev: Event, s: Sink)
    ensures Only([ev], s) == if SinkOf(ev) == s then [ev] else []
  {
  }
}
