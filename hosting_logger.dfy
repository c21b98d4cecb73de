/** The startup-error logging helpers of the hosting layer, and the logger
    they (and the web host service) write to.

    A logger is modelled as the list of entries written to it, in order.
    For a `ReflectionTypeLoadException` the message is flattened: each loader
    exception's message is appended on a new line, so that one critical
    entry carries every reason a type failed to load. */
module HostingLogger {
  import Strings
  import opened Wrappers

  datatype LogLevel = Information | Critical

  /** An exception as far as logging sees it: its message and, for a
      `ReflectionTypeLoadException`, the exceptions of the loader. */
  datatype Exception =
    | Exception(message: string)
    | ReflectionTypeLoadException(message: string, loaderExceptions: seq<Exception>)

  datatype LogEntry = LogEntry(level: LogLevel, eventId: int, message: string, exception: Option<Exception>)

  /** `Environment.NewLine` on the platforms this model assumes. */
  const NewLine: string := "\n"

  const HostingStartupAssemblyMessage: string := "Hosting startup assembly exception"
  const ApplicationStartupMessage: string := "Application startup exception"

  /** The messages of a list of exceptions, in order. */
  function Messages(exs: seq<Exception>): (r: seq<string>)
    ensures |r| == |exs|
    ensures forall i :: 0 <= i < |exs| ==> r[i] == exs[i].message
  {
    if exs == [] then [] else [exs[0].message] + Messages(exs[1..])
  }

  /** `message` followed by a new line and the message of each loader
      exception, in order. */
  function AppendLoaderMessages(message: string, loaders: seq<Exception>): (r: string)
    ensures message <= r
    ensures |r| >= |message| + |loaders|
    decreases |loaders|
  {
    if loaders == [] then message
    else AppendLoaderMessages(message + NewLine + loaders[0].message, loaders[1..])
  }

  /** The message `ApplicationError` logs for `exception`. */
  function FlattenedMessage(message: string, exception: Exception): (r: string)
    ensures message <= r
    ensures exception.Exception? ==> r == message
    ensures exception.ReflectionTypeLoadException? ==> |r| >= |message| + |exception.loaderExceptions|
  {
    match exception
    case Exception(_) => message
    case ReflectionTypeLoadException(_, loaders) => AppendLoaderMessages(message, loaders)
  }

  /** A logger that keeps the entries written to it. */
  class Logger {
    var entries: seq<LogEntry>

    constructor ()
      ensures entries == []
    {
      entries := [];
    }

    method Log(level: LogLevel, eventId: int, message: string, exception: Option<Exception>)
      modifies this
      ensures entries == old(entries) + [LogEntry(level, eventId, message, exception)]
    {
      entries := entries + [LogEntry(level, eventId, message, exception)];
    }
  }

  /** `ApplicationError(logger, eventId, message, exception)`: one critical
      entry carrying the event id, the exception and the flattened message. */
  method ApplicationError(logger: Logger, eventId: int, message: string, exception: Exception)
    modifies logger
    ensures logger.entries == old(logger.entries) + [LogEntry(Critical, eventId, FlattenedMessage(message, exception), Some(exception))]
  {
    var text := message;
    if exception.ReflectionTypeLoadException? {
      var loaders := exception.loaderExceptions;
      var i := 0;
      while i < |loaders|
        invariant 0 <= i <= |loaders|
        invariant AppendLoaderMessages(text, loaders[i..]) == AppendLoaderMessages(message, loaders)
      {
        assert loaders[i..][1..] == loaders[i + 1..];
        text := text + NewLine + loaders[i].message;
        i := i + 1;
      }
    }
    logger.Log(Critical, eventId, text, Some(exception));
  }

  /** `HostingStartupAssemblyError(logger, exception)`: event 0 with the
      fixed hosting-startup message. */
  method HostingStartupAssemblyError(logger: Logger, exception: Exception)
    modifies logger
    ensures logger.entries == old(logger.entries) + [LogEntry(Critical, 0, FlattenedMessage(HostingStartupAssemblyMessage, exception), Some(exception))]
  {
    ApplicationError(logger, 0, HostingStartupAssemblyMessage, exception);
  }

  /** `ApplicationError(logger, exception)`: event 0 with the fixed
      application-startup message. */
  method ApplicationStartupError(logger: Logger, exception: Exception)
    modifies logger
    ensures logger.entries == old(logger.entries) + [LogEntry(Critical, 0, FlattenedMessage(ApplicationStartupMessage, exception), Some(exception))]
  {
    ApplicationError(logger, 0, ApplicationStartupMessage, exception);
  }

  /** Appending loader messages is the original message, a new line and
      the loader messages joined by new lines. */
  lemma {:induction false} AppendLoaderMessagesJoin(message: string, loaders: seq<Exception>)
    ensures AppendLoaderMessages(message, loaders) == Strings.Join([message] + Messages(loaders), '\n')
    decreases |loaders|
  {
    if loaders != [] {
      var rest := Messages(loaders[1..]);
      assert Messages(loaders) == [loaders[0].message] + rest;
      AppendLoaderMessagesJoin(message + NewLine + loaders[0].message, loaders[1..]);
      JoinFirstTwo(message, loaders[0].message, rest);
    }
  }

  lemma {:induction false} JoinFirstTwo(a: string, b: string, rest: seq<string>)
    ensures Strings.Join([a + NewLine + b] + rest, '\n') == Strings.Join([a] + ([b] + rest), '\n')
  {
    var xs := [a] + ([b] + rest);
    assert xs[1..] == [b] + rest;
    if rest == [] {
      assert [a + NewLine + b] + rest == [a + NewLine + b];
    } else {
      assert ([b] + rest)[1..] == rest;
      assert ([a + NewLine + b] + rest)[1..] == rest;
      assert (a + [ '\n'] + b) + ['\n'] + Strings.Join(rest, '\n') == a + ['\n'] + (b + ['\n'] + Strings.Join(rest, '\n'));
    }
  }

  /** When no message holds a line break, splitting the logged message on
      line breaks gives back the original message followed by each loader
      message in order: exactly one separator is added per loader exception. */
  lemma FlattenedLines(message: string, loaders: seq<Exception>, typeLoad: string)
    requires '\n' !in message
    requires forall i :: 0 <= i < |loaders| ==> '\n' !in loaders[i].message
    ensures Strings.SplitAll(FlattenedMessage(message, ReflectionTypeLoadException(typeLoad, loaders)), '\n')
            == [message] + Messages(loaders)
  {
    var lines := [message] + Messages(loaders);
    assert Strings.SeparatorFree(lines, '\n') by {
      forall i | 0 <= i < |lines| ensures '\n' !in lines[i] {
        if i > 0 {
          assert lines[i] == loaders[i - 1].message;
        }
      }
    }
    AppendLoaderMessagesJoin(message, loaders);
    Strings.SplitAllJoin(lines, '\n');
  }
}
