/**
 * The dynamic invoker as a specification: how `processMessage` turns one
 * decoded signature into nothing (dropped) or an outcome for `finalize`.
 */
module Invoker {
  import opened Wrappers
  import opened Tasks
  import opened ContinuationEngine

  /** What a registered task returns: its first result and the message of its error, if any. */
  datatype HandlerResult = HandlerResult(result: TaskArg, err: Option<string>)

  /** A registered task, called with the converted arguments. */
  type Handler = seq<Value> -> HandlerResult

  /** Argument conversion (`ReflectArgs`): the native values, or the error it reports. */
  type Converter = seq<TaskArg> -> Result<seq<Value>, Error>

  /** The dynamic type of an error made by `errors.New`. */
  const ErrorsNewKind: TypeTag := "*errors.errorString"

  /** `errors.New(text)`. */
  function NewError(text: string): Error
  {
    Error(ErrorsNewKind, Value(text))
  }

  /**
   * The outcome handed to `finalize`, or None when the task is dropped
   * because its name is not registered. A handler's error is forwarded as an
   * `errors.New` error carrying the handler's message (see `InvokeAsWritten`
   * for what the code does instead).
   */
  function Invoke(registry: map<string, Handler>, reflectArgs: Converter, s: TaskSignature): Option<Outcome>
  {
    if s.name !in registry then None
    else match reflectArgs(s.args)
      case Failure(e) => Some(Failed(e))
      case Success(values) =>
        var h := registry[s.name](values);
        if h.err.Some? then Some(Failed(NewError(h.err.value))) else Some(Succeeded(h.result))
  }

  /**
   * What `reflect.Value.String()` yields for the handler's second result: the
   * value has interface kind `error`, not kind string, so reflection prints a
   * placeholder naming the type instead of the error's message.
   */
  const ReflectedErrorText: string := "<error Value>"

  /**
   * `Invoke` as the code is written: the error made from a handler's error
   * carries the placeholder text, whatever message the handler reported.
   */
  function InvokeAsWritten(registry: map<string, Handler>, reflectArgs: Converter, s: TaskSignature): Option<Outcome>
  {
    if s.name !in registry then None
    else match reflectArgs(s.args)
      case Failure(e) => Some(Failed(e))
      case Success(values) =>
        var h := registry[s.name](values);
        if h.err.Some? then Some(Failed(NewError(ReflectedErrorText))) else Some(Succeeded(h.result))
  }

  /**
   * The code as written forwards the placeholder instead of the handler's
   * message, and so differs from `Invoke` for every other message; everywhere
   * else the two agree.
   */
  lemma AsWrittenLosesHandlerMessage(registry: map<string, Handler>, reflectArgs: Converter, s: TaskSignature)
    ensures s.name in registry && reflectArgs(s.args).Success? &&
            registry[s.name](reflectArgs(s.args).value).err.Some? ==>
      InvokeAsWritten(registry, reflectArgs, s) == Some(Failed(NewError(ReflectedErrorText))) &&
      (InvokeAsWritten(registry, reflectArgs, s) == Invoke(registry, reflectArgs, s) <==>
       registry[s.name](reflectArgs(s.args).value).err.value == ReflectedErrorText)
    ensures !(s.name in registry && reflectArgs(s.args).Success? &&
              registry[s.name](reflectArgs(s.args).value).err.Some?) ==>
      InvokeAsWritten(registry, reflectArgs, s) == Invoke(registry, reflectArgs, s)
  {
  }

  /** A handler failing with "disk full": the code as written forwards "<error Value>". */
  lemma DiskFullMessageIsLost()
    ensures var h: Handler := (vs: seq<Value>) => HandlerResult(TaskArg("int", Value("0")), Some("disk full"));
            var convert: Converter := (args: seq<TaskArg>) => Success([]);
            var s := TaskSignature("write", [], [], [], false);
            InvokeAsWritten(map["write" := h], convert, s) == Some(Failed(NewError("<error Value>"))) &&
            Invoke(map["write" := h], convert, s) == Some(Failed(NewError("disk full")))
  {
  }

  /** Everything `processMessage` publishes for `s`, in publication order. */
  function Published(registry: map<string, Handler>, reflectArgs: Converter, s: TaskSignature): seq<TaskSignature>
  {
    match Invoke(registry, reflectArgs, s)
    case None => []
    case Some(outcome) => Continuations(s, outcome)
  }

  /** A task is dropped, and publishes nothing, exactly when its name is not registered. */
  lemma DroppedIffUnregistered(registry: map<string, Handler>, reflectArgs: Converter, s: TaskSignature)
    ensures Invoke(registry, reflectArgs, s).None? <==> s.name !in registry
    ensures s.name !in registry ==> Published(registry, reflectArgs, s) == []
  {
  }

  /**
   * A conversion failure is not a drop: its error goes to the error
   * continuations, and the registered task is not called (replacing it by
   * any other handler changes nothing).
   */
  lemma ConversionFailureRoutesToErrors(registry: map<string, Handler>, reflectArgs: Converter, s: TaskSignature, other: Handler)
    requires s.name in registry && reflectArgs(s.args).Failure?
    ensures Invoke(registry, reflectArgs, s) == Some(Failed(reflectArgs(s.args).error))
    ensures Invoke(registry[s.name := other], reflectArgs, s) == Invoke(registry, reflectArgs, s)
    ensures |Published(registry, reflectArgs, s)| == |s.onError|
    ensures forall k :: 0 <= k < |s.onError| ==>
      Published(registry, reflectArgs, s)[k].args == [ErrorArg(reflectArgs(s.args).error)] + s.onError[k].args
  {
    ErrorContinuations(s, reflectArgs(s.args).error);
  }

  /**
   * A handler error goes to the error continuations as an `errors.New` error
   * carrying its text; the success list plays no part in what is published.
   */
  lemma HandlerErrorRoutesToErrors(registry: map<string, Handler>, reflectArgs: Converter, s: TaskSignature, other: seq<TaskSignature>)
    requires s.name in registry && reflectArgs(s.args).Success?
    requires registry[s.name](reflectArgs(s.args).value).err.Some?
    ensures Invoke(registry, reflectArgs, s) == Some(Failed(NewError(registry[s.name](reflectArgs(s.args).value).err.value)))
    ensures |Published(registry, reflectArgs, s)| == |s.onError|
    ensures Published(registry, reflectArgs, s.(onSuccess := other)) == Published(registry, reflectArgs, s)
  {
    var outcome := Invoke(registry, reflectArgs, s).value;
    ContinuationCount(s, outcome);
    OneBranchFires(s, outcome, other, s.immutable);
  }

  /**
   * A handler that reports no error sends its result to the success
   * continuations; the error list plays no part in what is published.
   */
  lemma HandlerSuccessRoutesToSuccess(registry: map<string, Handler>, reflectArgs: Converter, s: TaskSignature, other: seq<TaskSignature>)
    requires s.name in registry && reflectArgs(s.args).Success?
    requires registry[s.name](reflectArgs(s.args).value).err.None?
    ensures Invoke(registry, reflectArgs, s) == Some(Succeeded(registry[s.name](reflectArgs(s.args).value).result))
    ensures |Published(registry, reflectArgs, s)| == |s.onSuccess|
    ensures Published(registry, reflectArgs, s.(onError := other)) == Published(registry, reflectArgs, s)
  {
    var outcome := Invoke(registry, reflectArgs, s).value;
    ContinuationCount(s, outcome);
    OneBranchFires(s, outcome, other, s.immutable);
  }
}
