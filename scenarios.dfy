/** End-to-end runs of the worker on small registries, checked from the contracts alone. */
module Scenarios {
  import opened Wrappers
  import opened Tasks
  import opened Invoker
  import opened ContinuationEngine
  import opened Worker

  /** Conversion that succeeds with the argument values, in order. */
  function PassValues(args: seq<TaskArg>): Result<seq<Value>, Error>
  {
    Success(seq(|args|, i requires 0 <= i < |args| => args[i].value))
  }

  function Int(n: string): TaskArg
  {
    TaskArg("int", Value(n))
  }

  function Leaf(name: string, args: seq<TaskArg>): TaskSignature
  {
    TaskSignature(name, args, [], [], false)
  }

  /** `add(2, 3) = 5` with a mutable origin: `log` is published with 5 as its only argument. */
  method ResultFlowsToSuccessContinuation()
  {
    var add: Handler := (vs: seq<Value>) => HandlerResult(Int("5"), None);
    var app := new App(map["add" := add]);
    var w := new Worker(app, "consumer");
    var s := TaskSignature("add", [Int("2"), Int("3")], [Leaf("log", [])], [], false);
    w.ProcessMessage(s, PassValues);
    assert Invoke(app.registeredTasks, PassValues, s) == Some(Succeeded(Int("5")));
    assert s.onSuccess[1..] == [];
    assert [Int("5")] + [] == [Int("5")];
    assert app.published == [Leaf("log", [Int("5")])];
  }

  /** The same run with an immutable origin: `log` is published with its declared (empty) arguments. */
  method ImmutableOriginKeepsDeclaredArgs()
  {
    var add: Handler := (vs: seq<Value>) => HandlerResult(Int("5"), None);
    var app := new App(map["add" := add]);
    var w := new Worker(app, "consumer");
    var s := TaskSignature("add", [Int("2"), Int("3")], [Leaf("log", [])], [], true);
    w.ProcessMessage(s, PassValues);
    assert app.published == [Leaf("log", [])];
  }

  /** An unregistered name publishes nothing, whatever its continuations. */
  method UnregisteredNameIsDropped()
  {
    var app := new App(map[]);
    var w := new Worker(app, "consumer");
    var s := TaskSignature("ghost", [], [Leaf("log", [])], [Leaf("alert", [])], false);
    w.ProcessMessage(s, PassValues);
    assert app.published == [];
  }

  /** A handler error "disk full" reaches `alert` as its first argument, before "pager". */
  method HandlerErrorReachesErrorContinuation()
  {
    var write: Handler := (vs: seq<Value>) => HandlerResult(Int("0"), Some("disk full"));
    var app := new App(map["write" := write]);
    var w := new Worker(app, "consumer");
    var pager := TaskArg("string", Value("pager"));
    var s := TaskSignature("write", [], [Leaf("log", [])], [Leaf("alert", [pager])], true);
    w.ProcessMessage(s, PassValues);
    assert Invoke(app.registeredTasks, PassValues, s) == Some(Failed(NewError("disk full")));
    assert s.onError[1..] == [];
    var e := NewError("disk full");
    assert DeriveAll(s, Failed(e), s.onError) == [Derive(s, Failed(e), Leaf("alert", [pager]))];
    assert ErrorArg(NewError("disk full")) == TaskArg(ErrorsNewKind, Value("disk full"));
    assert [TaskArg(ErrorsNewKind, Value("disk full"))] + [pager] == [TaskArg(ErrorsNewKind, Value("disk full")), pager];
    assert app.published == [Leaf("alert", [TaskArg(ErrorsNewKind, Value("disk full")), pager])];
  }

  /** A conversion failure is not a drop: the conversion error reaches the error continuation. */
  method ConversionErrorReachesErrorContinuation()
  {
    var add: Handler := (vs: seq<Value>) => HandlerResult(Int("5"), None);
    var app := new App(map["add" := add]);
    var w := new Worker(app, "consumer");
    var bad := Error("*errors.errorString", Value("bad arg"));
    var s := TaskSignature("add", [Int("x")], [Leaf("log", [])], [Leaf("alert", [])], false);
    var convert: Converter := (args: seq<TaskArg>) => Failure(bad);
    w.ProcessMessage(s, convert);
    assert Invoke(app.registeredTasks, convert, s) == Some(Failed(bad));
    assert s.onError[1..] == [];
    assert [ErrorArg(bad)] + [] == [ErrorArg(bad)];
    assert app.published == [Leaf("alert", [ErrorArg(bad)])];
  }
}
