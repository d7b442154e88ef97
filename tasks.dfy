/**
 * The data that crosses the broker: typed arguments, task signatures with
 * their success and error continuations, and the outcome of running one task.
 */
module Tasks {

  /** The name of a concrete Go type, as `reflect.Type.String()` prints it. */
  type TypeTag = string

  /** A value carried by an argument; its encoding is left opaque. */
  datatype Value = Value(repr: string)

  /** One positional argument: a type tag and the value it tags. */
  datatype TaskArg = TaskArg(typ: TypeTag, value: Value)

  /** The declarative description of one unit of work. */
  datatype TaskSignature = TaskSignature(
    name: string,
    args: seq<TaskArg>,
    onSuccess: seq<TaskSignature>,
    onError: seq<TaskSignature>,
    immutable: bool)

  /** A Go error: its dynamic type and the error object itself. */
  datatype Error = Error(kind: TypeTag, payload: Value)

  /** What one invocation produced: exactly one of an error or a result. */
  datatype Outcome = Failed(err: Error) | Succeeded(result: TaskArg)

  /** The argument an error is passed as: tagged with the error's type, carrying the error. */
  function ErrorArg(e: Error): TaskArg
  {
    TaskArg(e.kind, e.payload)
  }

  /**
   * The continuation `c` with `a` as its new first argument. It is a new
   * value: nothing but the argument list differs from `c`.
   */
  function PrependArg(a: TaskArg, c: TaskSignature): (r: TaskSignature)
    ensures |r.args| == |c.args| + 1
    ensures r.args[0] == a && r.args[1..] == c.args
    ensures r.(args := c.args) == c
  {
    c.(args := [a] + c.args)
  }
}
