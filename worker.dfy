/**
 * The worker of v1/worker.go: `processMessage` and `finalize`, publishing
 * through the app's `SendTask`.
 */
module Worker {
  import opened Wrappers
  import opened Tasks
  import opened ContinuationEngine
  import opened Invoker

  /** The parts of the app the worker uses: the task registry and the publish-back queue. */
  class App {
    /** Registered tasks by name; populated at start-up and only read by the worker. */
    var registeredTasks: map<string, Handler>
    /** Every signature sent back to the broker, oldest first. */
    var published: seq<TaskSignature>

    constructor (tasks: map<string, Handler>)
      ensures registeredTasks == tasks && published == []
    {
      registeredTasks := tasks;
      published := [];
    }

    /** The task registered under `name`, if any. */
    function GetRegisteredTask(name: string): Option<Handler>
      reads this
    {
      if name in registeredTasks then Some(registeredTasks[name]) else None
    }

    /** Publish one signature: it is appended to what has been sent, and nothing else changes. */
    method SendTask(t: TaskSignature)
      modifies this`published
      ensures published == old(published) + [t]
    {
      published := published + [t];
    }
  }

  class Worker {
    const app: App
    const consumerTag: string

    constructor (app: App, consumerTag: string)
      ensures this.app == app && this.consumerTag == consumerTag
    {
      this.app := app;
      this.consumerTag := consumerTag;
    }

    /**
     * Handle one decoded signature: drop it when its name is not registered,
     * otherwise convert its arguments, call the task and finalize with the
     * conversion error, the task's error or its result.
     */
    method ProcessMessage(s: TaskSignature, reflectArgs: Converter)
      modifies app`published
      ensures app.registeredTasks == old(app.registeredTasks)
      ensures app.published == old(app.published) + Published(app.registeredTasks, reflectArgs, s)
    {
      var task := app.GetRegisteredTask(s.name);
      if task.None? {
        return;
      }

      var reflectedArgs := reflectArgs(s.args);
      if reflectedArgs.Failure? {
        Finalize(s, Failed(reflectedArgs.error));
        return;
      }

      var results := task.value(reflectedArgs.value);
      if results.err.Some? {
        Finalize(s, Failed(NewError(results.err.value)));
        return;
      }

      Finalize(s, Succeeded(results.result));
    }

    /**
     * Publish the continuations of `s`: on failure each error continuation
     * with the error as first argument; on success each success continuation,
     * with the result as first argument unless `s` is immutable.
     */
    method Finalize(s: TaskSignature, outcome: Outcome)
      modifies app`published
      ensures app.published == old(app.published) + Continuations(s, outcome)
    {
      if outcome.Failed? {
        var i := 0;
        while i < |s.onError|
          invariant 0 <= i <= |s.onError|
          invariant app.published == old(app.published) + DeriveAll(s, outcome, s.onError[..i])
        {
          var errorTask := s.onError[i];
          errorTask := PrependArg(ErrorArg(outcome.err), errorTask);
          app.SendTask(errorTask);
          assert s.onError[..i + 1] == s.onError[..i] + [s.onError[i]];
          DeriveAllSnoc(s, outcome, s.onError[..i], s.onError[i]);
          i := i + 1;
        }
        assert s.onError[..i] == s.onError;
        return;
      }

      var i := 0;
      while i < |s.onSuccess|
        invariant 0 <= i <= |s.onSuccess|
        invariant app.published == old(app.published) + DeriveAll(s, outcome, s.onSuccess[..i])
      {
        var successTask := s.onSuccess[i];
        if !s.immutable {
          successTask := PrependArg(outcome.result, successTask);
        }
        app.SendTask(successTask);
        assert s.onSuccess[..i + 1] == s.onSuccess[..i] + [s.onSuccess[i]];
        DeriveAllSnoc(s, outcome, s.onSuccess[..i], s.onSuccess[i]);
        i := i + 1;
      }
      assert s.onSuccess[..i] == s.onSuccess;
    }
  }
}
