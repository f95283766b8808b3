// src/modules/Hooks.ts: the registry object, updated in place.
module HookRegistry {
  import opened Wrappers
  import opened Ledgers
  import opened Dispatch

  class Hooks {
    var registry: Registry
    var journal: seq<Option<Handler>>

    /** Every ledger is keyed by handlers. */
    ghost predicate Valid()
      reads this
    {
      forall hook | hook in registry :: IsMap(registry[hook])
    }

    /** Creates a ledger for every core hook. */
    constructor (hooks: seq<string>)
      ensures Valid() && journal == []
      ensures registry == map h | h in hooks :: []
    {
      registry := map[];
      journal := [];
      new;
      for k := 0 to |hooks|
        invariant Valid() && journal == []
        invariant registry == map h | h in hooks[..k] :: []
      {
        assert hooks[..k + 1] == hooks[..k] + [hooks[k]];
        Create(hooks[k]);
      }
      assert hooks[..|hooks|] == hooks;
    }

    method Create(hook: string)
      requires Valid()
      modifies this`registry
      ensures Valid()
      ensures registry == if hook in old(registry) then old(registry) else old(registry)[hook := []]
    {
      if hook !in registry {
        registry := registry[hook := []];
      }
    }

    /** Removes all handlers and keeps the hooks. */
    method Clear()
      modifies this`registry
      ensures Valid()
      ensures registry.Keys == old(registry.Keys) && forall hook | hook in registry :: registry[hook] == []
    {
      registry := map hook | hook in registry :: [];
    }

    /** A handler has one registration per hook: the latest. An unknown hook changes nothing. */
    method On(hook: string, handler: Handler, options: HookOptions) returns (found: bool)
      requires Valid()
      modifies this`registry
      ensures Valid() && found == (hook in old(registry))
      ensures found ==>
        && registry == old(registry)[hook := Ledgers.On(old(registry)[hook], handler, options)]
        && Has(registry[hook], handler)
        && forall h | h != handler :: Has(registry[hook], h) <==> Has(old(registry)[hook], h)
      ensures !found ==> registry == old(registry)
    {
      found := hook in registry;
      if found {
        var registration := Registration(|registry[hook]| + 1, handler, options);
        SetIsMap(registry[hook], registration);
        registry := registry[hook := Set(registry[hook], registration)];
      }
    }

    method Off(hook: string, handler: Handler) returns (deleted: bool)
      requires Valid()
      modifies this`registry
      ensures Valid()
      ensures deleted == (hook in old(registry) && Has(old(registry)[hook], handler))
      ensures hook in old(registry) ==>
        && registry == old(registry)[hook := Delete(old(registry)[hook], handler)]
        && forall r :: r in registry[hook] <==> r in old(registry)[hook] && r.handler != handler
      ensures hook !in old(registry) ==> registry == old(registry)
    {
      deleted := false;
      if hook in registry {
        var ledger := registry[hook];
        deleted := Has(ledger, handler);
        DeleteIsWithout(ledger, handler);
        WithoutIsMap(ledger, {handler});
        WithoutMembers(ledger, {handler});
        registry := registry[hook := Delete(ledger, handler)];
      }
    }

    /** `off(hook)` without a handler. */
    method OffAll(hook: string)
      requires Valid()
      modifies this`registry
      ensures Valid()
      ensures registry == if hook in old(registry) then old(registry)[hook := []] else old(registry)
    {
      if hook in registry {
        registry := registry[hook := []];
      }
    }

    /** What handlers can see, given whether the visit is done. */
    function Seen(done: bool): Env
      reads this
    {
      Env(registry, done, journal)
    }

    /** Runs one handler that is due, taken off first if it is to run once. */
    method ExecuteTask(hook: string, t: Task) returns (done: bool, threw: bool)
      modifies this
      ensures Effect(Seen(done), threw) == Execute(hook, t, old(Seen(false)))
    {
      registry := TakeOff(hook, t, registry);
      var effect := t.body(Seen(false));
      registry, done, journal := effect.env.registry, effect.env.done, effect.env.journal;
      threw := effect.threw;
    }

    /** The tasks in order, passed over once the visit is done. */
    method RunTasks(hook: string, tasks: seq<Task>, visitDone: bool, rethrow: bool)
      returns (done: bool, executed: seq<Option<Handler>>, threw: bool)
      modifies this
      ensures RunResult(Seen(done), executed, threw) == Run(hook, tasks, old(Seen(visitDone)), rethrow)
    {
      done, executed, threw := visitDone, [], false;
      ghost var all := Run(hook, tasks, Seen(visitDone), rethrow);
      for k := 0 to |tasks|
        invariant !threw
        invariant var rest := Run(hook, tasks[k..], Seen(done), rethrow);
          all == RunResult(rest.env, executed + rest.executed, rest.threw)
      {
        assert tasks[k..][0] == tasks[k] && tasks[k..][1..] == tasks[k + 1..];
        if !done {
          var failed;
          done, failed := ExecuteTask(hook, tasks[k]);
          ghost var rest := Run(hook, tasks[k + 1..], Seen(done), rethrow);
          assert executed + ([tasks[k].name] + rest.executed) == executed + [tasks[k].name] + rest.executed;
          executed := executed + [tasks[k].name];
          if failed && rethrow {
            threw := true;
            return;
          }
        }
      }
      assert tasks[|tasks|..] == [];
    }

    /** `call` and `callSync`: `event` tells whether DOM events are dispatched. */
    method Trigger(hook: string, code: Code, visitDone: bool, def: Option<Behaviour>)
      returns (done: bool, executed: seq<Option<Handler>>, threw: bool, event: bool)
      modifies this
      ensures CallResult(Seen(done), executed, threw, event) == Call(code, hook, old(Seen(visitDone)), def)
    {
      var plan := PlanOf(code, registry, hook, def);
      var ran, swallowed;
      done, executed, swallowed := RunTasks(hook, plan.before, visitDone, false);
      done, ran, threw := RunTasks(hook, plan.main, done, true);
      executed := executed + ran;
      if threw {
        event := false;
      } else {
        done, ran, swallowed := RunTasks(hook, plan.after, done, false);
        executed := executed + ran;
        event := !done;
      }
    }
  }
}
