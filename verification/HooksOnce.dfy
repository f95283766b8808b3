// src/modules/Hooks.ts over several calls: what `once` uses up.
module Once {
  import opened Wrappers
  import opened Ledgers
  import opened Dispatch

  /** The handlers registered once among the first `n` tasks. */
  function Consumed(tasks: seq<Task>, n: nat): set<Handler>
    requires n <= |tasks|
  {
    set k | 0 <= k < n && tasks[k].once && tasks[k].name.Some? :: tasks[k].name.value
  }

  /** Handlers that leave the registrations of the hook alone; they may throw and end the visit. */
  ghost predicate Quiet(hook: string, tasks: seq<Task>) {
    forall t, env: Env | t in tasks && hook in env.registry ::
      var r := t.body(env).env.registry;
      hook in r && r[hook] == env.registry[hook]
  }

  /** Handlers that leave the registrations of all other hooks alone. */
  ghost predicate Local(hook: string, tasks: seq<Task>) {
    forall t, env: Env | t in tasks :: t.body(env).env.registry - {hook} == env.registry - {hook}
  }

  lemma {:induction false} EnvAtConsumes(hook: string, tasks: seq<Task>, env: Env, n: nat)
    requires n <= |tasks| && Quiet(hook, tasks) && hook in env.registry && IsMap(env.registry[hook])
    ensures var e := EnvAt(hook, tasks, env, n);
      hook in e.registry && e.registry[hook] == Without(env.registry[hook], Consumed(tasks, n))
    decreases n
  {
    var ledger := env.registry[hook];
    if n == 0 {
      assert Consumed(tasks, 0) == {};
      WithoutEmpty(ledger);
    } else {
      var t, rest := tasks[0], tasks[1..];
      assert t in tasks;
      forall u | u in rest ensures u in tasks {}
      var first := Execute(hook, t, env).env;
      var hs := Consumed(tasks, 1);
      assert hook in first.registry && first.registry[hook] == Without(ledger, hs) by {
        if t.once && t.name.Some? {
          assert hs == {t.name.value};
          DeleteIsWithout(ledger, t.name.value);
        } else {
          assert hs == {};
          WithoutEmpty(ledger);
        }
      }
      WithoutIsMap(ledger, hs);
      EnvAtConsumes(hook, rest, first, n - 1);
      WithoutTwice(ledger, hs, Consumed(rest, n - 1));
      assert Consumed(tasks, n) == hs + Consumed(rest, n - 1) by {
        forall k | 0 <= k < n - 1 ensures rest[k] == tasks[k + 1] {}
        forall h | h in Consumed(tasks, n) ensures h in hs + Consumed(rest, n - 1) {
          var k :| 0 <= k < n && tasks[k].once && tasks[k].name.Some? && tasks[k].name.value == h;
          if k > 0 {
            assert rest[k - 1] == tasks[k];
          }
        }
      }
    }
  }

  lemma {:induction false} EnvAtIsLocal(hook: string, tasks: seq<Task>, env: Env, n: nat)
    requires n <= |tasks| && Local(hook, tasks)
    ensures EnvAt(hook, tasks, env, n).registry - {hook} == env.registry - {hook}
    decreases n
  {
    if n > 0 {
      var t, rest := tasks[0], tasks[1..];
      assert t in tasks;
      forall u | u in rest ensures u in tasks {}
      assert TakeOff(hook, t, env.registry) - {hook} == env.registry - {hook};
      EnvAtIsLocal(hook, rest, Execute(hook, t, env).env, n - 1);
    }
  }

  /**
   * The ledger loses exactly the once handlers that were executed: among before and after handlers
   * all of them, among the replacers only the outermost. So it is for a call that is cut off too,
   * because a handler ended the visit or the main handler threw.
   */
  lemma CallConsumes(code: Code, hook: string, env: Env, def: Option<Behaviour>)
    requires hook in env.registry && IsMap(env.registry[hook])
    requires Quiet(hook, GetHandlers(code, env.registry[hook], def).All())
    ensures var plan := GetHandlers(code, env.registry[hook], def);
      var r := Call(code, hook, env, def);
      && |r.executed| <= |plan.All()|
      && hook in r.env.registry
      && r.env.registry[hook] == Without(env.registry[hook], Consumed(plan.All(), |r.executed|))
      && (!r.env.done && !r.threw ==> |r.executed| == |plan.All()|)
      && (Local(hook, plan.All()) ==> r.env.registry - {hook} == env.registry - {hook})
  {
    DispatchLaw(code, hook, env, def);
    var all := GetHandlers(code, env.registry[hook], def).All();
    var n := |Call(code, hook, env, def).executed|;
    EnvAtConsumes(hook, all, env, n);
    if Local(hook, all) {
      EnvAtIsLocal(hook, all, env, n);
    }
  }

  lemma PlainNames(code: Code, list: Ledger, h: Handler)
    requires IsMap(list)
    ensures h in Consumed(PlainTasks(code, list), |list|) <==>
              exists r | r in list :: r.handler == h && r.options.once
  {}

  lemma ConsumedSplit(a: seq<Task>, b: seq<Task>)
    ensures Consumed(a + b, |a + b|) == Consumed(a, |a|) + Consumed(b, |b|)
  {
    var all := a + b;
    forall h | h in Consumed(all, |all|) ensures h in Consumed(a, |a|) + Consumed(b, |b|) {
      var k :| 0 <= k < |all| && all[k].once && all[k].name.Some? && all[k].name.value == h;
      if k < |a| {
        assert a[k] == all[k];
      } else {
        assert b[k - |a|] == all[k];
      }
    }
    forall h | h in Consumed(b, |b|) ensures h in Consumed(all, |all|) {
      var k :| 0 <= k < |b| && b[k].once && b[k].name.Some? && b[k].name.value == h;
      assert all[|a| + k] == b[k];
    }
    forall h | h in Consumed(a, |a|) ensures h in Consumed(all, |all|) {
      var k :| 0 <= k < |a| && a[k].once && a[k].name.Some? && a[k].name.value == h;
      assert all[k] == a[k];
    }
  }

  /** The registration that a complete call with a default handler uses up. */
  predicate UsedUp(ledger: Ledger, def: Option<Behaviour>, r: Registration) {
    && r.options.once
    && (r.options.replace ==> def.Some? && Replacers(ledger) != [] && r == Replacers(ledger)[|Replacers(ledger)| - 1])
  }

  lemma ListMembers(ledger: Ledger)
    ensures forall r :: r in Befores(ledger) <==> r in ledger && IsBefore(r)
    ensures forall r :: r in Replacers(ledger) <==> r in ledger && IsReplace(r)
    ensures forall r :: r in Afters(ledger) <==> r in ledger && IsAfter(r)
  {
    SortMembers(Filter(ledger, IsBefore));
    SortMembers(Filter(ledger, IsReplace));
    SortMembers(Filter(ledger, IsAfter));
    FilterOnly(ledger, IsBefore);
    FilterOnly(ledger, IsReplace);
    FilterOnly(ledger, IsAfter);
  }

  lemma ConsumedByAll(code: Code, ledger: Ledger, def: Option<Behaviour>, r: Registration)
    requires IsMap(ledger) && r in ledger
    ensures var all := GetHandlers(code, ledger, def).All();
      r.handler in Consumed(all, |all|) <==> UsedUp(ledger, def, r)
  {
    var plan := GetHandlers(code, ledger, def);
    var reps := Replacers(ledger);
    ListsAreMaps(ledger);
    ListMembers(ledger);
    ConsumedSplit(plan.before + plan.main, plan.after);
    ConsumedSplit(plan.before, plan.main);
    PlainNames(code, Befores(ledger), r.handler);
    PlainNames(code, Afters(ledger), r.handler);
    forall q | q in ledger && q.handler == r.handler ensures q == r {
      SameRegistration(ledger, q, r);
    }
    if def.Some? && reps != [] {
      assert reps[|reps| - 1] in reps;
      assert plan.main[0] == MainTask(code, reps, def.value);
    }
  }

  /**
   * In a call that ends with the visit alive and without an error, exactly the once before and after
   * handlers and the outermost replacer go.
   */
  lemma CompleteCallConsumes(code: Code, hook: string, env: Env, def: Option<Behaviour>)
    requires hook in env.registry && IsMap(env.registry[hook])
    requires Quiet(hook, GetHandlers(code, env.registry[hook], def).All())
    requires !Call(code, hook, env, def).env.done && !Call(code, hook, env, def).threw
    ensures var ledger, r := env.registry[hook], Call(code, hook, env, def).env.registry;
      && hook in r
      && (forall reg :: reg in r[hook] <==> reg in ledger && !UsedUp(ledger, def, reg))
      && (Local(hook, GetHandlers(code, ledger, def).All()) ==> r - {hook} == env.registry - {hook})
  {
    var ledger := env.registry[hook];
    CallConsumes(code, hook, env, def);
    var all := GetHandlers(code, ledger, def).All();
    WithoutMembers(ledger, Consumed(all, |all|));
    forall reg | reg in ledger
      ensures reg.handler in Consumed(all, |all|) <==> UsedUp(ledger, def, reg)
    {
      ConsumedByAll(code, ledger, def, reg);
    }
  }

  // ---- Stacked once replacers ----

  /** Replacers that do not delegate, throw, abort or touch registrations, and such a default. */
  ghost predicate Standalone(code: Code, def: Behaviour) {
    && (forall h, env, inner ::
          var e := code.replacing(h)(env, inner);
          !e.threw && e.env.registry == env.registry && e.env.done == env.done)
    && (forall env :: !def(env).threw && def(env).env.registry == env.registry && def(env).env.done == env.done)
  }

  predicate OnceReplacers(ledger: Ledger) {
    forall r | r in ledger :: r.options.replace && r.options.once
  }

  /** The hook has nothing but once replacers, and the visit is alive. */
  ghost predicate Stacked(hook: string, env: Env) {
    hook in env.registry && IsMap(env.registry[hook]) && OnceReplacers(env.registry[hook]) && !env.done
  }

  lemma StackedLists(ledger: Ledger)
    requires IsMap(ledger) && OnceReplacers(ledger)
    ensures Befores(ledger) == [] && Afters(ledger) == [] && Replacers(ledger) == Sort(ledger)
    ensures |Sort(ledger)| == |ledger| && IsMap(Sort(ledger))
    ensures forall r | r in Sort(ledger) :: r.options.replace && r.options.once
  {
    FilterNothing(ledger, IsBefore);
    FilterNothing(ledger, IsAfter);
    FilterAll(ledger, IsReplace);
    SortMembers(ledger);
    SortSorts(ledger);
    SortIsMap(ledger);
  }

  /** The ledger without its outermost replacer. */
  lemma TopRemoved(ledger: Ledger)
    requires IsMap(ledger) && OnceReplacers(ledger) && ledger != []
    ensures |Sort(ledger)| == |ledger|
    ensures var reps, n := Sort(ledger), |ledger|;
      var left := Delete(ledger, reps[n - 1].handler);
      IsMap(left) && OnceReplacers(left) && Sort(left) == reps[..n - 1]
  {
    SortSorts(ledger);
    SortIsMap(ledger);
    var h := Sort(ledger)[|ledger| - 1].handler;
    DeleteIsWithout(ledger, h);
    WithoutIsMap(ledger, {h});
    SortWithout(ledger, {h});
    WithoutLast(Sort(ledger));
    WithoutMembers(ledger, {h});
  }

  lemma MainOnly(hook: string, t: Task, env: Env)
    requires !env.done && !Execute(hook, t, env).threw
    ensures var r := RunPlan(hook, Plan([], [t], []), env);
      r.executed == [t.name] && r.env == Execute(hook, t, env).env
  {
    var e := Execute(hook, t, env).env;
    assert [t][1..] == [];
    assert Run(hook, [], e, true) == RunResult(e, [], false);
    assert Run(hook, [t], env, true) == RunResult(e, [t.name], false);
  }

  /** One call uses up the outermost replacer and runs nothing else. */
  lemma PeelOne(code: Code, hook: string, env: Env, def: Behaviour)
    requires Stacked(hook, env) && Standalone(code, def)
    ensures var r := Call(code, hook, env, Some(def));
      var reps, n := Sort(env.registry[hook]), |env.registry[hook]|;
      && Stacked(hook, r.env)
      && |reps| == n
      && r.executed == [if n == 0 then None else Some(reps[n - 1].handler)]
      && Sort(r.env.registry[hook]) == (if n == 0 then [] else reps[..n - 1])
  {
    var ledger := env.registry[hook];
    StackedLists(ledger);
    var t := MainTask(code, Replacers(ledger), def);
    assert GetHandlers(code, ledger, Some(def)) == Plan([], [t], []);
    if ledger != [] {
      TopRemoved(ledger);
      var top := Sort(ledger)[|ledger| - 1];
      assert top in Sort(ledger);
      assert t.once && t.name == Some(top.handler);
    }
    MainOnly(hook, t, env);
  }

  function AfterCalls(code: Code, hook: string, env: Env, def: Behaviour, k: nat): Env
    decreases k
  {
    if k == 0 then env else Call(code, hook, AfterCalls(code, hook, env, def, k - 1), Some(def)).env
  }

  /** How many of `n` stacked replacers are left after `k` calls. */
  function Left(n: nat, k: nat): nat {
    if k < n then n - k else 0
  }

  lemma {:induction false} PeelMany(code: Code, hook: string, env: Env, def: Behaviour, k: nat)
    requires Stacked(hook, env) && Standalone(code, def)
    ensures |Sort(env.registry[hook])| == |env.registry[hook]|
    ensures var e, n := AfterCalls(code, hook, env, def, k), |env.registry[hook]|;
      && Stacked(hook, e) && |e.registry[hook]| == Left(n, k)
      && Sort(e.registry[hook]) == Sort(env.registry[hook])[..Left(n, k)]
    decreases k
  {
    hide Call, Sort;
    SortSorts(env.registry[hook]);
    if k > 0 {
      PeelMany(code, hook, env, def, k - 1);
      var e := AfterCalls(code, hook, env, def, k - 1);
      PeelOne(code, hook, e, def);
      SortSorts(AfterCalls(code, hook, env, def, k).registry[hook]);
    }
  }

  /**
   * `n` stacked once replacers run one per call, starting from the outermost; from call `n + 1` on
   * the default handler runs again, and it alone.
   */
  lemma StackedOncePeelOff(code: Code, hook: string, env: Env, def: Behaviour, k: nat)
    requires Stacked(hook, env) && Standalone(code, def)
    ensures var reps, n := Replacers(env.registry[hook]), |env.registry[hook]|;
      && |reps| == n
      && Call(code, hook, AfterCalls(code, hook, env, def, k), Some(def)).executed
           == [if k < n then Some(reps[n - 1 - k].handler) else None]
  {
    StackedLists(env.registry[hook]);
    PeelMany(code, hook, env, def, k);
    PeelOne(code, hook, AfterCalls(code, hook, env, def, k), def);
  }
}
