// src/modules/Hooks.ts: triggering a hook.
module Dispatch {
  import opened Wrappers
  import opened Ledgers

  type Registry = map<string, Ledger>

  /**
   * What a handler can see and change: all registrations, whether the visit is done, and a journal
   * that stands for everything else.
   */
  datatype Env = Env(registry: Registry, done: bool, journal: seq<Option<Handler>>)

  datatype Effect = Effect(env: Env, threw: bool)

  /** Any handler, with what happens while it suspends. */
  type Behaviour = Env -> Effect

  /** Any replacing handler: it may run the handler it replaces any number of times. */
  type Replacing = (Env, Behaviour) -> Effect

  /** The code behind the registered handlers. */
  datatype Code = Code(plain: Handler -> Behaviour, replacing: Handler -> Replacing)

  // ---- getHandlers ----

  /** A registration as `run` sees it; the default handler has no name. */
  datatype Task = Task(name: Option<Handler>, once: bool, body: Behaviour)

  datatype Plan = Plan(before: seq<Task>, main: seq<Task>, after: seq<Task>) {
    function All(): seq<Task> { before + main + after }
  }

  function Wrap(r: Replacing, inner: Behaviour): Behaviour {
    (env: Env) => r(env, inner)
  }

  /** `createDefaultHandler`: what the replacer at `index` finds as the handler it replaces. */
  function CreateDefaultHandler(code: Code, reps: Ledger, def: Behaviour, index: nat): Behaviour
    requires index <= |reps|
  {
    if index > 0
    then Wrap(code.replacing(reps[index - 1].handler), CreateDefaultHandler(code, reps, def, index - 1))
    else def
  }

  function MainTask(code: Code, reps: Ledger, def: Behaviour): Task {
    if reps == [] then Task(None, false, def)
    else
      var last := reps[|reps| - 1];
      Task(Some(last.handler), last.options.once,
           Wrap(code.replacing(last.handler), CreateDefaultHandler(code, reps, def, |reps| - 1)))
  }

  function PlainTask(code: Code, r: Registration): Task {
    Task(Some(r.handler), r.options.once, code.plain(r.handler))
  }

  function PlainTasks(code: Code, list: Ledger): (r: seq<Task>)
    ensures |r| == |list|
    ensures forall i | 0 <= i < |list| :: r[i] == PlainTask(code, list[i])
  {
    if list == [] then [] else [PlainTask(code, list[0])] + PlainTasks(code, list[1..])
  }

  /** The snapshot taken when a hook is triggered. Replacers only count if there is something to replace. */
  function GetHandlers(code: Code, ledger: Ledger, def: Option<Behaviour>): Plan {
    Plan(PlainTasks(code, Befores(ledger)),
         if def.None? then [] else [MainTask(code, Replacers(ledger), def.value)],
         PlainTasks(code, Afters(ledger)))
  }

  /** An unknown hook runs nothing, not even the default handler. */
  function PlanOf(code: Code, registry: Registry, hook: string, def: Option<Behaviour>): Plan {
    if hook in registry then GetHandlers(code, registry[hook], def) else Plan([], [], [])
  }

  // ---- run and call ----

  /** `off`, when the task is to run once. */
  function TakeOff(hook: string, t: Task, registry: Registry): Registry {
    if t.once && t.name.Some? && hook in registry
    then registry[hook := Delete(registry[hook], t.name.value)]
    else registry
  }

  /** One handler is executed. */
  function Execute(hook: string, t: Task, env: Env): Effect {
    t.body(env.(registry := TakeOff(hook, t, env.registry)))
  }

  datatype RunResult = RunResult(env: Env, executed: seq<Option<Handler>>, threw: bool)

  /** `run` and `runSync`. */
  function Run(hook: string, tasks: seq<Task>, env: Env, rethrow: bool): RunResult {
    if tasks == [] then RunResult(env, [], false)
    else if env.done then Run(hook, tasks[1..], env, rethrow)
    else
      var effect := Execute(hook, tasks[0], env);
      if effect.threw && rethrow then RunResult(effect.env, [tasks[0].name], true)
      else
        var rest := Run(hook, tasks[1..], effect.env, rethrow);
        rest.(executed := [tasks[0].name] + rest.executed)
  }

  datatype CallResult = CallResult(env: Env, executed: seq<Option<Handler>>, threw: bool, event: bool)

  /** `event` tells whether DOM events are dispatched. */
  function RunPlan(hook: string, plan: Plan, env: Env): CallResult {
    var b := Run(hook, plan.before, env, false);
    var m := Run(hook, plan.main, b.env, true);
    if m.threw then CallResult(m.env, b.executed + m.executed, true, false)
    else
      var a := Run(hook, plan.after, m.env, false);
      CallResult(a.env, b.executed + m.executed + a.executed, false, !a.env.done)
  }

  /** `call` and `callSync` with an explicit visit. */
  function Call(code: Code, hook: string, env: Env, def: Option<Behaviour>): CallResult {
    RunPlan(hook, PlanOf(code, env.registry, hook, def), env)
  }

  // ---- The dispatch law ----

  function Names(tasks: seq<Task>): (r: seq<Option<Handler>>)
    ensures |r| == |tasks| && forall i | 0 <= i < |tasks| :: r[i] == tasks[i].name
  {
    seq(|tasks|, i requires 0 <= i < |tasks| => tasks[i].name)
  }

  /** The state after the first `k` tasks have been executed one after the other. */
  function EnvAt(hook: string, tasks: seq<Task>, env: Env, k: nat): Env
    requires k <= |tasks|
    decreases k
  {
    if k == 0 then env else EnvAt(hook, tasks[1..], Execute(hook, tasks[0], env).env, k - 1)
  }

  /** `n` tasks of the list have been executed and nothing else. */
  ghost predicate RanPrefix(hook: string, tasks: seq<Task>, env: Env, r: RunResult, n: nat) {
    && n <= |tasks|
    && r.executed == Names(tasks)[..n]
    && r.env == EnvAt(hook, tasks, env, n)
    && (forall k | 0 <= k < n :: !EnvAt(hook, tasks, env, k).done)
  }

  lemma {:induction false} RunLaw(hook: string, tasks: seq<Task>, env: Env, rethrow: bool)
    ensures var r := Run(hook, tasks, env, rethrow); var n := |r.executed|;
      && RanPrefix(hook, tasks, env, r, n)
      && (n < |tasks| ==> r.env.done || r.threw)
      && (r.threw ==> rethrow && n > 0 && Execute(hook, tasks[n - 1], EnvAt(hook, tasks, env, n - 1)).threw)
      && (rethrow && !r.threw ==> forall k | 0 <= k < n :: !Execute(hook, tasks[k], EnvAt(hook, tasks, env, k)).threw)
    decreases |tasks|
  {
    if tasks != [] {
      var r := Run(hook, tasks, env, rethrow);
      if env.done {
        RunLaw(hook, tasks[1..], env, rethrow);
        DoneRunsNothing(hook, tasks[1..], env, rethrow);
      } else {
        var effect := Execute(hook, tasks[0], env);
        if !(effect.threw && rethrow) {
          RunLaw(hook, tasks[1..], effect.env, rethrow);
          var n := |r.executed|;
          assert Names(tasks)[..n] == [tasks[0].name] + Names(tasks[1..])[..n - 1];
          forall k | 0 <= k < n
            ensures !EnvAt(hook, tasks, env, k).done
            ensures rethrow && !r.threw ==> !Execute(hook, tasks[k], EnvAt(hook, tasks, env, k)).threw
          {
            if k > 0 {
              assert EnvAt(hook, tasks, env, k) == EnvAt(hook, tasks[1..], effect.env, k - 1);
            }
          }
        } else {
          assert EnvAt(hook, tasks, env, 1) == EnvAt(hook, tasks[1..], effect.env, 0);
        }
      }
    }
  }

  lemma {:induction false} DoneRunsNothing(hook: string, tasks: seq<Task>, env: Env, rethrow: bool)
    requires env.done
    ensures Run(hook, tasks, env, rethrow) == RunResult(env, [], false)
    decreases |tasks|
  {
    if tasks != [] {
      DoneRunsNothing(hook, tasks[1..], env, rethrow);
    }
  }

  lemma {:induction false} EnvAtSplit(hook: string, a: seq<Task>, b: seq<Task>, env: Env, k: nat)
    requires k <= |a| + |b|
    ensures EnvAt(hook, a + b, env, k)
         == if k <= |a| then EnvAt(hook, a, env, k)
            else EnvAt(hook, b, EnvAt(hook, a, env, |a|), k - |a|)
    decreases |a|
  {
    if a == [] {
      assert a + b == b;
    } else if k > 0 {
      assert (a + b)[1..] == a[1..] + b;
      EnvAtSplit(hook, a[1..], b, Execute(hook, a[0], env).env, k - 1);
    }
  }

  /** Running two lists one after the other, the second only while the visit is alive. */
  lemma PrefixJoin(hook: string, a: seq<Task>, b: seq<Task>, env: Env, ra: RunResult, rb: RunResult)
    requires RanPrefix(hook, a, env, ra, |ra.executed|)
    requires |ra.executed| < |a| ==> rb == RunResult(ra.env, [], rb.threw)
    requires |ra.executed| == |a| ==> RanPrefix(hook, b, ra.env, rb, |rb.executed|)
    ensures var n := |ra.executed| + |rb.executed|;
      RanPrefix(hook, a + b, env, RunResult(rb.env, ra.executed + rb.executed, rb.threw), n)
  {
    var n := |ra.executed| + |rb.executed|;
    EnvAtSplit(hook, a, b, env, n);
    forall k | 0 <= k < n ensures !EnvAt(hook, a + b, env, k).done {
      EnvAtSplit(hook, a, b, env, k);
      if k >= |a| {
        assert !EnvAt(hook, b, ra.env, k - |a|).done;
      }
    }
    assert Names(a + b) == Names(a) + Names(b);
    assert ra.executed + rb.executed == Names(a + b)[..n];
  }

  /** The before and main handlers. */
  lemma RunTwo(hook: string, plan: Plan, env: Env) returns (r: RunResult)
    requires |plan.main| <= 1
    ensures var b := Run(hook, plan.before, env, false); var m := Run(hook, plan.main, b.env, true);
      r == RunResult(m.env, b.executed + m.executed, m.threw)
    ensures var n, bm := |r.executed|, plan.before + plan.main;
      && RanPrefix(hook, bm, env, r, n)
      && (n < |bm| ==> r.env.done)
      && (r.threw ==> n == |bm|)
      && (r.threw <==> n > |plan.before| && |plan.main| == 1 &&
                       Execute(hook, plan.main[0], EnvAt(hook, plan.before, env, |plan.before|)).threw)
  {
    var b := Run(hook, plan.before, env, false);
    RunLaw(hook, plan.before, env, false);
    var m := Run(hook, plan.main, b.env, true);
    RunLaw(hook, plan.main, b.env, true);
    if b.env.done {
      DoneRunsNothing(hook, plan.main, b.env, true);
    }
    PrefixJoin(hook, plan.before, plan.main, env, b, m);
    r := RunResult(m.env, b.executed + m.executed, m.threw);
    if |plan.main| == 1 && |m.executed| == 1 {
      assert EnvAt(hook, plan.main, b.env, 0) == b.env;
    }
  }

  lemma PlanLaw(hook: string, plan: Plan, env: Env)
    requires |plan.main| <= 1
    ensures var r := RunPlan(hook, plan, env); var n := |r.executed|;
      && RanPrefix(hook, plan.before + plan.main + plan.after, env, RunResult(r.env, r.executed, r.threw), n)
      && (n < |plan.before| + |plan.main| + |plan.after| ==> r.env.done || r.threw)
      && (r.threw <==> n > |plan.before| && |plan.main| == 1 &&
                       Execute(hook, plan.main[0], EnvAt(hook, plan.before, env, |plan.before|)).threw)
      && (r.threw ==> n == |plan.before| + 1)
      && (r.event ==> n == |plan.before| + |plan.main| + |plan.after|)
  {
    var bm := plan.before + plan.main;
    var r := RunTwo(hook, plan, env);
    if r.threw {
      PrefixJoin(hook, bm, plan.after, env, r, RunResult(r.env, [], true));
      assert r.executed + [] == r.executed;
    } else {
      RunLaw(hook, plan.after, r.env, false);
      if r.env.done {
        DoneRunsNothing(hook, plan.after, r.env, false);
      }
      PrefixJoin(hook, bm, plan.after, env, r, Run(hook, plan.after, r.env, false));
    }
  }

  /**
   * The dispatch law, for any registry, any handlers and any visit: the handlers executed are a
   * prefix of the snapshot's before, main and after handlers. It ends early only because the visit
   * is done or the main handler threw; errors of other handlers and changes to the registry play no
   * part. DOM events follow exactly if everything was executed and the visit is still not done.
   */
  lemma DispatchLaw(code: Code, hook: string, env: Env, def: Option<Behaviour>)
    ensures var plan := PlanOf(code, env.registry, hook, def);
      var all, r := plan.All(), Call(code, hook, env, def);
      var n := |r.executed|;
      && RanPrefix(hook, all, env, RunResult(r.env, r.executed, r.threw), n)
      && (n < |all| ==> r.env.done || r.threw)
      && (r.threw <==> n > |plan.before| && |plan.main| == 1 &&
                       Execute(hook, plan.main[0], EnvAt(hook, plan.before, env, |plan.before|)).threw)
      && (r.threw ==> n == |plan.before| + 1)
      && (r.event <==> n == |all| && !r.threw && !r.env.done)
  {
    PlanLaw(hook, PlanOf(code, env.registry, hook, def), env);
  }

  // ---- Who runs when ----

  /** `list` holds the before or the after registrations of the ledger, each once and in turn. */
  ghost predicate Turns(list: Ledger, names: seq<Option<Handler>>, ledger: Ledger, before: bool) {
    && |list| == |names| && (forall i | 0 <= i < |list| :: names[i] == Some(list[i].handler))
    && (forall r :: r in list <==> r in ledger && !r.options.replace && r.options.before == before)
    && (forall i, j | 0 <= i < j < |list| :: list[i] != list[j] && ComesFirst(ledger, list[i], list[j]))
  }

  ghost predicate InTurn(names: seq<Option<Handler>>, ledger: Ledger, before: bool) {
    exists list :: Turns(list, names, ledger, before)
  }

  /** The last of the replacing handlers. */
  ghost predicate IsOutermost(ledger: Ledger, top: Registration) {
    && top in ledger && top.options.replace
    && forall r | r in ledger && r.options.replace && r != top :: ComesFirst(ledger, r, top)
  }

  /** Only a hook with a default handler has a middle: that handler, or the last one replacing it. */
  ghost predicate InTheMiddle(names: seq<Option<Handler>>, ledger: Ledger, hasDefault: bool) {
    if !hasDefault then names == []
    else if forall r | r in ledger :: !r.options.replace then names == [None]
    else exists top :: IsOutermost(ledger, top) && names == [Some(top.handler)]
  }

  lemma PlainInTurn(code: Code, ledger: Ledger, before: bool)
    requires IsMap(ledger)
    ensures InTurn(Names(PlainTasks(code, if before then Befores(ledger) else Afters(ledger))), ledger, before)
  {
    SortedComesFirst(ledger, IsBefore);
    SortedComesFirst(ledger, IsAfter);
    var list := if before then Befores(ledger) else Afters(ledger);
    assert Turns(list, Names(PlainTasks(code, list)), ledger, before);
  }

  lemma MainInTheMiddle(code: Code, ledger: Ledger, def: Behaviour)
    requires IsMap(ledger)
    ensures InTheMiddle(Names([MainTask(code, Replacers(ledger), def)]), ledger, true)
  {
    SortedComesFirst(ledger, IsReplace);
    var reps, t := Replacers(ledger), MainTask(code, Replacers(ledger), def);
    if reps != [] {
      var top := reps[|reps| - 1];
      assert top in reps;
      assert IsOutermost(ledger, top) && Names([t]) == [Some(top.handler)];
    } else {
      assert forall r | r in ledger :: r !in reps;
      assert Names([t]) == [None];
    }
  }

  lemma ExecutedIsPrefix(code: Code, hook: string, env: Env, def: Option<Behaviour>)
    ensures var names, r := Names(PlanOf(code, env.registry, hook, def).All()), Call(code, hook, env, def);
      && r.executed <= names
      && (!r.env.done && !r.threw ==> r.executed == names)
  {
    DispatchLaw(code, hook, env, def);
  }

  lemma NamesOfAll(plan: Plan)
    ensures Names(plan.All()) == Names(plan.before) + Names(plan.main) + Names(plan.after)
  {}

  lemma PlanInTurn(code: Code, registry: Registry, hook: string, def: Option<Behaviour>)
    requires hook in registry && IsMap(registry[hook])
    ensures var plan, ledger := PlanOf(code, registry, hook, def), registry[hook];
      && InTurn(Names(plan.before), ledger, true) && InTurn(Names(plan.after), ledger, false)
      && InTheMiddle(Names(plan.main), ledger, def.Some?)
  {
    hide InTurn, MainTask;
    PlainInTurn(code, registry[hook], true);
    PlainInTurn(code, registry[hook], false);
    if def.Some? {
      MainInTheMiddle(code, registry[hook], def.value);
    }
  }

  /**
   * In a call, first the before registrations run, then the handler in the middle, then the after
   * registrations, each in turn: a complete call runs exactly these, one that is cut off a first part.
   */
  lemma CallOrder(code: Code, hook: string, env: Env, def: Option<Behaviour>)
    returns (before: seq<Option<Handler>>, middle: seq<Option<Handler>>, after: seq<Option<Handler>>)
    requires hook in env.registry && IsMap(env.registry[hook])
    ensures InTurn(before, env.registry[hook], true) && InTurn(after, env.registry[hook], false)
    ensures InTheMiddle(middle, env.registry[hook], def.Some?)
    ensures var r := Call(code, hook, env, def);
      && r.executed <= before + middle + after
      && (!r.env.done && !r.threw ==> r.executed == before + middle + after)
  {
    hide Call, InTurn, InTheMiddle, PlanOf;
    var plan := PlanOf(code, env.registry, hook, def);
    ExecutedIsPrefix(code, hook, env, def);
    PlanInTurn(code, env.registry, hook, def);
    NamesOfAll(plan);
    before, middle, after := Names(plan.before), Names(plan.main), Names(plan.after);
  }

  /** A handler ahead of the middle, in it, or behind it. */
  ghost predicate Fits(ledger: Ledger, name: Option<Handler>, side: int) {
    && (name.None? ==> side == 1)
    && forall r | r in ledger && name == Some(r.handler) ::
         side == if r.options.replace then 1 else if r.options.before then 0 else 2
  }

  lemma PlainFits(ledger: Ledger, names: seq<Option<Handler>>, before: bool, k: nat)
    requires IsMap(ledger) && InTurn(names, ledger, before) && k < |names|
    ensures Fits(ledger, names[k], if before then 0 else 2)
  {
    var list :| Turns(list, names, ledger, before);
    assert list[k] in list;
    forall r | r in ledger && names[k] == Some(r.handler) ensures r == list[k] {
      SameRegistration(ledger, r, list[k]);
    }
  }

  lemma MiddleFits(ledger: Ledger, names: seq<Option<Handler>>, hasDefault: bool)
    requires IsMap(ledger) && InTheMiddle(names, ledger, hasDefault)
    ensures |names| <= 1 && (names != [] ==> hasDefault && Fits(ledger, names[0], 1))
  {
    if names != [] && names[0].Some? {
      var top :| IsOutermost(ledger, top) && names == [Some(top.handler)];
      forall r | r in ledger && names[0] == Some(r.handler) ensures r == top {
        SameRegistration(ledger, r, top);
      }
    }
  }

  lemma SameRegistration(ledger: Ledger, a: Registration, b: Registration)
    requires IsMap(ledger) && a in ledger && b in ledger && a.handler == b.handler
    ensures a == b
  {}

  /** Whoever is executed stands on its side of the middle, which needs a default handler. */
  lemma ExecutedFits(code: Code, hook: string, env: Env, def: Option<Behaviour>) returns (p: nat, q: nat)
    requires hook in env.registry && IsMap(env.registry[hook])
    ensures p <= q <= p + 1 && (p < q ==> def.Some?)
    ensures var x := Call(code, hook, env, def).executed;
      forall i | 0 <= i < |x| :: Fits(env.registry[hook], x[i], if i < p then 0 else if i < q then 1 else 2)
  {
    hide Call, Fits, InTurn, InTheMiddle;
    var ledger := env.registry[hook];
    var before, middle, after := CallOrder(code, hook, env, def);
    MiddleFits(ledger, middle, def.Some?);
    p, q := |before|, |before| + |middle|;
    var x := Call(code, hook, env, def).executed;
    forall i | 0 <= i < |x| ensures Fits(ledger, x[i], if i < p then 0 else if i < q then 1 else 2) {
      assert x[i] == (before + middle + after)[i];
      if i < p {
        PlainFits(ledger, before, true, i);
      } else if i >= q {
        PlainFits(ledger, after, false, i - q);
      }
    }
  }

  /**
   * A handler registered to run before the default does so, and one registered without it runs after;
   * neither changes sides with a replacing handler, and those only run where there is a default.
   */
  lemma SidesAreKept(code: Code, hook: string, env: Env, def: Option<Behaviour>,
                     a: Registration, b: Registration, i: nat, j: nat)
    requires hook in env.registry && IsMap(env.registry[hook])
    requires a in env.registry[hook] && b in env.registry[hook]
    requires var x := Call(code, hook, env, def).executed; i < |x| && j < |x| && x[i] == Some(a.handler)
    ensures var x := Call(code, hook, env, def).executed;
      && (x[j] == Some(b.handler) && a.options.before && !a.options.replace && !b.options.before ==> i < j)
      && (x[j] == Some(b.handler) && a.options.before && !a.options.replace && b.options.replace ==> i < j)
      && (x[j] == Some(b.handler) && !a.options.before && !a.options.replace && b.options.replace ==> j < i)
      && (x[j].None? && !a.options.replace ==> (i < j <==> a.options.before))
      && (a.options.replace ==> def.Some?)
  {
    hide Call;
    var p, q := ExecutedFits(code, hook, env, def);
    var x := Call(code, hook, env, def).executed;
    assert Fits(env.registry[hook], x[i], if i < p then 0 else if i < q then 1 else 2);
    assert Fits(env.registry[hook], x[j], if j < p then 0 else if j < q then 1 else 2);
  }

  /** An unknown hook runs nothing, not even the default handler. */
  lemma UnknownHookRunsNothing(code: Code, hook: string, env: Env, def: Option<Behaviour>)
    requires hook !in env.registry
    ensures Call(code, hook, env, def) == CallResult(env, [], false, !env.done)
  {}

  // ---- The chain of replacing handlers ----

  function FoldLeft<A, B>(f: (A, B) -> A, init: A, xs: seq<B>): A {
    if xs == [] then init else FoldLeft(f, f(init, xs[0]), xs[1..])
  }

  function WrapIn(code: Code): (Behaviour, Registration) -> Behaviour {
    (inner: Behaviour, r: Registration) => Wrap(code.replacing(r.handler), inner)
  }

  lemma {:induction false} FoldLeftSnoc<A, B>(f: (A, B) -> A, init: A, xs: seq<B>, x: B)
    ensures FoldLeft(f, init, xs + [x]) == f(FoldLeft(f, init, xs), x)
  {
    if xs == [] {
      assert xs + [x] == [x];
      assert [x][1..] == [];
    } else {
      assert (xs + [x])[1..] == xs[1..] + [x];
      FoldLeftSnoc(f, f(init, xs[0]), xs[1..], x);
    }
  }

  lemma {:induction false} DefaultIsFold(code: Code, reps: Ledger, def: Behaviour, index: nat)
    requires index <= |reps|
    ensures CreateDefaultHandler(code, reps, def, index) == FoldLeft(WrapIn(code), def, reps[..index])
  {
    if index > 0 {
      DefaultIsFold(code, reps, def, index - 1);
      assert reps[..index] == reps[..index - 1] + [reps[index - 1]];
      FoldLeftSnoc(WrapIn(code), def, reps[..index - 1], reps[index - 1]);
    }
  }

  /** The main handler is the default handler wrapped by one replacer after the other. */
  lemma MainIsFold(code: Code, ledger: Ledger, def: Behaviour)
    ensures MainTask(code, Replacers(ledger), def).body == FoldLeft(WrapIn(code), def, Replacers(ledger))
  {
    var reps := Replacers(ledger);
    if reps != [] {
      var n := |reps| - 1;
      DefaultIsFold(code, reps, def, n);
      assert reps == reps[..n] + [reps[n]];
      FoldLeftSnoc(WrapIn(code), def, reps[..n], reps[n]);
    }
  }

  // ---- How often each replacer runs ----

  function Noted(env: Env, who: Option<Handler>): Env {
    env.(journal := env.journal + [who])
  }

  /** Runs `inner` a number of times, unless it throws. */
  function Repeat(inner: Behaviour, times: nat, env: Env): Effect {
    if times == 0 then Effect(env, false)
    else
      var effect := inner(env);
      if effect.threw then effect else Repeat(inner, times - 1, effect.env)
  }

  /** Handlers that note that they run; the replacer `h` delegates `d(h)` times. */
  function Delegating(d: Handler -> nat): Code {
    Code((h: Handler) => (env: Env) => Effect(Noted(env, Some(h)), false),
         (h: Handler) => (env: Env, inner: Behaviour) => Repeat(inner, d(h), Noted(env, Some(h))))
  }

  function NotingDefault(): Behaviour {
    (env: Env) => Effect(Noted(env, None), false)
  }

  /** The product of the delegation counts of a run of replacers. */
  function Product(d: Handler -> nat, reps: Ledger): nat {
    if reps == [] then 1 else d(reps[0].handler) * Product(d, reps[1..])
  }

  function Runs(env: Env, who: Option<Handler>): nat {
    multiset(env.journal)[who]
  }

  /** `body` never throws and makes `who` run `times` times. */
  ghost predicate RunsTimes(body: Behaviour, who: Option<Handler>, times: nat) {
    forall env :: !body(env).threw && Runs(body(env).env, who) == Runs(env, who) + times
  }

  lemma {:induction false} RepeatRuns(inner: Behaviour, n: nat, env: Env, who: Option<Handler>, times: nat)
    requires RunsTimes(inner, who, times)
    ensures !Repeat(inner, n, env).threw
    ensures Runs(Repeat(inner, n, env).env, who) == Runs(env, who) + n * times
    decreases n
  {
    if n > 0 {
      RepeatRuns(inner, n - 1, inner(env).env, who, times);
      assert n * times == times + (n - 1) * times;
    }
  }

  lemma WrapRuns(d: Handler -> nat, h: Handler, inner: Behaviour, who: Option<Handler>, times: nat)
    requires RunsTimes(inner, who, times)
    ensures RunsTimes(Wrap(Delegating(d).replacing(h), inner), who,
                      (if who == Some(h) then 1 else 0) + d(h) * times)
  {
    var body := Wrap(Delegating(d).replacing(h), inner);
    forall env
      ensures !body(env).threw
      ensures Runs(body(env).env, who)
           == Runs(env, who) + ((if who == Some(h) then 1 else 0) + d(h) * times)
    {
      var noted := Noted(env, Some(h));
      assert body(env) == Repeat(inner, d(h), noted);
      RepeatRuns(inner, d(h), noted, who, times);
    }
  }

  lemma {:induction false} ProductSnoc(d: Handler -> nat, reps: Ledger, r: Registration)
    ensures Product(d, reps + [r]) == d(r.handler) * Product(d, reps)
  {
    if reps == [] {
      assert reps + [r] == [r];
      assert [r][1..] == [];
    } else {
      assert (reps + [r])[1..] == reps[1..] + [r];
      ProductSnoc(d, reps[1..], r);
      var a, b, c := d(r.handler), d(reps[0].handler), Product(d, reps[1..]);
      assert b * (a * c) == a * (b * c);
    }
  }

  lemma {:induction false} FoldRunsDefault(d: Handler -> nat, reps: Ledger)
    ensures RunsTimes(FoldLeft(WrapIn(Delegating(d)), NotingDefault(), reps), None, Product(d, reps))
  {
    if reps != [] {
      var n := |reps| - 1;
      FoldRunsDefault(d, reps[..n]);
      assert reps == reps[..n] + [reps[n]];
      FoldLeftSnoc(WrapIn(Delegating(d)), NotingDefault(), reps[..n], reps[n]);
      ProductSnoc(d, reps[..n], reps[n]);
      WrapRuns(d, reps[n].handler, FoldLeft(WrapIn(Delegating(d)), NotingDefault(), reps[..n]), None,
               Product(d, reps[..n]));
    }
  }

  lemma {:induction false} FoldRunsOther(d: Handler -> nat, reps: Ledger, h: Handler)
    requires !Has(reps, h)
    ensures RunsTimes(FoldLeft(WrapIn(Delegating(d)), NotingDefault(), reps), Some(h), 0)
  {
    if reps != [] {
      var n := |reps| - 1;
      assert forall i | 0 <= i < n :: reps[..n][i] == reps[i];
      FoldRunsOther(d, reps[..n], h);
      assert reps == reps[..n] + [reps[n]];
      FoldLeftSnoc(WrapIn(Delegating(d)), NotingDefault(), reps[..n], reps[n]);
      assert reps[n].handler != h;
      WrapRuns(d, reps[n].handler, FoldLeft(WrapIn(Delegating(d)), NotingDefault(), reps[..n]), Some(h), 0);
    }
  }

  lemma {:induction false} FoldRunsReplacer(d: Handler -> nat, reps: Ledger, j: nat)
    requires IsMap(reps) && j < |reps|
    ensures RunsTimes(FoldLeft(WrapIn(Delegating(d)), NotingDefault(), reps), Some(reps[j].handler),
                      Product(d, reps[j + 1..]))
    decreases |reps|
  {
    var n, h := |reps| - 1, reps[j].handler;
    var init := reps[..n];
    assert reps == init + [reps[n]];
    FoldLeftSnoc(WrapIn(Delegating(d)), NotingDefault(), init, reps[n]);
    var inner := FoldLeft(WrapIn(Delegating(d)), NotingDefault(), init);
    if j == n {
      assert reps[j + 1..] == [];
      FoldRunsOther(d, init, h);
      WrapRuns(d, reps[n].handler, inner, Some(h), 0);
    } else {
      FoldRunsReplacer(d, init, j);
      assert reps[j + 1..] == init[j + 1..] + [reps[n]];
      ProductSnoc(d, init[j + 1..], reps[n]);
      assert init[j] == reps[j] && h != reps[n].handler;
      WrapRuns(d, reps[n].handler, inner, Some(h), Product(d, init[j + 1..]));
    }
  }

  /**
   * The replace chain, for any ledger and any delegation counts: each replacer runs as often as the
   * replacers outside of it delegate together, and the default handler as often as all of them do.
   */
  lemma ReplaceChain(d: Handler -> nat, ledger: Ledger)
    requires IsMap(ledger)
    ensures var reps := Replacers(ledger);
      var body := MainTask(Delegating(d), reps, NotingDefault()).body;
      && RunsTimes(body, None, Product(d, reps))
      && forall j | 0 <= j < |reps| :: RunsTimes(body, Some(reps[j].handler), Product(d, reps[j + 1..]))
  {
    var reps := Replacers(ledger);
    ListsAreMaps(ledger);
    MainIsFold(Delegating(d), ledger, NotingDefault());
    FoldRunsDefault(d, reps);
    forall j | 0 <= j < |reps|
      ensures RunsTimes(MainTask(Delegating(d), reps, NotingDefault()).body, Some(reps[j].handler),
                        Product(d, reps[j + 1..]))
    {
      FoldRunsReplacer(d, reps, j);
    }
  }
}
