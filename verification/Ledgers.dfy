// src/modules/Hooks.ts: the registrations of one hook, and the order in which they run.
module Ledgers {

  /** The identity of a handler function. */
  type Handler = nat

  datatype HookOptions = HookOptions(once: bool, before: bool, replace: bool, priority: real)

  datatype Registration = Registration(id: nat, handler: Handler, options: HookOptions)

  /** A `Map` from handlers to registrations, in insertion order. */
  type Ledger = seq<Registration>

  ghost predicate IsMap(ledger: Ledger) {
    forall i, j | 0 <= i < j < |ledger| :: ledger[i].handler != ledger[j].handler
  }

  predicate Has(ledger: Ledger, h: Handler) {
    exists i | 0 <= i < |ledger| :: ledger[i].handler == h
  }

  /** `Map.set`: an existing key keeps its place. */
  function Set(ledger: Ledger, r: Registration): Ledger {
    if ledger == [] then [r]
    else if ledger[0].handler == r.handler then [r] + ledger[1..]
    else [ledger[0]] + Set(ledger[1..], r)
  }

  /** `Map.delete` */
  function Delete(ledger: Ledger, h: Handler): (r: Ledger)
    ensures |r| <= |ledger|
  {
    if ledger == [] then []
    else if ledger[0].handler == h then ledger[1..]
    else [ledger[0]] + Delete(ledger[1..], h)
  }

  /** `hooks.on` for a known hook. */
  function On(ledger: Ledger, h: Handler, options: HookOptions): Ledger {
    Set(ledger, Registration(|ledger| + 1, h, options))
  }

  // ---- Order ----

  /** `sortRegistrations(a, b) <= 0` */
  predicate Leq(a: Registration, b: Registration) {
    a.options.priority < b.options.priority || (a.options.priority == b.options.priority && a.id <= b.id)
  }

  function Insert(r: Registration, sorted: Ledger): Ledger {
    if sorted == [] || Leq(r, sorted[0]) then [r] + sorted
    else [sorted[0]] + Insert(r, sorted[1..])
  }

  /** `Array.prototype.sort` with `sortRegistrations`: stable. */
  function Sort(ledger: Ledger): Ledger {
    if ledger == [] then [] else Insert(ledger[0], Sort(ledger[1..]))
  }

  predicate IsBefore(r: Registration) { r.options.before && !r.options.replace }
  predicate IsReplace(r: Registration) { r.options.replace }
  predicate IsAfter(r: Registration) { !r.options.before && !r.options.replace }

  function Filter(ledger: Ledger, keep: Registration -> bool): Ledger {
    if ledger == [] then []
    else if keep(ledger[0]) then [ledger[0]] + Filter(ledger[1..], keep)
    else Filter(ledger[1..], keep)
  }

  function Befores(ledger: Ledger): Ledger { Sort(Filter(ledger, IsBefore)) }
  function Replacers(ledger: Ledger): Ledger { Sort(Filter(ledger, IsReplace)) }
  function Afters(ledger: Ledger): Ledger { Sort(Filter(ledger, IsAfter)) }

  ghost predicate Sorted(ledger: Ledger) {
    forall i, j | 0 <= i < j < |ledger| :: Leq(ledger[i], ledger[j])
  }

  lemma {:induction false} InsertSorted(r: Registration, s: Ledger)
    requires Sorted(s)
    ensures Sorted(Insert(r, s))
    ensures multiset(Insert(r, s)) == multiset(s) + multiset{r}
    ensures |Insert(r, s)| == |s| + 1
  {
    if s == [] || Leq(r, s[0]) {
      SortedCons(r, s);
    } else {
      assert s == [s[0]] + s[1..];
      InsertSorted(r, s[1..]);
      var t := Insert(r, s[1..]);
      assert t[0] in multiset(t);
      SortedCons(s[0], t);
    }
  }

  /** A list is sorted once its head is below the next element and the rest is sorted. */
  lemma SortedCons(r: Registration, s: Ledger)
    requires Sorted(s) && (s != [] ==> Leq(r, s[0]))
    ensures Sorted([r] + s)
  {}

  lemma {:induction false} SortSorts(ledger: Ledger)
    ensures Sorted(Sort(ledger)) && multiset(Sort(ledger)) == multiset(ledger)
    ensures |Sort(ledger)| == |ledger|
  {
    if ledger != [] {
      var t := Sort(ledger[1..]);
      SortSorts(ledger[1..]);
      InsertSorted(ledger[0], t);
      assert multiset(ledger) == multiset(ledger[1..]) + multiset{ledger[0]} by {
        assert ledger == [ledger[0]] + ledger[1..];
      }
    }
  }

  lemma {:induction false} FilterPartition(ledger: Ledger)
    ensures multiset(Filter(ledger, IsBefore)) + multiset(Filter(ledger, IsReplace)) + multiset(Filter(ledger, IsAfter))
         == multiset(ledger)
  {
    if ledger != [] {
      FilterPartition(ledger[1..]);
      assert ledger == [ledger[0]] + ledger[1..];
    }
  }

  lemma {:induction false} FilterOnly(ledger: Ledger, keep: Registration -> bool)
    ensures forall r | r in Filter(ledger, keep) :: keep(r) && r in ledger
    ensures forall r | r in ledger && keep(r) :: r in Filter(ledger, keep)
  {
    if ledger != [] {
      FilterOnly(ledger[1..], keep);
    }
  }

  /** The three lists are sorted, share nothing, and together hold each registration as often as the ledger. */
  lemma HandlersPartitionLedger(ledger: Ledger)
    ensures Sorted(Befores(ledger)) && Sorted(Replacers(ledger)) && Sorted(Afters(ledger))
    ensures multiset(Befores(ledger)) + multiset(Replacers(ledger)) + multiset(Afters(ledger)) == multiset(ledger)
    ensures forall r | r in Befores(ledger) :: IsBefore(r)
    ensures forall r | r in Replacers(ledger) :: IsReplace(r)
    ensures forall r | r in Afters(ledger) :: IsAfter(r)
  {
    FilterPartition(ledger);
    SortMembers(Filter(ledger, IsBefore));
    SortMembers(Filter(ledger, IsReplace));
    SortMembers(Filter(ledger, IsAfter));
    FilterOnly(ledger, IsBefore);
    FilterOnly(ledger, IsReplace);
    FilterOnly(ledger, IsAfter);
  }

  lemma SortMembers(ledger: Ledger)
    ensures Sorted(Sort(ledger)) && multiset(Sort(ledger)) == multiset(ledger)
    ensures forall r :: r in Sort(ledger) <==> r in ledger
  {
    SortSorts(ledger);
    forall r ensures r in Sort(ledger) <==> r in ledger {
      assert r in multiset(Sort(ledger)) <==> r in multiset(ledger);
    }
  }

  // ---- Stability ----

  predicate SameKey(a: Registration, b: Registration) {
    a.options.priority == b.options.priority && a.id == b.id
  }

  function Matching(key: Registration): Registration -> bool {
    (x: Registration) => SameKey(x, key)
  }

  lemma {:induction false} InsertStable(r: Registration, s: Ledger, key: Registration)
    ensures Filter(Insert(r, s), Matching(key))
         == if SameKey(r, key) then [r] + Filter(s, Matching(key)) else Filter(s, Matching(key))
  {
    if s == [] || Leq(r, s[0]) {
      assert ([r] + s)[1..] == s;
    } else {
      InsertStable(r, s[1..], key);
      var t := Insert(r, s[1..]);
      assert ([s[0]] + t)[1..] == t;
    }
  }

  /** Registrations with the same priority and id keep the order in which they were inserted. */
  lemma {:induction false} SortStable(ledger: Ledger, key: Registration)
    ensures Filter(Sort(ledger), Matching(key)) == Filter(ledger, Matching(key))
  {
    if ledger != [] {
      SortStable(ledger[1..], key);
      InsertStable(ledger[0], Sort(ledger[1..]), key);
    }
  }

  // ---- Registration order ----

  lemma {:induction false} SetNew(ledger: Ledger, r: Registration)
    requires !Has(ledger, r.handler)
    ensures Set(ledger, r) == ledger + [r]
  {
    if ledger != [] {
      assert ledger[0].handler != r.handler;
      forall i | 0 <= i < |ledger| - 1 ensures ledger[1..][i].handler != r.handler {
        assert ledger[1..][i] == ledger[i + 1];
      }
      SetNew(ledger[1..], r);
    }
  }

  /** Registering a known handler again replaces its registration where it stands, under a new id. */
  lemma {:induction false} OnReplacesInPlace(ledger: Ledger, r: Registration) returns (k: nat)
    requires Has(ledger, r.handler)
    ensures k < |ledger| && ledger[k].handler == r.handler && Set(ledger, r) == ledger[k := r]
  {
    assert ledger == [ledger[0]] + ledger[1..];
    if ledger[0].handler == r.handler {
      k := 0;
    } else {
      HasCons(ledger[0], ledger[1..], r.handler);
      var j := OnReplacesInPlace(ledger[1..], r);
      k := j + 1;
    }
  }

  datatype OnCall = OnCall(handler: Handler, options: HookOptions)

  function AfterOns(ledger: Ledger, calls: seq<OnCall>): Ledger
    decreases |calls|
  {
    if calls == [] then ledger else AfterOns(On(ledger, calls[0].handler, calls[0].options), calls[1..])
  }

  lemma {:induction false} OnsAppend(ledger: Ledger, calls: seq<OnCall>)
    requires forall i, j | 0 <= i < j < |calls| :: calls[i].handler != calls[j].handler
    requires forall c | c in calls :: !Has(ledger, c.handler)
    ensures var r := AfterOns(ledger, calls);
      && |r| == |ledger| + |calls| && r[..|ledger|] == ledger
      && forall k | 0 <= k < |calls| ::
           r[|ledger| + k] == Registration(|ledger| + k + 1, calls[k].handler, calls[k].options)
    decreases |calls|
  {
    if calls != [] {
      var next := On(ledger, calls[0].handler, calls[0].options);
      SetNew(ledger, Registration(|ledger| + 1, calls[0].handler, calls[0].options));
      forall c | c in calls[1..] ensures !Has(next, c.handler) {
        var j :| 0 <= j < |calls| - 1 && calls[1..][j] == c;
        assert calls[j + 1] == c && calls[0].handler != c.handler;
        assert c in calls;
      }
      OnsAppend(next, calls[1..]);
      var r := AfterOns(next, calls[1..]);
      assert r[..|ledger|] == r[..|next|][..|ledger|];
      assert r[|ledger|] == r[..|next|][|ledger|];
      forall k | 0 < k < |calls|
        ensures r[|ledger| + k] == Registration(|ledger| + k + 1, calls[k].handler, calls[k].options)
      {
        assert r[|next| + (k - 1)] == Registration(|next| + (k - 1) + 1, calls[1..][k - 1].handler, calls[1..][k - 1].options);
      }
    }
  }

  /** The registration that `a` denotes was made before the one that `b` denotes. */
  ghost predicate RegisteredBefore(ledger: Ledger, a: Registration, b: Registration) {
    exists m, n :: 0 <= m < n < |ledger| && ledger[m] == a && ledger[n] == b
  }

  /** Of the handlers that run, those of one priority run in the order in which they were registered. */
  ghost predicate RunsInOrder(ledger: Ledger, keep: Registration -> bool) {
    var list := Sort(Filter(ledger, keep));
    forall i, j | 0 <= i < j < |list| && list[i].options.priority == list[j].options.priority ::
      RegisteredBefore(ledger, list[i], list[j])
  }

  /** Within a priority no later registration has a smaller id. */
  ghost predicate IdsInOrder(ledger: Ledger, keep: Registration -> bool) {
    forall m, n | 0 <= m < n < |ledger| && keep(ledger[m]) && keep(ledger[n]) ::
      ledger[m].options.priority == ledger[n].options.priority ==> ledger[m].id <= ledger[n].id
  }

  lemma {:induction false} FilterKeepsOrder(ledger: Ledger, keep: Registration -> bool, m: nat, n: nat)
    requires m < n < |ledger| && keep(ledger[m]) && keep(ledger[n])
    ensures RegisteredBefore(Filter(ledger, keep), ledger[m], ledger[n])
  {
    var t := Filter(ledger[1..], keep);
    if m == 0 {
      FilterOnly(ledger[1..], keep);
      assert ledger[n] in ledger[1..];
      var k :| 0 <= k < |t| && t[k] == ledger[n];
      var kept := Filter(ledger, keep);
      assert kept == [ledger[0]] + t && kept[0] == ledger[m] && kept[k + 1] == ledger[n];
    } else {
      FilterKeepsOrder(ledger[1..], keep, m - 1, n - 1);
      var i, j :| 0 <= i < j < |t| && t[i] == ledger[m] && t[j] == ledger[n];
      if keep(ledger[0]) {
        assert ([ledger[0]] + t)[i + 1] == ledger[m] && ([ledger[0]] + t)[j + 1] == ledger[n];
      }
    }
  }

  /** In a map nothing is registered both before and after something else. */
  lemma BeforeIsStrict(ledger: Ledger, a: Registration, b: Registration)
    requires IsMap(ledger) && RegisteredBefore(ledger, a, b)
    ensures !RegisteredBefore(ledger, b, a)
  {
    var m, n :| 0 <= m < n < |ledger| && ledger[m] == a && ledger[n] == b;
    forall p, q | 0 <= p < q < |ledger| ensures !(ledger[p] == b && ledger[q] == a) {
      if ledger[p] == b {
        assert p == n;
      }
    }
  }

  /** Registrations with the same priority and id run in the order in which they were registered. */
  lemma EqualKeysRunInOrder(ledger: Ledger, keep: Registration -> bool, i: nat, j: nat, m: nat, n: nat)
    requires IsMap(ledger) && m < n < |ledger| && keep(ledger[m]) && keep(ledger[n])
    requires SameKey(ledger[m], ledger[n])
    requires var list := Sort(Filter(ledger, keep));
      i < |list| && j < |list| && list[i] == ledger[m] && list[j] == ledger[n]
    ensures i < j
  {
    var kept, key := Filter(ledger, keep), Matching(ledger[m]);
    var list := Sort(kept);
    FilterIsMap(ledger, keep);
    SortIsMap(kept);
    FilterIsMap(kept, key);
    FilterKeepsOrder(ledger, keep, m, n);
    var p, q :| 0 <= p < q < |kept| && kept[p] == ledger[m] && kept[q] == ledger[n];
    FilterKeepsOrder(kept, key, p, q);
    SortStable(kept, ledger[m]);
    assert Filter(list, key) == Filter(kept, key);
    BeforeIsStrict(Filter(kept, key), ledger[m], ledger[n]);
    if j < i {
      FilterKeepsOrder(list, key, j, i);
    }
    assert ledger[m].handler != ledger[n].handler;
  }

  /** The ids being in order, a smaller id was registered earlier. */
  lemma SmallerIdRegisteredFirst(ledger: Ledger, keep: Registration -> bool, a: Registration, b: Registration)
    requires IsMap(ledger) && IdsInOrder(ledger, keep)
    requires a in ledger && b in ledger && keep(a) && keep(b)
    requires a.options.priority == b.options.priority && a.id < b.id
    ensures RegisteredBefore(ledger, a, b)
  {
    var m :| 0 <= m < |ledger| && ledger[m] == a;
    var n :| 0 <= n < |ledger| && ledger[n] == b;
  }

  lemma PairRunsInOrder(ledger: Ledger, keep: Registration -> bool, i: nat, j: nat)
    requires IsMap(ledger) && IdsInOrder(ledger, keep)
    requires var list := Sort(Filter(ledger, keep));
      i < j < |list| && list[i].options.priority == list[j].options.priority
    ensures var list := Sort(Filter(ledger, keep)); RegisteredBefore(ledger, list[i], list[j])
  {
    var list := Sort(Filter(ledger, keep));
    SortedComesFirst(ledger, keep);
    hide Sort, IdsInOrder, IsMap;
    assert list[i] in list && list[j] in list;
    if list[i].id < list[j].id {
      SmallerIdRegisteredFirst(ledger, keep, list[i], list[j]);
    }
  }

  lemma SmallerIdRunsFirst(ledger: Ledger, keep: Registration -> bool, m: nat, n: nat)
    requires IsMap(ledger) && m < n < |ledger| && keep(ledger[m]) && keep(ledger[n])
    requires ledger[m].options.priority == ledger[n].options.priority && ledger[n].id < ledger[m].id
    ensures !RunsInOrder(ledger, keep)
  {
    var list := Sort(Filter(ledger, keep));
    SortMembers(Filter(ledger, keep));
    FilterOnly(ledger, keep);
    assert ledger[m] in list && ledger[n] in list;
    var i :| 0 <= i < |list| && list[i] == ledger[m];
    var j :| 0 <= j < |list| && list[j] == ledger[n];
    assert Sorted(list) && !Leq(list[i], list[j]);
    assert j < i;
    assert RegisteredBefore(ledger, list[i], list[j]);
    BeforeIsStrict(ledger, list[i], list[j]);
  }

  /** For any ledger, handlers of one priority run in registration order exactly if their ids are in order. */
  lemma RunsInOrderIff(ledger: Ledger, keep: Registration -> bool)
    requires IsMap(ledger)
    ensures RunsInOrder(ledger, keep) <==> IdsInOrder(ledger, keep)
  {
    if IdsInOrder(ledger, keep) {
      var list := Sort(Filter(ledger, keep));
      forall i, j | 0 <= i < j < |list| && list[i].options.priority == list[j].options.priority
        ensures RegisteredBefore(ledger, list[i], list[j])
      {
        PairRunsInOrder(ledger, keep, i, j);
      }
    } else {
      var m, n :| 0 <= m < n < |ledger| && keep(ledger[m]) && keep(ledger[n])
                  && ledger[m].options.priority == ledger[n].options.priority && ledger[n].id < ledger[m].id;
      SmallerIdRunsFirst(ledger, keep, m, n);
    }
  }

  /**
   * After any number of `on` calls with different handlers, each list runs by priority and, within a
   * priority, in the order of registration.
   */
  lemma OnsRunInOrder(calls: seq<OnCall>, keep: Registration -> bool)
    requires forall i, j | 0 <= i < j < |calls| :: calls[i].handler != calls[j].handler
    ensures var ledger := AfterOns([], calls);
      && |ledger| == |calls|
      && (forall k | 0 <= k < |calls| :: ledger[k].handler == calls[k].handler && ledger[k].options == calls[k].options)
      && RunsInOrder(ledger, keep) && Sorted(Sort(Filter(ledger, keep)))
  {
    OnsAppend([], calls);
    var ledger := AfterOns([], calls);
    var none: Ledger := [];
    forall k | 0 <= k < |calls|
      ensures ledger[k] == Registration(k + 1, calls[k].handler, calls[k].options)
    {
      assert ledger[|none| + k] == Registration(|none| + k + 1, calls[k].handler, calls[k].options);
    }
    RunsInOrderIff(ledger, keep);
    SortSorts(Filter(ledger, keep));
  }

  /** The order that `getHandlers` gives to two registrations. */
  ghost predicate ComesFirst(ledger: Ledger, a: Registration, b: Registration) {
    || a.options.priority < b.options.priority
    || (a.options.priority == b.options.priority && a.id < b.id)
    || (a.options.priority == b.options.priority && a.id == b.id && RegisteredBefore(ledger, a, b))
  }

  /** By priority, then id, then registration; and nobody twice. */
  lemma SortedComesFirst(ledger: Ledger, keep: Registration -> bool)
    requires IsMap(ledger)
    ensures var list := Sort(Filter(ledger, keep));
      && (forall r :: r in list <==> r in ledger && keep(r))
      && forall i, j | 0 <= i < j < |list| :: list[i] != list[j] && ComesFirst(ledger, list[i], list[j])
  {
    var list := Sort(Filter(ledger, keep));
    SortMembers(Filter(ledger, keep));
    FilterOnly(ledger, keep);
    FilterIsMap(ledger, keep);
    SortIsMap(Filter(ledger, keep));
    forall i, j | 0 <= i < j < |list| ensures list[i] != list[j] && ComesFirst(ledger, list[i], list[j]) {
      var a, b := list[i], list[j];
      assert a in list && b in list && Leq(a, b) && a.handler != b.handler;
      var m :| 0 <= m < |ledger| && ledger[m] == a;
      var n :| 0 <= n < |ledger| && ledger[n] == b;
      if SameKey(a, b) && n < m {
        EqualKeysRunInOrder(ledger, keep, j, i, n, m);
      }
    }
  }

  // ---- Order after removals ----

  /** No registration of the priority of `r` has a greater id. */
  ghost predicate Newest(ledger: Ledger, keep: Registration -> bool, r: Registration) {
    forall x | x in ledger && keep(x) && x.options.priority == r.options.priority :: x.id <= r.id
  }

  lemma AppendedInOrderIff(ledger: Ledger, keep: Registration -> bool, r: Registration)
    requires IdsInOrder(ledger, keep)
    ensures IdsInOrder(ledger + [r], keep) <==> (keep(r) ==> Newest(ledger, keep, r))
  {
    var all := ledger + [r];
    if keep(r) && IdsInOrder(all, keep) {
      forall x | x in ledger && keep(x) && x.options.priority == r.options.priority ensures x.id <= r.id {
        var m :| 0 <= m < |ledger| && ledger[m] == x;
        assert all[m] == x && all[|ledger|] == r;
      }
    }
    if keep(r) ==> Newest(ledger, keep, r) {
      forall m, n | 0 <= m < n < |all| && keep(all[m]) && keep(all[n])
        ensures all[m].options.priority == all[n].options.priority ==> all[m].id <= all[n].id
      {
        assert all[m] == ledger[m] && ledger[m] in ledger;
        if n < |ledger| {
          assert all[n] == ledger[n];
        }
      }
    }
  }

  /**
   * A new handler runs after the earlier ones of its priority exactly if none of them has an id above the
   * new one, which is the number of registrations left plus one. Removals can bring that about.
   */
  lemma OnKeepsOrderIff(ledger: Ledger, keep: Registration -> bool, h: Handler, options: HookOptions)
    requires IsMap(ledger) && !Has(ledger, h) && RunsInOrder(ledger, keep)
    ensures var r := Registration(|ledger| + 1, h, options);
      RunsInOrder(On(ledger, h, options), keep) <==> (keep(r) ==> Newest(ledger, keep, r))
  {
    var r := Registration(|ledger| + 1, h, options);
    SetNew(ledger, r);
    SetIsMap(ledger, r);
    RunsInOrderIff(ledger, keep);
    AppendedInOrderIff(ledger, keep, r);
    RunsInOrderIff(ledger + [r], keep);
  }

  lemma {:induction false} DeleteSplits(ledger: Ledger, h: Handler) returns (k: nat)
    requires Has(ledger, h)
    ensures k < |ledger| && Delete(ledger, h) == ledger[..k] + ledger[k + 1..]
  {
    assert ledger == [ledger[0]] + ledger[1..];
    if ledger[0].handler == h {
      k := 0;
    } else {
      HasCons(ledger[0], ledger[1..], h);
      var j := DeleteSplits(ledger[1..], h);
      k := j + 1;
      assert ledger[..k] + ledger[k + 1..] == [ledger[0]] + (ledger[1..][..j] + ledger[1..][j + 1..]);
    }
  }

  /** A removal alone changes nobody's turn. */
  lemma OffKeepsOrder(ledger: Ledger, keep: Registration -> bool, h: Handler)
    requires IsMap(ledger) && RunsInOrder(ledger, keep)
    ensures RunsInOrder(Delete(ledger, h), keep)
  {
    DeleteIsWithout(ledger, h);
    WithoutIsMap(ledger, {h});
    RunsInOrderIff(ledger, keep);
    if Has(ledger, h) {
      var k := DeleteSplits(ledger, h);
      var r := Delete(ledger, h);
      forall m, n | 0 <= m < n < |r| && keep(r[m]) && keep(r[n])
        ensures r[m].options.priority == r[n].options.priority ==> r[m].id <= r[n].id
      {
        var p, q := if m < k then m else m + 1, if n < k then n else n + 1;
        assert r[m] == ledger[p] && r[n] == ledger[q];
      }
    } else {
      WithoutNone(ledger, h);
    }
    RunsInOrderIff(Delete(ledger, h), keep);
  }

  /** Two handlers, the first removed: the id of a third repeats that of the second, and the order is kept. */
  lemma RepeatedIdKeepsOrder(options: HookOptions, keep: Registration -> bool)
    ensures var ledger := On(Delete(On(On([], 1, options), 2, options), 1), 3, options);
      && ledger == [Registration(2, 2, options), Registration(2, 3, options)]
      && RunsInOrder(ledger, keep)
  {
    var a, b, c := Registration(1, 1, options), Registration(2, 2, options), Registration(2, 3, options);
    SetNew([], a);
    SetNew([a], b);
    assert [a] + [b] == [a, b];
    assert Delete([a, b], 1) == [b];
    SetNew([b], c);
    assert [b] + [c] == [b, c];
    RunsInOrderIff([b, c], keep);
  }

  /** Three handlers, the first two removed: a fourth runs before the third. */
  lemma RemovalInvertsOrder(options: HookOptions, keep: Registration -> bool)
    ensures var ledger := On(Delete(Delete(On(On(On([], 1, options), 2, options), 3, options), 1), 2), 4, options);
      && ledger == [Registration(3, 3, options), Registration(2, 4, options)]
      && Sort(ledger) == [Registration(2, 4, options), Registration(3, 3, options)]
      && (keep(ledger[0]) && keep(ledger[1]) ==> !RunsInOrder(ledger, keep))
  {
    var a, b, c := Registration(1, 1, options), Registration(2, 2, options), Registration(3, 3, options);
    var d := Registration(2, 4, options);
    SetNew([], a);
    SetNew([a], b);
    SetNew([a, b], c);
    assert [a] + [b] + [c] == [a, b, c];
    assert Delete([a, b, c], 1) == [b, c];
    assert Delete([b, c], 2) == [c];
    SetNew([c], d);
    assert [d][1..] == [] && [c, d][1..] == [d];
    assert Insert(c, []) == [c] && !Leq(c, d);
    assert Sort([d]) == [d];
    assert Sort([c, d]) == Insert(c, [d]) == [d] + [c];
    if keep(c) && keep(d) {
      SmallerIdRunsFirst([c, d], keep, 0, 1);
    }
  }

  // ---- Removing handlers ----

  /** The ledger without the registrations of some handlers. */
  function Without(ledger: Ledger, hs: set<Handler>): Ledger {
    if ledger == [] then []
    else if ledger[0].handler in hs then Without(ledger[1..], hs)
    else [ledger[0]] + Without(ledger[1..], hs)
  }

  lemma {:induction false} WithoutHas(ledger: Ledger, hs: set<Handler>, h: Handler)
    ensures Has(Without(ledger, hs), h) <==> Has(ledger, h) && h !in hs
  {
    if ledger != [] {
      var t := Without(ledger[1..], hs);
      WithoutHas(ledger[1..], hs, h);
      HasCons(ledger[0], ledger[1..], h);
      HasCons(ledger[0], t, h);
      assert ledger == [ledger[0]] + ledger[1..];
    }
  }

  lemma HasCons(r: Registration, ledger: Ledger, h: Handler)
    ensures Has([r] + ledger, h) <==> r.handler == h || Has(ledger, h)
  {
    var s := [r] + ledger;
    if Has(ledger, h) {
      var i :| 0 <= i < |ledger| && ledger[i].handler == h;
      assert s[i + 1].handler == h;
    }
    if r.handler == h {
      assert s[0].handler == h;
    }
  }

  lemma IsMapCons(r: Registration, ledger: Ledger)
    ensures IsMap([r] + ledger) <==> !Has(ledger, r.handler) && IsMap(ledger)
  {
    var s := [r] + ledger;
    if IsMap(s) {
      forall i | 0 <= i < |ledger| ensures ledger[i].handler != r.handler {
        assert s[i + 1] == ledger[i] && s[0] == r;
      }
      forall i, j | 0 <= i < j < |ledger| ensures ledger[i].handler != ledger[j].handler {
        assert s[i + 1] == ledger[i] && s[j + 1] == ledger[j];
      }
    }
  }

  lemma {:induction false} WithoutIsMap(ledger: Ledger, hs: set<Handler>)
    requires IsMap(ledger)
    ensures IsMap(Without(ledger, hs))
  {
    if ledger != [] {
      assert ledger == [ledger[0]] + ledger[1..];
      IsMapCons(ledger[0], ledger[1..]);
      WithoutIsMap(ledger[1..], hs);
      WithoutHas(ledger[1..], hs, ledger[0].handler);
      IsMapCons(ledger[0], Without(ledger[1..], hs));
    }
  }

  lemma {:induction false} WithoutNone(ledger: Ledger, h: Handler)
    requires !Has(ledger, h)
    ensures Without(ledger, {h}) == ledger
  {
    if ledger != [] {
      assert ledger == [ledger[0]] + ledger[1..];
      HasCons(ledger[0], ledger[1..], h);
      WithoutNone(ledger[1..], h);
    }
  }

  lemma {:induction false} DeleteIsWithout(ledger: Ledger, h: Handler)
    requires IsMap(ledger)
    ensures Delete(ledger, h) == Without(ledger, {h})
  {
    if ledger != [] {
      assert ledger == [ledger[0]] + ledger[1..];
      IsMapCons(ledger[0], ledger[1..]);
      if ledger[0].handler == h {
        WithoutNone(ledger[1..], h);
      } else {
        DeleteIsWithout(ledger[1..], h);
      }
    }
  }

  lemma {:induction false} WithoutTwice(ledger: Ledger, a: set<Handler>, b: set<Handler>)
    ensures Without(Without(ledger, a), b) == Without(ledger, a + b)
  {
    if ledger != [] {
      WithoutTwice(ledger[1..], a, b);
      var t := Without(ledger[1..], a);
      if ledger[0].handler !in a {
        assert Without(ledger, a) == [ledger[0]] + t;
        assert ([ledger[0]] + t)[1..] == t;
      }
    }
  }

  lemma {:induction false} WithoutEmpty(ledger: Ledger)
    ensures Without(ledger, {}) == ledger
  {
    if ledger != [] {
      WithoutEmpty(ledger[1..]);
    }
  }

  lemma {:induction false} InsertIsMap(r: Registration, s: Ledger)
    requires IsMap(s) && !Has(s, r.handler)
    ensures IsMap(Insert(r, s))
    ensures forall h :: Has(Insert(r, s), h) <==> h == r.handler || Has(s, h)
  {
    if s == [] || Leq(r, s[0]) {
      IsMapCons(r, s);
      forall h ensures Has(Insert(r, s), h) <==> h == r.handler || Has(s, h) {
        HasCons(r, s, h);
      }
    } else {
      assert s == [s[0]] + s[1..];
      IsMapCons(s[0], s[1..]);
      HasCons(s[0], s[1..], r.handler);
      InsertIsMap(r, s[1..]);
      IsMapCons(s[0], Insert(r, s[1..]));
      forall h ensures Has(Insert(r, s), h) <==> h == r.handler || Has(s, h) {
        HasCons(s[0], Insert(r, s[1..]), h);
        HasCons(s[0], s[1..], h);
      }
    }
  }

  lemma {:induction false} SortIsMap(ledger: Ledger)
    requires IsMap(ledger)
    ensures IsMap(Sort(ledger)) && forall h :: Has(Sort(ledger), h) <==> Has(ledger, h)
  {
    if ledger != [] {
      assert ledger == [ledger[0]] + ledger[1..];
      IsMapCons(ledger[0], ledger[1..]);
      SortIsMap(ledger[1..]);
      InsertIsMap(ledger[0], Sort(ledger[1..]));
      forall h ensures Has(Sort(ledger), h) <==> Has(ledger, h) {
        HasCons(ledger[0], ledger[1..], h);
      }
    }
  }

  lemma {:induction false} FilterIsMap(ledger: Ledger, keep: Registration -> bool)
    requires IsMap(ledger)
    ensures IsMap(Filter(ledger, keep)) && forall h :: Has(Filter(ledger, keep), h) ==> Has(ledger, h)
  {
    if ledger != [] {
      assert ledger == [ledger[0]] + ledger[1..];
      IsMapCons(ledger[0], ledger[1..]);
      var t := Filter(ledger[1..], keep);
      FilterIsMap(ledger[1..], keep);
      IsMapCons(ledger[0], t);
      forall h | Has(Filter(ledger, keep), h) ensures Has(ledger, h) {
        HasCons(ledger[0], ledger[1..], h);
        HasCons(ledger[0], t, h);
      }
    }
  }

  lemma ListsAreMaps(ledger: Ledger)
    requires IsMap(ledger)
    ensures IsMap(Befores(ledger)) && IsMap(Replacers(ledger)) && IsMap(Afters(ledger))
  {
    FilterIsMap(ledger, IsBefore);
    FilterIsMap(ledger, IsReplace);
    FilterIsMap(ledger, IsAfter);
    SortIsMap(Filter(ledger, IsBefore));
    SortIsMap(Filter(ledger, IsReplace));
    SortIsMap(Filter(ledger, IsAfter));
  }

  lemma {:induction false} SetIsMap(ledger: Ledger, r: Registration)
    requires IsMap(ledger)
    ensures IsMap(Set(ledger, r)) && forall h :: Has(Set(ledger, r), h) <==> h == r.handler || Has(ledger, h)
  {
    if ledger == [] {
      forall h ensures Has(Set(ledger, r), h) <==> h == r.handler || Has(ledger, h) {
        HasCons(r, [], h);
        assert [r] + [] == [r];
      }
    } else {
      var x, t := ledger[0], ledger[1..];
      assert ledger == [x] + t;
      IsMapCons(x, t);
      if x.handler == r.handler {
        IsMapCons(r, t);
      } else {
        SetIsMap(t, r);
        IsMapCons(x, Set(t, r));
      }
      forall h ensures Has(Set(ledger, r), h) <==> h == r.handler || Has(ledger, h) {
        HasCons(x, t, h);
        HasCons(r, t, h);
        HasCons(x, Set(t, r), h);
      }
    }
  }

  lemma {:induction false} WithoutMembers(ledger: Ledger, hs: set<Handler>)
    ensures forall r :: r in Without(ledger, hs) <==> r in ledger && r.handler !in hs
  {
    if ledger != [] {
      WithoutMembers(ledger[1..], hs);
      assert ledger == [ledger[0]] + ledger[1..];
    }
  }

  lemma {:induction false} InsertWithout(r: Registration, s: Ledger, hs: set<Handler>)
    requires Sorted(s)
    ensures Without(Insert(r, s), hs)
         == if r.handler in hs then Without(s, hs) else Insert(r, Without(s, hs))
  {
    if s == [] || Leq(r, s[0]) {
      assert ([r] + s)[1..] == s;
      WithoutMembers(s, hs);
      var t := Without(s, hs);
      if t != [] {
        assert t[0] in t;
        assert Leq(r, t[0]);
      }
    } else {
      var t := Insert(r, s[1..]);
      assert ([s[0]] + t)[1..] == t;
      InsertWithout(r, s[1..], hs);
      var u := Without(s[1..], hs);
      assert ([s[0]] + u)[1..] == u;
      if s[0].handler in hs && r.handler !in hs {
        assert Without(s, hs) == u;
      }
    }
  }

  lemma {:induction false} SortWithout(ledger: Ledger, hs: set<Handler>)
    ensures Sort(Without(ledger, hs)) == Without(Sort(ledger), hs)
  {
    if ledger != [] {
      SortWithout(ledger[1..], hs);
      SortSorts(ledger[1..]);
      InsertWithout(ledger[0], Sort(ledger[1..]), hs);
      var t := Without(ledger[1..], hs);
      assert ([ledger[0]] + t)[1..] == t;
    }
  }

  lemma {:induction false} WithoutLast(s: Ledger)
    requires s != [] && IsMap(s)
    ensures Without(s, {s[|s| - 1].handler}) == s[..|s| - 1]
  {
    var h := s[|s| - 1].handler;
    if |s| > 1 {
      WithoutLast(s[1..]);
      assert s[..|s| - 1] == [s[0]] + s[1..][..|s| - 2];
    }
  }

  lemma {:induction false} FilterAll(ledger: Ledger, keep: Registration -> bool)
    requires forall r | r in ledger :: keep(r)
    ensures Filter(ledger, keep) == ledger
  {
    if ledger != [] {
      assert ledger[0] in ledger;
      FilterAll(ledger[1..], keep);
    }
  }

  lemma {:induction false} FilterNothing(ledger: Ledger, keep: Registration -> bool)
    requires forall r | r in ledger :: !keep(r)
    ensures Filter(ledger, keep) == []
  {
    if ledger != [] {
      assert ledger[0] in ledger;
      FilterNothing(ledger[1..], keep);
    }
  }

  // ---- The function that `on` returns ----

  lemma {:induction false} DeleteSet(ledger: Ledger, r: Registration)
    requires IsMap(ledger)
    ensures Delete(Set(ledger, r), r.handler) == Delete(ledger, r.handler)
  {
    if ledger != [] {
      assert ledger == [ledger[0]] + ledger[1..];
      IsMapCons(ledger[0], ledger[1..]);
      if ledger[0].handler != r.handler {
        DeleteSet(ledger[1..], r);
      }
    }
  }

  lemma {:induction false} DeleteLength(ledger: Ledger, h: Handler)
    ensures |Delete(ledger, h)| == |ledger| - if Has(ledger, h) then 1 else 0
    ensures !Has(ledger, h) ==> Delete(ledger, h) == ledger
  {
    if ledger != [] {
      assert ledger == [ledger[0]] + ledger[1..];
      HasCons(ledger[0], ledger[1..], h);
      if ledger[0].handler != h {
        DeleteLength(ledger[1..], h);
      }
    }
  }

  /** Unregistering a handler undoes its registration exactly if the handler was new. */
  lemma OffUndoesOnIff(ledger: Ledger, h: Handler, options: HookOptions)
    requires IsMap(ledger)
    ensures Delete(On(ledger, h, options), h) == ledger <==> !Has(ledger, h)
  {
    DeleteSet(ledger, Registration(|ledger| + 1, h, options));
    DeleteLength(ledger, h);
  }
}
