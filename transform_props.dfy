/**
 What the transform driver promises about the order of what it does: hooks
 once per plugin that has them, in list order, around exactly one traversal
 per pass; passes in configuration order; a throw ends everything; code is
 generated once, last, from the final tree.

 The reference for "what a run does when nothing throws" is `RunEvents`; the
 order every trace respects is `InRunOrder`.
 */
module TransformProperties {
  import opened Babel
  import opened TransformDriver

  /** Where an event sits within its pass: pre hooks, traversal, post hooks. */
  function Stage(e: Event): int
  {
    match e
    case Pre(_, _, _) => 0
    case Traverse(_) => 1
    case Post(_, _, _) => 2
    case Generate => 3
  }

  /** `e1` must happen strictly before `e2`: by pass, then stage, then plugin
      position; generation comes after everything else. */
  predicate Precedes(e1: Event, e2: Event)
  {
    if e1.Generate? || e2.Generate? then !e1.Generate? && e2.Generate?
    else
      e1.pass < e2.pass ||
      (e1.pass == e2.pass &&
       (Stage(e1) < Stage(e2) || (Stage(e1) == Stage(e2) && PluginOf(e1) < PluginOf(e2))))
  }

  /** Every event strictly precedes every later one; in particular no event repeats. */
  predicate InRunOrder(evs: seq<Event>)
  {
    forall a, b :: 0 <= a < b < |evs| ==> Precedes(evs[a], evs[b])
  }

  /** What the started passes log when nothing throws: their `PassEvents`, in order. */
  function RunEvents<T>(config: Config<T>, blockHoist: Plugin<T>, created: seq<seq<PluginPass>>): seq<Event>
    requires Fits(config, created)
    decreases |created|
  {
    if |created| == 0 then []
    else
      var k := |created| - 1;
      RunEvents(config, blockHoist, created[..k]) +
      PassEvents(k, Zip(PassPlugins(config, blockHoist, k), created[k]))
  }

  /** Every plugin that has the hook gets exactly its one event, and no other plugin does. */
  lemma {:induction false} HookEventsComplete<T>(phase: Phase, k: nat,
                                                 pairs: seq<(Plugin<T>, PluginPass)>, i: nat)
    requires i <= |pairs|
    ensures forall j :: i <= j < |pairs| ==>
              (HookEvent(phase, k, j, pairs[j].1) in HookEvents(phase, k, pairs, i) <==>
               HookOf(phase, pairs[j].0).Some?)
    decreases |pairs| - i
  {
    if i < |pairs| {
      HookEventsComplete(phase, k, pairs, i + 1);
      var rest := HookEvents(phase, k, pairs, i + 1);
      var ev := HookEvent(phase, k, i, pairs[i].1);
      assert ev !in rest by {
        forall n | 0 <= n < |rest| ensures rest[n] != ev {
          assert PluginOf(rest[n]) > i == PluginOf(ev);
        }
      }
    }
  }

  /** The hook at the position the last event names threw `thrown` on `tree`. */
  predicate ThrewLast<T>(phase: Phase, k: nat, pairs: seq<(Plugin<T>, PluginPass)>, i: nat,
                         log: seq<Event>, r: State<T>)
  {
    r.thrown.Some? && |r.log| > |log| &&
    var e := r.log[|r.log| - 1];
    IsHookEvent(phase, e) && e.pass == k && i <= e.plugin < |pairs| &&
    HookOf(phase, pairs[e.plugin].0).Some? &&
    HookOf(phase, pairs[e.plugin].0).value(pairs[e.plugin].1, r.tree) == Threw(r.thrown.value)
  }

  /**
   One phase of hooks logs a prefix of `HookEvents`: all of it when nothing
   throws; otherwise it stops right after the hook that threw, which is the
   last event logged, and the tree is the one that hook was called on.
   */
  lemma {:induction false} HooksTrace<T>(phase: Phase, k: nat, pairs: seq<(Plugin<T>, PluginPass)>, i: nat,
                                         tree: T, log: seq<Event>)
    requires i <= |pairs|
    ensures var r := Hooks(phase, k, pairs, i, tree, log);
            && r.log <= log + HookEvents(phase, k, pairs, i)
            && (r.thrown.None? ==> r.log == log + HookEvents(phase, k, pairs, i))
            && (r.thrown.Some? ==> ThrewLast(phase, k, pairs, i, log, r))
    decreases |pairs| - i
  {
    if i < |pairs| {
      var r := Hooks(phase, k, pairs, i, tree, log);
      var rest := HookEvents(phase, k, pairs, i + 1);
      match HookOf(phase, pairs[i].0)
      case None =>
        HooksTrace(phase, k, pairs, i + 1, tree, log);
      case Some(hook) =>
        var ev := HookEvent(phase, k, i, pairs[i].1);
        assert HookEvents(phase, k, pairs, i) == [ev] + rest;
        assert log + HookEvents(phase, k, pairs, i) == (log + [ev]) + rest;
        match hook(pairs[i].1, tree)
        case Threw(e) =>
          assert r == State(tree, log + [ev], Some(e));
        case Done(t) =>
          assert r == Hooks(phase, k, pairs, i + 1, t, log + [ev]);
          HooksTrace(phase, k, pairs, i + 1, t, log + [ev]);
    }
  }

  /** A phase logs only hook events of that phase. */
  lemma HookEventsOfPhase<T>(phase: Phase, k: nat, pairs: seq<(Plugin<T>, PluginPass)>)
    ensures var evs := HookEvents(phase, k, pairs, 0);
            forall n :: 0 <= n < |evs| ==> Stage(evs[n]) == (if phase == PrePhase then 0 else 2)
  {
  }

  /**
   One pass, when nothing throws, logs its pre hooks, then exactly one
   traversal, then its post hooks, all for pass `k`, in strict order.
   */
  lemma PassEventsShape<T>(k: nat, pairs: seq<(Plugin<T>, PluginPass)>)
    ensures var evs := PassEvents(k, pairs);
            var t := |HookEvents(PrePhase, k, pairs, 0)|;
            && t < |evs| && evs[t] == Traverse(k)
            && (forall n :: 0 <= n < |evs| ==>
                  evs[n].pass == k && !evs[n].Generate? &&
                  (evs[n].Pre? <==> n < t) && (evs[n].Traverse? <==> n == t) && (evs[n].Post? <==> n > t))
            && InRunOrder(evs)
  {
    var pre := HookEvents(PrePhase, k, pairs, 0);
    var post := HookEvents(PostPhase, k, pairs, 0);
    var evs := PassEvents(k, pairs);
    HookEventsOfPhase(PrePhase, k, pairs);
    HookEventsOfPhase(PostPhase, k, pairs);
    assert forall n :: 0 <= n < |pre| ==> evs[n] == pre[n];
    assert forall n :: |pre| < n < |evs| ==> evs[n] == post[n - |pre| - 1];
  }

  /** One pass logs a prefix of `PassEvents`, all of it when nothing throws. */
  lemma {:induction false} PassTrace<T>(k: nat, pairs: seq<(Plugin<T>, PluginPass)>, traverse: Traversal<T>,
                                        tree: T, log: seq<Event>)
    ensures var r := PassSpec(k, pairs, traverse, tree, log);
            && r.log <= log + PassEvents(k, pairs)
            && (r.thrown.None? ==> r.log == log + PassEvents(k, pairs))
  {
    var r := PassSpec(k, pairs, traverse, tree, log);
    var pre := Hooks(PrePhase, k, pairs, 0, tree, log);
    var preEvs := HookEvents(PrePhase, k, pairs, 0);
    var postEvs := HookEvents(PostPhase, k, pairs, 0);
    HooksTrace(PrePhase, k, pairs, 0, tree, log);
    assert log + PassEvents(k, pairs) == (log + preEvs + [Traverse(k)]) + postEvs;
    if pre.thrown.None? {
      var log' := pre.log + [Traverse(k)];
      assert log' == log + preEvs + [Traverse(k)];
      match traverse(pre.tree, MergedVisitor(VisitorsOf(pairs), PassesOf(pairs)))
      case Threw(e) =>
      case Done(t) =>
        HooksTrace(PostPhase, k, pairs, 0, t, log');
    }
  }

  /**
   The traversal of a pass is logged exactly when every pre hook returned;
   when a pre hook throws, the pass has logged pre hooks only, and its
   result is that of the pre phase (no traversal, no post hook).
   */
  lemma PreThrowSkipsPass<T>(k: nat, pairs: seq<(Plugin<T>, PluginPass)>, traverse: Traversal<T>,
                             tree: T, log: seq<Event>)
    ensures var r := PassSpec(k, pairs, traverse, tree, log);
            var pre := Hooks(PrePhase, k, pairs, 0, tree, log);
            && |log| <= |r.log|
            && (Traverse(k) in r.log[|log|..] <==> pre.thrown.None?)
            && (pre.thrown.Some? ==> r == pre && forall n :: |log| <= n < |r.log| ==> r.log[n].Pre?)
  {
    var r := PassSpec(k, pairs, traverse, tree, log);
    var pre := Hooks(PrePhase, k, pairs, 0, tree, log);
    var preEvs := HookEvents(PrePhase, k, pairs, 0);
    var evs := PassEvents(k, pairs);
    PassTrace(k, pairs, traverse, tree, log);
    HooksTrace(PrePhase, k, pairs, 0, tree, log);
    HookEventsOfPhase(PrePhase, k, pairs);
    assert r.log == (log + evs)[..|r.log|];
    if pre.thrown.Some? {
      forall n | |log| <= n < |r.log| ensures r.log[n].Pre? {
        assert r.log[n] == (log + preEvs)[n] == preEvs[n - |log|];
      }
    } else {
      var log' := pre.log + [Traverse(k)];
      match traverse(pre.tree, MergedVisitor(VisitorsOf(pairs), PassesOf(pairs))) {
        case Threw(e) =>
        case Done(t) =>
          HooksTrace(PostPhase, k, pairs, 0, t, log');
      }
      assert |r.log| > |pre.log| == |log| + |preEvs|;
      assert r.log[|log| + |preEvs|] == (log + evs)[|log| + |preEvs|] == evs[|preEvs|] == Traverse(k);
      assert r.log[|log|..][|preEvs|] == Traverse(k);
    }
  }

  /** A prefix of a sequence in run order is in run order. */
  lemma PrefixInRunOrder(p: seq<Event>, evs: seq<Event>)
    requires p <= evs && InRunOrder(evs)
    ensures InRunOrder(p)
  {
  }

  /**
   The reference trace of the started passes: every event belongs to one of
   them, every one of them traverses, and the whole is in run order (so pass
   `k + 1` logs nothing before pass `k` is done, and no event repeats).
   */
  lemma {:induction false} RunEventsShape<T>(config: Config<T>, blockHoist: Plugin<T>,
                                             created: seq<seq<PluginPass>>)
    requires Fits(config, created)
    ensures var evs := RunEvents(config, blockHoist, created);
            && (forall n :: 0 <= n < |evs| ==> !evs[n].Generate? && 0 <= evs[n].pass < |created|)
            && (forall j :: 0 <= j < |created| ==> Traverse(j) in evs)
            && InRunOrder(evs)
    decreases |created|
  {
    if |created| > 0 {
      var k := |created| - 1;
      var pairs := Zip(PassPlugins(config, blockHoist, k), created[k]);
      var before := RunEvents(config, blockHoist, created[..k]);
      var mine := PassEvents(k, pairs);
      var evs := before + mine;
      RunEventsShape(config, blockHoist, created[..k]);
      PassEventsShape(k, pairs);
      assert |created[..k]| == k;
      forall j | 0 <= j < |created| ensures Traverse(j) in evs {
        if j < k {
          assert Traverse(j) in before;
        } else {
          assert mine[|HookEvents(PrePhase, k, pairs, 0)|] == Traverse(j);
        }
      }
      forall a, b | 0 <= a < b < |evs| ensures Precedes(evs[a], evs[b]) {
        if b < |before| {
          assert evs[a] == before[a] && evs[b] == before[b];
        } else if a < |before| {
          assert evs[a] == before[a] && evs[b] == mine[b - |before|];
        } else {
          assert evs[a] == mine[a - |before|] && evs[b] == mine[b - |before|];
        }
      }
    }
  }

  /** The started passes log a prefix of `RunEvents`, all of it when nothing throws. */
  lemma {:induction false} RunTrace<T>(config: Config<T>, blockHoist: Plugin<T>, traverse: Traversal<T>,
                                       created: seq<seq<PluginPass>>, tree: T, log: seq<Event>)
    requires Fits(config, created)
    ensures var r := RunPasses(config, blockHoist, traverse, created, tree, log);
            && r.log <= log + RunEvents(config, blockHoist, created)
            && (r.thrown.None? ==> r.log == log + RunEvents(config, blockHoist, created))
    decreases |created|
  {
    if |created| > 0 {
      var k := |created| - 1;
      var pairs := Zip(PassPlugins(config, blockHoist, k), created[k]);
      var before := RunEvents(config, blockHoist, created[..k]);
      var r0 := RunPasses(config, blockHoist, traverse, created[..k], tree, log);
      var r := RunPasses(config, blockHoist, traverse, created, tree, log);
      var mine := PassEvents(k, pairs);
      RunTrace(config, blockHoist, traverse, created[..k], tree, log);
      assert RunEvents(config, blockHoist, created) == before + mine;
      assert log + (before + mine) == (log + before) + mine;
      if r0.thrown.None? {
        assert r == PassSpec(k, pairs, traverse, r0.tree, r0.log);
        PassTrace(k, pairs, traverse, r0.tree, r0.log);
      } else {
        assert r == r0;
        assert (log + before) <= (log + before) + mine;
      }
    }
  }

  /**
   Once pass `j` has thrown, nothing more happens: every longer run ends in
   the same state, and its trace holds no event of a later pass.
   */
  lemma {:induction false} RunAbortStops<T>(config: Config<T>, blockHoist: Plugin<T>, traverse: Traversal<T>,
                                            created: seq<seq<PluginPass>>, j: nat, tree: T, log: seq<Event>)
    requires Fits(config, created) && j < |created|
    requires RunPasses(config, blockHoist, traverse, created[..j + 1], tree, log).thrown.Some?
    ensures var r := RunPasses(config, blockHoist, traverse, created, tree, log);
            && r == RunPasses(config, blockHoist, traverse, created[..j + 1], tree, log)
            && forall n :: |log| <= n < |r.log| ==> 0 <= PassOf(r.log[n]) <= j
    decreases |created|
  {
    var r := RunPasses(config, blockHoist, traverse, created, tree, log);
    if |created| > j + 1 {
      var k := |created| - 1;
      assert created[..k][..j + 1] == created[..j + 1];
      RunAbortStops(config, blockHoist, traverse, created[..k], j, tree, log);
    } else {
      assert created[..j + 1] == created;
      var evs := RunEvents(config, blockHoist, created[..j + 1]);
      RunTrace(config, blockHoist, traverse, created[..j + 1], tree, log);
      RunEventsShape(config, blockHoist, created[..j + 1]);
      forall n | |log| <= n < |r.log| ensures 0 <= PassOf(r.log[n]) <= j {
        assert r.log[n] == (log + evs)[n] == evs[n - |log|];
      }
    }
  }

  /**
   The whole `transform`: its trace is in run order; code is generated
   exactly when parsing succeeded and no pass threw, then once and last,
   from the tree the passes left; a successful result always comes from it.
   */
  lemma TransformTrace<T>(source: string, parse: Parser<T>, config: Config<T>, blockHoist: Plugin<T>,
                          traverse: Traversal<T>, generate: Generator<T>, created: seq<seq<PluginPass>>)
    requires Fits(config, created)
    ensures var (result, trace) := TransformSpec(source, parse, config, blockHoist, traverse, generate, created);
            && InRunOrder(trace)
            && (Generate in trace <==>
                  parse(source).Done? &&
                  RunPasses(config, blockHoist, traverse, created, parse(source).value, [])
                    .thrown.None?)
            && (forall n :: 0 <= n < |trace| && trace[n] == Generate ==> n == |trace| - 1)
            && (result.Done? ==> Generate in trace)
            && (Generate in trace ==>
                  var final := RunPasses(config, blockHoist, traverse, created, parse(source).value, []).tree;
                  result == generate(final, source))
  {
    var (result, trace) := TransformSpec(source, parse, config, blockHoist, traverse, generate, created);
    if parse(source).Done? {
      var r := RunPasses(config, blockHoist, traverse, created, parse(source).value, []);
      var evs := RunEvents(config, blockHoist, created);
      RunTrace(config, blockHoist, traverse, created, parse(source).value, []);
      RunEventsShape(config, blockHoist, created);
      PrefixInRunOrder(r.log, evs);
      assert forall n :: 0 <= n < |r.log| ==> r.log[n] == evs[n];
      assert Generate !in r.log;
      if r.thrown.None? {
        assert trace == r.log + [Generate];
        forall a, b | 0 <= a < b < |trace| ensures Precedes(trace[a], trace[b]) {
          if b < |r.log| {
            assert trace[a] == r.log[a] && trace[b] == r.log[b];
          } else {
            assert trace[a] == r.log[a];
          }
        }
      }
    }
  }
}
