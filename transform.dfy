/**
 The loader's multi-pass transform driver (`transform.ts`).

 A run parses the source once, then for every pass of the configuration, in
 order: appends the block-hoist plugin to the pass's plugins, creates one fresh
 `PluginPass` per plugin, calls every `pre` hook, traverses the tree once with
 the merged visitor, calls every `post` hook; after the last pass it generates
 code once. Nothing catches a throw: the first hook, traversal or generator
 that throws ends the run.

 The tree is the type parameter `T`; the parser, the traversal and the code
 generator are foreign and are parameters. Every hook call, every traversal
 and the generation are recorded as `Event`s in the file's ghost `log`, so
 that the order in which the driver does things can be stated and proved.
 */
module TransformDriver {
  import opened Babel

  /** One observable step of a run. `plugin` is the position in the pass's
      plugin list (the block-hoist plugin is last); `self` is the hook's `this`. */
  datatype Event =
    | Pre(pass: nat, plugin: nat, self: PluginPass)
    | Traverse(pass: nat)
    | Post(pass: nat, plugin: nat, self: PluginPass)
    | Generate

  datatype Phase = PrePhase | PostPhase

  /** The tree and the trace after a step, and what was thrown if something threw. */
  datatype State<T> = State(tree: T, log: seq<Event>, thrown: Option<Error>)

  datatype SourceMap = SourceMap(mappings: string)
  datatype Output = Output(code: string, sourceMap: SourceMap)

  /** The inputs of `traverse.visitors.merge(visitors, passes, ...)`; how the
      merge dispatches is the traversal library's business. */
  datatype MergedVisitor<!T> = MergedVisitor(visitors: seq<Visitor<T>>, passes: seq<PluginPass>)

  /** `traverse(file.ast, visitor, file.scope)`: one full walk, which may throw. */
  type Traversal<!T> = (T, MergedVisitor<T>) -> Outcome<T>
  /** `normalizeFile(...)`: builds the tree from the source text, may throw. */
  type Parser<!T> = string -> Outcome<T>
  /** `generate(file.ast, generatorOpts, file.code)`, may throw. */
  type Generator<!T> = (T, string) -> Outcome<Output>

  /** The loaded configuration: the ordered passes, each an ordered plugin list. */
  type Config<!T> = seq<seq<Plugin<T>>>

  class File<T> {
    var ast: T
    const code: string
    ghost var log: seq<Event>

    constructor (ast: T, code: string)
      ensures this.ast == ast && this.code == code && log == []
    {
      this.ast := ast;
      this.code := code;
      log := [];
    }
  }

  function HookOf<T>(phase: Phase, p: Plugin<T>): Option<Hook<T>>
  {
    if phase == PrePhase then p.pre else p.post
  }

  function HookEvent(phase: Phase, k: nat, i: nat, self: PluginPass): Event
  {
    if phase == PrePhase then Pre(k, i, self) else Post(k, i, self)
  }

  predicate IsHookEvent(phase: Phase, e: Event)
  {
    if phase == PrePhase then e.Pre? else e.Post?
  }

  /** The pass index an event belongs to (`Generate` belongs to none). */
  function PassOf(e: Event): int
  {
    if e.Generate? then -1 else e.pass
  }

  /** The plugin position of a hook event (-1 for the others). */
  function PluginOf(e: Event): int
  {
    if e.Pre? || e.Post? then e.plugin else -1
  }

  function Zip<T>(plugins: seq<Plugin<T>>, passes: seq<PluginPass>): (pairs: seq<(Plugin<T>, PluginPass)>)
    requires |plugins| == |passes|
    ensures |pairs| == |plugins|
  {
    seq(|plugins|, i requires 0 <= i < |plugins| => (plugins[i], passes[i]))
  }

  function VisitorsOf<T>(pairs: seq<(Plugin<T>, PluginPass)>): (vs: seq<Visitor<T>>)
    ensures |vs| == |pairs|
  {
    seq(|pairs|, i requires 0 <= i < |pairs| => pairs[i].0.visitor)
  }

  function PassesOf<T>(pairs: seq<(Plugin<T>, PluginPass)>): (ps: seq<PluginPass>)
    ensures |ps| == |pairs|
  {
    seq(|pairs|, i requires 0 <= i < |pairs| => pairs[i].1)
  }

  /** The plugin list pass `k` actually runs: the configured one plus the block-hoist plugin. */
  function PassPlugins<T>(config: Config<T>, blockHoist: Plugin<T>, k: nat): seq<Plugin<T>>
    requires k < |config|
  {
    config[k] + [blockHoist]
  }

  /** `created[k]` holds the instances made for pass `k`, one per plugin of that pass. */
  predicate Fits<T>(config: Config<T>, created: seq<seq<PluginPass>>)
  {
    |created| <= |config| &&
    forall k :: 0 <= k < |created| ==> |created[k]| == |config[k]| + 1
  }

  /** Instance `i` of pass `k` was built from plugin `i` of that pass: its key and options. */
  predicate BuiltFrom<T>(config: Config<T>, blockHoist: Plugin<T>, created: seq<seq<PluginPass>>)
    requires Fits(config, created)
  {
    forall k, i :: 0 <= k < |created| && 0 <= i < |created[k]| ==>
      created[k][i].key == PassPlugins(config, blockHoist, k)[i].key &&
      created[k][i].options == PassPlugins(config, blockHoist, k)[i].options
  }

  /** Appending the instances of the next pass, built from its plugins, keeps `BuiltFrom`. */
  lemma BuiltFromAppend<T>(config: Config<T>, blockHoist: Plugin<T>, created: seq<seq<PluginPass>>,
                           instances: seq<PluginPass>)
    requires Fits(config, created) && |created| < |config| && BuiltFrom(config, blockHoist, created)
    requires |instances| == |config[|created|]| + 1
    requires forall i :: 0 <= i < |instances| ==>
               instances[i].key == (config[|created|] + [blockHoist])[i].key &&
               instances[i].options == (config[|created|] + [blockHoist])[i].options
    ensures Fits(config, created + [instances]) && BuiltFrom(config, blockHoist, created + [instances])
  {
    var c: seq<seq<PluginPass>> := created + [instances];
    forall k, i | 0 <= k < |c| && 0 <= i < |c[k]|
      ensures c[k][i].key == PassPlugins(config, blockHoist, k)[i].key &&
              c[k][i].options == PassPlugins(config, blockHoist, k)[i].options
    {
      if k < |created| {
        assert c[k] == created[k];
      }
    }
  }

  /** No instance was handed out twice, within a pass or across passes. */
  predicate AllDistinct(created: seq<seq<PluginPass>>)
  {
    forall k1, i1, k2, i2 ::
      (0 <= k1 < |created| && 0 <= i1 < |created[k1]| &&
       0 <= k2 < |created| && 0 <= i2 < |created[k2]| &&
       (k1 != k2 || i1 != i2)) ==> created[k1][i1] != created[k2][i2]
  }

  /**
   The hooks of one phase, from position `i` on: each present hook is called
   with its own instance as `this` and logged; a throw stops the phase there.
   */
  function Hooks<T>(phase: Phase, k: nat, pairs: seq<(Plugin<T>, PluginPass)>, i: nat,
                    tree: T, log: seq<Event>): State<T>
    requires i <= |pairs|
    decreases |pairs| - i
  {
    if i == |pairs| then State(tree, log, None)
    else
      match HookOf(phase, pairs[i].0)
      case None => Hooks(phase, k, pairs, i + 1, tree, log)
      case Some(hook) =>
        var log' := log + [HookEvent(phase, k, i, pairs[i].1)];
        match hook(pairs[i].1, tree)
        case Threw(e) => State(tree, log', Some(e))
        case Done(t) => Hooks(phase, k, pairs, i + 1, t, log')
  }

  /**
   The events a phase logs when nothing throws: one per plugin that has the
   hook, in list order, each carrying that plugin's own instance.
   */
  function HookEvents<T>(phase: Phase, k: nat, pairs: seq<(Plugin<T>, PluginPass)>, i: nat): (evs: seq<Event>)
    requires i <= |pairs|
    ensures |evs| <= |pairs| - i
    ensures forall n :: 0 <= n < |evs| ==>
              IsHookEvent(phase, evs[n]) && evs[n].pass == k && i <= evs[n].plugin < |pairs| &&
              evs[n].self == pairs[evs[n].plugin].1 && HookOf(phase, pairs[evs[n].plugin].0).Some?
    ensures forall a, b :: 0 <= a < b < |evs| ==> PluginOf(evs[a]) < PluginOf(evs[b])
    decreases |pairs| - i
  {
    if i == |pairs| then []
    else
      var rest := HookEvents(phase, k, pairs, i + 1);
      if HookOf(phase, pairs[i].0).Some? then
        var ev := HookEvent(phase, k, i, pairs[i].1);
        assert PluginOf(ev) == i;
        assert forall n :: 0 <= n < |rest| ==> PluginOf(rest[n]) > i;
        [ev] + rest
      else rest
  }

  /** Everything one pass logs when nothing throws. */
  function PassEvents<T>(k: nat, pairs: seq<(Plugin<T>, PluginPass)>): seq<Event>
  {
    HookEvents(PrePhase, k, pairs, 0) + [Traverse(k)] + HookEvents(PostPhase, k, pairs, 0)
  }

  /** `transformAstPass`: pre hooks, one traversal, post hooks; a throw ends the pass. */
  function PassSpec<T>(k: nat, pairs: seq<(Plugin<T>, PluginPass)>, traverse: Traversal<T>,
                       tree: T, log: seq<Event>): State<T>
  {
    var pre := Hooks(PrePhase, k, pairs, 0, tree, log);
    if pre.thrown.Some? then pre
    else
      var log' := pre.log + [Traverse(k)];
      match traverse(pre.tree, MergedVisitor(VisitorsOf(pairs), PassesOf(pairs)))
      case Threw(e) => State(pre.tree, log', Some(e))
      case Done(t) => Hooks(PostPhase, k, pairs, 0, t, log')
  }

  /**
   `transformAst` over the passes that were started, `created` holding their
   instances: pass `k` runs on the tree left by passes `0 .. k-1`, and only
   if none of them threw.
   */
  function RunPasses<T>(config: Config<T>, blockHoist: Plugin<T>, traverse: Traversal<T>,
                        created: seq<seq<PluginPass>>, tree: T, log: seq<Event>): State<T>
    requires Fits(config, created)
    decreases |created|
  {
    if |created| == 0 then State(tree, log, None)
    else
      var k := |created| - 1;
      var r := RunPasses(config, blockHoist, traverse, created[..k], tree, log);
      if r.thrown.Some? then r
      else PassSpec(k, Zip(PassPlugins(config, blockHoist, k), created[k]), traverse, r.tree, r.log)
  }

  /** `transform`: parse, run the passes, generate once from the final tree. */
  function TransformSpec<T>(source: string, parse: Parser<T>, config: Config<T>, blockHoist: Plugin<T>,
                            traverse: Traversal<T>, generate: Generator<T>,
                            created: seq<seq<PluginPass>>): (Outcome<Output>, seq<Event>)
    requires Fits(config, created)
  {
    match parse(source)
    case Threw(e) => (Threw(e), [])
    case Done(ast) =>
      var r := RunPasses(config, blockHoist, traverse, created, ast, []);
      if r.thrown.Some? then (Threw(r.thrown.value), r.log)
      else (generate(r.tree, source), r.log + [Generate])
  }

  /** `getTraversalParams`: three parallel lists, one fresh instance per plugin. */
  method GetTraversalParams<T>(pluginPairs: seq<Plugin<T>>, blockHoist: Plugin<T>)
    returns (passPairs: seq<(Plugin<T>, PluginPass)>, passes: seq<PluginPass>, visitors: seq<Visitor<T>>)
    ensures |passes| == |pluginPairs| + 1
    ensures passPairs == Zip(pluginPairs + [blockHoist], passes)
    ensures passPairs[|pluginPairs|].0 == blockHoist
    ensures passes == PassesOf(passPairs) && visitors == VisitorsOf(passPairs)
    ensures forall i :: 0 <= i < |passes| ==>
              fresh(passes[i]) && passes[i].key == passPairs[i].0.key &&
              passes[i].options == passPairs[i].0.options
    ensures forall i, j :: 0 <= i < j < |passes| ==> passes[i] != passes[j]
  {
    var all := pluginPairs + [blockHoist];
    passPairs, passes, visitors := [], [], [];
    for n := 0 to |all|
      invariant |passPairs| == |passes| == |visitors| == n
      invariant passPairs == Zip(all[..n], passes)
      invariant passes == PassesOf(passPairs) && visitors == VisitorsOf(passPairs)
      invariant forall i :: 0 <= i < n ==>
                  fresh(passes[i]) && passes[i].key == all[i].key && passes[i].options == all[i].options
      invariant forall i, j :: 0 <= i < j < n ==> passes[i] != passes[j]
    {
      var plugin := all[n];
      var pass := new PluginPass(plugin.key, plugin.options);
      passPairs := passPairs + [(plugin, pass)];
      passes := passes + [pass];
      visitors := visitors + [plugin.visitor];
    }
    assert all[..|all|] == all;
  }

  /** `invokePluginPre`: every present `pre`, in list order, `this` = its own instance. */
  method InvokePluginPre<T>(file: File<T>, passPairs: seq<(Plugin<T>, PluginPass)>, ghost k: nat)
    returns (thrown: Option<Error>)
    modifies file
    ensures State(file.ast, file.log, thrown)
            == Hooks(PrePhase, k, passPairs, 0, old(file.ast), old(file.log))
  {
    for i := 0 to |passPairs|
      invariant Hooks(PrePhase, k, passPairs, i, file.ast, file.log)
                == Hooks(PrePhase, k, passPairs, 0, old(file.ast), old(file.log))
    {
      var (plugin, pass) := passPairs[i];
      if plugin.pre.Some? {
        file.log := file.log + [Pre(k, i, pass)];
        match plugin.pre.value(pass, file.ast)
        case Threw(e) => { return Some(e); }
        case Done(t) => { file.ast := t; }
      }
    }
    thrown := None;
  }

  /** `invokePluginPost`: every present `post`, in the same order, same instances. */
  method InvokePluginPost<T>(file: File<T>, passPairs: seq<(Plugin<T>, PluginPass)>, ghost k: nat)
    returns (thrown: Option<Error>)
    modifies file
    ensures State(file.ast, file.log, thrown)
            == Hooks(PostPhase, k, passPairs, 0, old(file.ast), old(file.log))
  {
    for i := 0 to |passPairs|
      invariant Hooks(PostPhase, k, passPairs, i, file.ast, file.log)
                == Hooks(PostPhase, k, passPairs, 0, old(file.ast), old(file.log))
    {
      var (plugin, pass) := passPairs[i];
      if plugin.post.Some? {
        file.log := file.log + [Post(k, i, pass)];
        match plugin.post.value(pass, file.ast)
        case Threw(e) => { return Some(e); }
        case Done(t) => { file.ast := t; }
      }
    }
    thrown := None;
  }

  /** `transformAstPass`: pass `k` on the shared file. */
  method TransformAstPass<T>(file: File<T>, pluginPairs: seq<Plugin<T>>, blockHoist: Plugin<T>,
                             traverse: Traversal<T>, ghost k: nat)
    returns (thrown: Option<Error>, ghost instances: seq<PluginPass>)
    modifies file
    ensures |instances| == |pluginPairs| + 1
    ensures forall i :: 0 <= i < |instances| ==> fresh(instances[i])
    ensures forall i, j :: 0 <= i < j < |instances| ==> instances[i] != instances[j]
    ensures forall i :: 0 <= i < |instances| ==>
              instances[i].key == (pluginPairs + [blockHoist])[i].key &&
              instances[i].options == (pluginPairs + [blockHoist])[i].options
    ensures State(file.ast, file.log, thrown)
            == PassSpec(k, Zip(pluginPairs + [blockHoist], instances), traverse, old(file.ast), old(file.log))
  {
    var passPairs, passes, visitors := GetTraversalParams(pluginPairs, blockHoist);
    instances := passes;
    thrown := InvokePluginPre(file, passPairs, k);
    if thrown.Some? {
      return;
    }
    var visitor := MergedVisitor(visitors, passes);
    file.log := file.log + [Traverse(k)];
    match traverse(file.ast, visitor)
    case Threw(e) => {
      thrown := Some(e);
      return;
    }
    case Done(t) => {
      file.ast := t;
    }
    thrown := InvokePluginPost(file, passPairs, k);
  }

  /** `transformAst`: the passes in configuration order, on the one shared file. */
  method TransformAst<T>(file: File<T>, config: Config<T>, blockHoist: Plugin<T>, traverse: Traversal<T>)
    returns (thrown: Option<Error>, ghost created: seq<seq<PluginPass>>)
    modifies file
    ensures Fits(config, created)
    ensures thrown.None? ==> |created| == |config|
    ensures thrown.Some? ==>
              0 < |created| &&
              RunPasses(config, blockHoist, traverse, created[..|created| - 1], old(file.ast), old(file.log))
                .thrown.None?
    ensures forall k, i :: 0 <= k < |created| && 0 <= i < |created[k]| ==> fresh(created[k][i])
    ensures AllDistinct(created)
    ensures BuiltFrom(config, blockHoist, created)
    ensures State(file.ast, file.log, thrown)
            == RunPasses(config, blockHoist, traverse, created, old(file.ast), old(file.log))
  {
    created := [];
    for k := 0 to |config|
      invariant |created| == k && Fits(config, created)
      invariant forall k', i :: 0 <= k' < k && 0 <= i < |created[k']| ==> fresh(created[k'][i])
      invariant AllDistinct(created)
      invariant BuiltFrom(config, blockHoist, created)
      invariant State(file.ast, file.log, None)
                == RunPasses(config, blockHoist, traverse, created, old(file.ast), old(file.log))
    {
      ghost var before := created;
      ghost var instances;
      thrown, instances := TransformAstPass(file, config[k], blockHoist, traverse, k);
      BuiltFromAppend(config, blockHoist, created, instances);
      created := created + [instances];
      assert created[..k] == before;
      if thrown.Some? {
        return;
      }
    }
    thrown := None;
  }

  /** `transform`: normalize, `transformAst`, then `generate` once on the final tree. */
  method Transform<T>(source: string, parse: Parser<T>, config: Config<T>, blockHoist: Plugin<T>,
                      traverse: Traversal<T>, generate: Generator<T>)
    returns (result: Outcome<Output>, ghost trace: seq<Event>, ghost created: seq<seq<PluginPass>>)
    ensures Fits(config, created)
    ensures parse(source).Threw? ==> created == []
    ensures parse(source).Done? &&
            RunPasses(config, blockHoist, traverse, created, parse(source).value, []).thrown.None? ==>
              |created| == |config|
    ensures result.Threw? && parse(source).Done? && Generate !in trace ==>
              0 < |created| &&
              RunPasses(config, blockHoist, traverse, created[..|created| - 1], parse(source).value, []).thrown.None?
    ensures forall k, i :: 0 <= k < |created| && 0 <= i < |created[k]| ==> fresh(created[k][i])
    ensures AllDistinct(created)
    ensures BuiltFrom(config, blockHoist, created)
    ensures (result, trace) == TransformSpec(source, parse, config, blockHoist, traverse, generate, created)
  {
    match parse(source)
    case Threw(e) => {
      return Threw(e), [], [];
    }
    case Done(ast) => {
      var file := new File(ast, source);
      var thrown;
      thrown, created := TransformAst(file, config, blockHoist, traverse);
      if thrown.Some? {
        return Threw(thrown.value), file.log, created;
      }
      file.log := file.log + [Generate];
      result := generate(file.ast, file.code);
      trace := file.log;
    }
  }
}
