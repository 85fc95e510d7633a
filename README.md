# Babel loader core: the multi-pass transform driver and the gated CommonJS plugin

This project models two small parts of the Babel loader of `razzle-plugin-webpack5-babel`.

**The transform driver** (`transform.ts`) runs the plugin passes of a Babel configuration over one parsed file:

- For every pass, in configuration order, it appends the block-hoist plugin to the pass's plugin list.
- It creates one fresh `PluginPass` per plugin and keeps three parallel lists: `passPairs`, `passes` and `visitors`.
- It calls every `pre` hook that exists, in list order, with the plugin's own instance as `this`.
- It merges the visitors and traverses the tree once.
- It then calls every `post` hook that exists, in the same order.
- After the last pass it generates code once, from the final tree.
- Nothing catches a throw.

The tree is a type parameter `T`. The traversal, the parser (`normalizeFile`) and the code generator are library code, so they are parameters that may return or throw (`Babel.Outcome`). Plugin hooks are function values inside the plugin descriptor. The file is a class (`TransformDriver.File`) whose `ast` the methods update in place. Each hook call, each traversal and the generation are appended to the file's ghost `log` as an `Event`. The methods are proved equal to specification functions (`Hooks`, `PassSpec`, `RunPasses`, `TransformSpec`). The lemmas in `TransformProperties` then prove ordering, counting and abort properties of those functions. They compare against `RunEvents`, the trace of a run in which nothing throws, and against `InRunOrder`: events ordered by pass, then stage (pre, traversal, post), then plugin position, with generation last.

**The gated CommonJS plugin** (`commonjs.ts`) has one visitor entry, `Program.exit`:

- It scans the nodes below the program for a `MemberExpression` whose object's `name` is `module` and whose property's `name` is `exports`.
- Only when such a node exists does it call the inner `@babel/plugin-transform-modules-commonjs` plugin's `Program.exit`, with the same `this`, `path` and `state`.

The scan is modelled twice: as a recursive predicate (`ContainsBelow`) and as the imperative visit that sets the flag (`Visit`, `VisitBelow`, `ScanModuleExports`). Both are proved equal to an independent reference: "some node in `Descendants(program)` passes the test". The inner plugin is a parameter.

Files: `babel.dfy` (the plugin contract shared by both parts), `transform.dfy`, `transform_props.dfy`, `commonjs.dfy`.

## Model

| member | source | states |
|---|---|---|
| Babel.PluginPass.constructor | packages/razzle-plugin-webpack5-babel/src/babel/loader/transform.ts:22 | a new instance carries the plugin's key and options |
| TransformDriver.GetTraversalParams | packages/razzle-plugin-webpack5-babel/src/babel/loader/transform.ts:16-29 | the three lists have length (plugins + 1); entry i of each belongs to plugin i, in input order; the last entry is the block-hoist plugin; every instance is fresh, distinct and carries its plugin's key and options |
| TransformDriver.HookEvents | packages/razzle-plugin-webpack5-babel/src/babel/loader/transform.ts:31-45 | the events of one hook phase: only plugins that have the hook; each event carries that plugin's own instance; plugin positions strictly increase, so the phase is in list order with no repeats |
| TransformDriver.InvokePluginPre | packages/razzle-plugin-webpack5-babel/src/babel/loader/transform.ts:31-37 | the new tree, log and thrown error are exactly those of `Hooks(PrePhase, ...)`: present `pre` hooks in list order, `this` = own instance, stop at the first throw |
| TransformDriver.InvokePluginPost | packages/razzle-plugin-webpack5-babel/src/babel/loader/transform.ts:39-45 | the same for `post` hooks, over the same pairs |
| TransformDriver.TransformAstPass | packages/razzle-plugin-webpack5-babel/src/babel/loader/transform.ts:47-62 | one pass on the shared file equals `PassSpec` over freshly created, pairwise distinct instances: pre hooks, one traversal on the tree they left, then post hooks |
| TransformDriver.TransformAst | packages/razzle-plugin-webpack5-babel/src/babel/loader/transform.ts:64-68 | passes run in configuration order on the one file, and pass k+1 starts from the tree pass k left (`RunPasses`); all passes start when none throws; after a throw the last started pass is the one that threw; every instance of every pass is fresh, distinct and built from its plugin's key and options |
| TransformDriver.Transform | packages/razzle-plugin-webpack5-babel/src/babel/loader/transform.ts:86-94 | parse, then `transformAst`, then `generate` on the final tree, as `TransformSpec` says; a parse error starts no pass; when parsing succeeds and no pass throws, every configured pass ran, whether or not the generator then throws; when a pass throws, it is the last pass whose instances were created; every instance is fresh, distinct and carries its plugin's key and options |
| TransformProperties.HookEventsComplete | packages/razzle-plugin-webpack5-babel/src/babel/loader/transform.ts:31-45 | a plugin's hook event is logged iff the plugin has that hook; plugins without it are skipped |
| TransformProperties.HooksTrace | packages/razzle-plugin-webpack5-babel/src/babel/loader/transform.ts:31-45 | a hook phase logs a prefix of `HookEvents`, all of it when nothing throws; after a throw, the last logged event is the hook that threw on the current tree, and no later hook of the phase runs |
| TransformProperties.HookEventsOfPhase | packages/razzle-plugin-webpack5-babel/src/babel/loader/transform.ts:31-45 | a pre phase logs only `Pre` events and a post phase only `Post` events |
| TransformProperties.PassEventsShape | packages/razzle-plugin-webpack5-babel/src/babel/loader/transform.ts:47-62 | within a pass, every pre event comes before the single traversal and every post event after it; all events belong to that pass and are in run order |
| TransformProperties.PassTrace | packages/razzle-plugin-webpack5-babel/src/babel/loader/transform.ts:47-62 | a pass logs a prefix of its reference events, all of them when nothing throws |
| TransformProperties.PreThrowSkipsPass | packages/razzle-plugin-webpack5-babel/src/babel/loader/transform.ts:47-62 | the traversal is logged iff every pre hook returned; when a pre hook throws, the pass ends with the pre phase's result, having logged only pre events (no traversal, no post hook) |
| TransformProperties.RunEventsShape | packages/razzle-plugin-webpack5-babel/src/babel/loader/transform.ts:64-68 | the reference trace of the started passes is in run order (passes strictly in sequence, no event twice), has a traversal for every started pass, and never generates |
| TransformProperties.RunTrace | packages/razzle-plugin-webpack5-babel/src/babel/loader/transform.ts:64-68 | the passes log a prefix of the reference trace, all of it when nothing throws |
| TransformProperties.RunAbortStops | packages/razzle-plugin-webpack5-babel/src/babel/loader/transform.ts:64-68 | once pass j has thrown, no longer run changes anything, and no event of a later pass appears |
| TransformProperties.TransformTrace | packages/razzle-plugin-webpack5-babel/src/babel/loader/transform.ts:86-94 | the whole trace is in run order; code is generated iff parsing succeeded and no pass threw; generation happens at most once and is the last event; a successful result is the generator's output on the tree the passes left |
| CommonJs.ContainsMeansSomeNode | packages/razzle-plugin-webpack5-babel/src/babel/plugins/commonjs.ts:12-18 | the recursive test holds iff some node of the tree (or, for `ContainsBelow`, some node below the root) is a member expression with object named `module` and property named `exports` |
| CommonJs.Visit | packages/razzle-plugin-webpack5-babel/src/babel/plugins/commonjs.ts:13-16 | visiting a node sets the flag iff it was already set or the node or something below it matches; a set flag is never cleared |
| CommonJs.VisitBelow | packages/razzle-plugin-webpack5-babel/src/babel/plugins/commonjs.ts:12-18 | walking the nodes below a node sets the flag iff it was already set or some node below matches |
| CommonJs.ScanModuleExports | packages/razzle-plugin-webpack5-babel/src/babel/plugins/commonjs.ts:11-18 | `foundModuleExports` is true iff some node below the program passes the name test; the scan returns only the flag |
| CommonJs.ProgramExit | packages/razzle-plugin-webpack5-babel/src/babel/plugins/commonjs.ts:10-25 | the wrapper's `Program.exit`: with no matching node below the program, it returns the program unchanged and does not call the inner plugin; with one, its result equals `InnerProgramExit`, the delegated `commonjs.visitor.Program.exit.call(this, path, state)` of line 24: the inner handler's result on the same `this`, `path` and `state`, or a TypeError when the inner visitor has no `Program.exit` |
| CommonJs.IsModuleExports | packages/razzle-plugin-webpack5-babel/src/babel/plugins/commonjs.ts:14-15 | the callback's `.name` test (through `NameOf`, which is `undefined` off an identifier) holds exactly for a member expression, computed or not, whose object is the identifier `module` and whose property is the identifier `exports` |
| CommonJs.NoModuleIdentifierNoRewrite | packages/razzle-plugin-webpack5-babel/src/babel/plugins/commonjs.ts:14-22 | a program with no identifier named `module` is returned unchanged |
| CommonJs.MatchExamples | packages/razzle-plugin-webpack5-babel/src/babel/plugins/commonjs.ts:14-15 | `module.exports.x` and the computed `module[exports]` match; `a.module.exports` and `module['exports']` do not, because only `.name` is compared |
| CommonJs.CommonJSModulePlugin | packages/razzle-plugin-webpack5-babel/src/babel/plugins/commonjs.ts:5-10 | the wrapper's visitor has the single key `Program`, with an `exit` and no `enter`, and the wrapper has no `pre` or `post` |
| CommonJs.WrapperExitIsGate | packages/razzle-plugin-webpack5-babel/src/babel/plugins/commonjs.ts:9-25 | the wrapper's `Program.exit` is the gated exit, for every `this`, `path` and `state` |

## Left out

- Visitor merging (`traverse.visitors.merge`, `wrapPluginVisitorMethod`) and the tree walk of `@babel/traverse` are library code. A traversal is one call of the `traverse` parameter on the visitor tables and instances of the pass. Per-node dispatch order, skipping and removal inside a traversal are not modelled.
- `@babel/generator` and source maps: generation is one call of the `generate` parameter on the final tree and the source text. `generatorOpts` are not modelled.
- `normalizeFile`, `normalizeOpts` and `consumeIterator`: building the file is one call of the `parse` parameter, which may throw. `file.scope` and `file.opts` are not modelled.
- `getConfig` and the async webpack loader context are not modelled. The configuration's passes are an input.
- `loadBlockHoistPlugin` is an opaque descriptor passed in. Its visitor is not modelled.
- `PluginPass` internals: an instance has identity, key and options. Its plugin-local state and its back-reference to the file are not modelled. So a hook's or a traversal's effect depends only on its instance and the tree, not on state that an earlier hook left in the instance.
- A hook, traversal or inner exit that throws is modelled as atomic: the tree stays as it was before that call. Changes made before throwing are not modelled.
- The `Event` trace is a ghost record of the order of calls. The source has no such log.
- The rewrite done by `@babel/plugin-transform-modules-commonjs` is not modelled. The inner plugin is a parameter (`inner`). The factory's arguments, which the source passes through to `commonjsPlugin`, are not modelled.
- The tree of the CommonJS plugin has identifiers, string literals, member expressions and one catch-all kind for other nodes. The scan visits every child of every node. Optional member expressions and JSX member expressions are other kinds, which the `MemberExpression` visitor does not match.
- No scope or binding resolution of `module` is done. The source checks names only, and so does the model.
- The scan runs inside the wrapper's `Program.exit` (commonjs.ts:10), after the rest of the program has been visited.
- The driver validates no configuration before the first pass (transform.ts:64-68); a plugin's problems show only as a throw from its hooks or the traversal.
