/**
 The plugin contract that both the loader's transform driver and the CommonJS
 gate are written against: what a Babel plugin descriptor looks like to the
 code that runs it, the per-plugin `PluginPass` instance, and how a callback
 that may throw is represented.

 Callbacks supplied by plugins are foreign code; they are modelled as total
 functions that either return the (possibly changed) tree or throw.
 */
module Babel {

  datatype Option<+T> = None | Some(value: T)

  /** A value thrown by foreign code (a hook, a visitor, the parser, the generator). */
  datatype Error = Error(message: string)

  /** The result of calling code that may throw: it returns, or it throws. */
  datatype Outcome<+T> = Done(value: T) | Threw(error: Error)

  /** A plugin's option bag; the driver only hands it to the plugin's instance. */
  type Options = map<string, string>

  /**
   The per-plugin, per-pass instance (`new PluginPass(file, key, options)`).
   Only its identity, key and options are modelled; its plugin-local state is not.
   */
  class PluginPass {
    const key: string
    const options: Options

    constructor (key: string, options: Options)
      ensures this.key == key && this.options == options
    {
      this.key := key;
      this.options := options;
    }
  }

  /** A lifecycle hook: `pre.call(pass, file)` / `post.call(pass, file)`. */
  type Hook<!T> = (PluginPass, T) -> Outcome<T>

  /** A visitor method: called with `this`, the node path and the plugin state. */
  type VisitFn<!T> = (PluginPass, T, PluginPass) -> Outcome<T>

  /** The `{ enter?, exit? }` entry of a visitor for one node kind. */
  datatype Handlers<!T> = Handlers(enter: Option<VisitFn<T>>, exit: Option<VisitFn<T>>)

  /** A visitor table: node kind (`"Program"`, `"MemberExpression"`, ...) to its handlers. */
  type Visitor<!T> = map<string, Handlers<T>>

  /** What a plugin factory returns (`PluginObj`): a visitor and optional hooks. */
  datatype PluginObj<!T> = PluginObj(visitor: Visitor<T>, pre: Option<Hook<T>>, post: Option<Hook<T>>)

  /** A loaded plugin descriptor as the driver receives it from the configuration. */
  datatype Plugin<!T> = Plugin(key: string, options: Options, visitor: Visitor<T>,
                              pre: Option<Hook<T>>, post: Option<Hook<T>>)
}
