/**
 The gated CommonJS plugin (`commonjs.ts`). Its only visitor entry is
 `Program.exit`: it scans the program for a member expression whose object is
 named `module` and whose property is named `exports`, and only if it finds
 one does it hand the same `this`, `path` and `state` to the `Program.exit`
 of the inner `@babel/plugin-transform-modules-commonjs` plugin, whose
 rewrite is foreign and is a parameter here.

 The check is by name only: `.name` is read off whatever node sits in the
 object and property positions, so a non-identifier there never matches and
 no scope lookup is done.
 */
module CommonJs {
  import opened Babel

  /** The syntax tree, with the node kinds the scan can tell apart. */
  datatype Node =
    | Identifier(name: string)
    | StringLiteral(value: string)
    | MemberExpression(obj: Node, property: Node, computed: bool)
    | Other(kind: string, children: seq<Node>)

  /** `node.name`: an identifier's name; `undefined` on every other node. */
  function NameOf(n: Node): Option<string>
  {
    if n.Identifier? then Some(n.name) else None
  }

  /**
   The scan's `MemberExpression` callback sets the flag on this node: exactly
   the member expressions, computed or not, whose object and property are the
   identifiers `module` and `exports`.
   */
  predicate IsModuleExports(n: Node): (b: bool)
    ensures b <==> n.MemberExpression? && n.obj == Identifier("module") && n.property == Identifier("exports")
  {
    n.MemberExpression? && NameOf(n.obj) == Some("module") && NameOf(n.property) == Some("exports")
  }

  /** `n` or a node below it passes the callback's test. */
  predicate Contains(n: Node)
    decreases n, 1
  {
    IsModuleExports(n) || ContainsBelow(n)
  }

  /** A node strictly below `n` passes the test: what `path.traverse` on `n` can find. */
  predicate ContainsBelow(n: Node)
    decreases n, 0
  {
    match n
    case MemberExpression(o, p, _) => Contains(o) || Contains(p)
    case Other(_, cs) => exists i :: 0 <= i < |cs| && Contains(cs[i])
    case _ => false
  }

  /** Every node of the tree rooted at `n`, `n` included: the reference for the scan. */
  function Subtrees(n: Node): (s: set<Node>)
    ensures n in s
    decreases n, 1
  {
    {n} + Descendants(n)
  }

  /** Every node strictly below `n`. */
  function Descendants(n: Node): set<Node>
    decreases n, 0
  {
    match n
    case MemberExpression(o, p, _) => Subtrees(o) + Subtrees(p)
    case Other(_, cs) => SubtreesOf(cs)
    case _ => {}
  }

  function SubtreesOf(cs: seq<Node>): set<Node>
    decreases cs
  {
    if cs == [] then {} else Subtrees(cs[0]) + SubtreesOf(cs[1..])
  }

  lemma {:induction false} SubtreesOfChildren(cs: seq<Node>)
    ensures forall m :: m in SubtreesOf(cs) <==> exists i :: 0 <= i < |cs| && m in Subtrees(cs[i])
    decreases cs
  {
    if cs != [] {
      SubtreesOfChildren(cs[1..]);
      forall m | m in SubtreesOf(cs) ensures exists i :: 0 <= i < |cs| && m in Subtrees(cs[i]) {
        assert SubtreesOf(cs) == Subtrees(cs[0]) + SubtreesOf(cs[1..]);
        if m !in Subtrees(cs[0]) {
          assert m in SubtreesOf(cs[1..]);
          var i :| 0 <= i < |cs[1..]| && m in Subtrees(cs[1..][i]);
          assert m in Subtrees(cs[i + 1]);
        }
      }
      forall m, i | 0 <= i < |cs| && m in Subtrees(cs[i]) ensures m in SubtreesOf(cs) {
        if i > 0 {
          assert cs[1..][i - 1] == cs[i];
        }
      }
    }
  }

  /** The recursive test agrees with its meaning: some node of the tree passes. */
  lemma {:induction false} ContainsMeansSomeNode(n: Node)
    ensures Contains(n) <==> exists m :: m in Subtrees(n) && IsModuleExports(m)
    ensures ContainsBelow(n) <==> exists m :: m in Descendants(n) && IsModuleExports(m)
    decreases n
  {
    match n
    case MemberExpression(o, p, _) =>
      ContainsMeansSomeNode(o);
      ContainsMeansSomeNode(p);
    case Other(_, cs) =>
      SubtreesOfChildren(cs);
      if ContainsBelow(n) {
        var i :| 0 <= i < |cs| && Contains(cs[i]);
        ContainsMeansSomeNode(cs[i]);
        var m :| m in Subtrees(cs[i]) && IsModuleExports(m);
        assert m in Descendants(n);
      }
      if exists m :: m in Descendants(n) && IsModuleExports(m) {
        var m :| m in Descendants(n) && IsModuleExports(m);
        assert m in SubtreesOf(cs);
        var i :| 0 <= i < |cs| && m in Subtrees(cs[i]);
        ContainsMeansSomeNode(cs[i]);
      }
    case _ =>
  }

  /**
   `path.traverse({ MemberExpression(...) {...} })` over the nodes below
   `n`: visits each and sets the flag on a match; never clears it and never
   stops early.
   */
  method VisitBelow(n: Node, found: bool) returns (found': bool)
    ensures found' == (found || ContainsBelow(n))
    decreases n, 0
  {
    found' := found;
    match n
    case MemberExpression(o, p, _) => {
      found' := Visit(o, found');
      found' := Visit(p, found');
    }
    case Other(_, cs) => {
      for i := 0 to |cs|
        invariant found' == (found || exists j :: 0 <= j < i && Contains(cs[j]))
      {
        found' := Visit(cs[i], found');
      }
    }
    case _ => {
    }
  }

  /** Visits `n` itself (the callback) and then what lies below it. */
  method Visit(n: Node, found: bool) returns (found': bool)
    ensures found' == (found || Contains(n))
    decreases n, 1
  {
    found' := found;
    if n.MemberExpression? {
      if NameOf(n.obj) == Some("module") && NameOf(n.property) == Some("exports") {
        found' := true;
      }
    }
    found' := VisitBelow(n, found');
  }

  /** The read-only scan of `Program.exit`: the local `foundModuleExports`. */
  method ScanModuleExports(program: Node) returns (foundModuleExports: bool)
    ensures foundModuleExports <==> exists m :: m in Descendants(program) && IsModuleExports(m)
  {
    foundModuleExports := false;
    foundModuleExports := VisitBelow(program, foundModuleExports);
    ContainsMeansSomeNode(program);
  }

  /**
   The inner plugin's `visitor.Program.exit.call(this, path, state)`: the
   inner handler's result on the same three arguments; reading a missing
   entry off the inner visitor throws a TypeError.
   */
  function InnerProgramExit(inner: PluginObj<Node>, self: PluginPass, path: Node, state: PluginPass)
    : Outcome<Node>
  {
    if "Program" in inner.visitor && inner.visitor["Program"].exit.Some? then
      inner.visitor["Program"].exit.value(self, path, state)
    else
      Threw(Error("TypeError"))
  }

  /**
   The wrapper's `Program.exit`. Without a matching node below the program it
   returns the program untouched and the inner plugin is not called; with one,
   the result is exactly the inner exit's on the same `this`, `path` and `state`.
   */
  function ProgramExit(inner: PluginObj<Node>, self: PluginPass, path: Node, state: PluginPass)
    : (r: Outcome<Node>)
    ensures (forall m :: m in Descendants(path) ==> !IsModuleExports(m)) ==> r == Done(path)
    ensures (exists m :: m in Descendants(path) && IsModuleExports(m)) ==>
              r == InnerProgramExit(inner, self, path, state)
  {
    ContainsMeansSomeNode(path);
    if !ContainsBelow(path) then Done(path) else InnerProgramExit(inner, self, path, state)
  }

  /** A program in which no identifier is named `module` is never rewritten. */
  lemma NoModuleIdentifierNoRewrite(inner: PluginObj<Node>, self: PluginPass, path: Node, state: PluginPass)
    requires Identifier("module") !in Subtrees(path)
    ensures ProgramExit(inner, self, path, state) == Done(path)
  {
    ContainsMeansSomeNode(path);
    if ContainsBelow(path) {
      var m :| m in Descendants(path) && IsModuleExports(m);
      SubtreeClosed(path, m);
    }
  }

  /** The tree of a node of `n` lies within the tree of `n`. */
  lemma {:induction false} SubtreeClosed(n: Node, m: Node)
    requires m in Subtrees(n)
    ensures Subtrees(m) <= Subtrees(n)
    decreases n
  {
    if m != n {
      match n
      case MemberExpression(o, p, _) =>
        if m in Subtrees(o) { SubtreeClosed(o, m); } else { SubtreeClosed(p, m); }
      case Other(_, cs) =>
        SubtreesOfChildren(cs);
        assert m in SubtreesOf(cs);
        var i :| 0 <= i < |cs| && m in Subtrees(cs[i]);
        SubtreeClosed(cs[i], m);
        forall x | x in Subtrees(cs[i]) ensures x in SubtreesOf(cs) { }
    }
  }

  /**
   Name-only matching: `module.exports.x` matches through its inner member
   expression, and so does the computed `module[exports]`; `a.module.exports`
   and `module['exports']` do not.
   */
  lemma MatchExamples(x: Node, computed: bool)
    ensures var moduleExports := MemberExpression(Identifier("module"), Identifier("exports"), false);
            Contains(MemberExpression(moduleExports, x, computed))
    ensures Contains(MemberExpression(Identifier("module"), Identifier("exports"), true))
    ensures !Contains(MemberExpression(MemberExpression(Identifier("a"), Identifier("module"), false),
                                       Identifier("exports"), false))
    ensures !Contains(MemberExpression(Identifier("module"), StringLiteral("exports"), true))
  {
  }

  /** `CommonJSModulePlugin(...args)`: wraps the inner plugin `commonjsPlugin(...args)`. */
  function CommonJSModulePlugin(inner: PluginObj<Node>): (p: PluginObj<Node>)
    ensures p.visitor.Keys == {"Program"}
    ensures p.visitor["Program"].enter.None? && p.visitor["Program"].exit.Some?
    ensures p.pre.None? && p.post.None?
  {
    var exit := (self: PluginPass, path: Node, state: PluginPass) => ProgramExit(inner, self, path, state);
    PluginObj(map["Program" := Handlers(None, Some(exit))], None, None)
  }

  /** What the wrapper's single visitor method does, for every `this`, `path` and `state`. */
  lemma WrapperExitIsGate(inner: PluginObj<Node>, self: PluginPass, path: Node, state: PluginPass)
    ensures CommonJSModulePlugin(inner).visitor["Program"].exit.value(self, path, state)
            == ProgramExit(inner, self, path, state)
  {
  }
}
