/**
 * The pure decisions of the parameter-rewrite visitor: which declarations,
 * calls and constructor-initializer invocations target the selected
 * declaration `TheFuncDecl`, and how an unresolved callee is looked up.
 */
module Matching {
  import opened Wrappers
  import opened Ast

  /**
   * A declaration (or the constructor of a construct expression) targets the
   * selection iff its canonical declaration is the node `TheFuncDecl`.
   */
  predicate DeclMatches(fd: FunctionDecl, target: FunctionDecl): (r: bool)
    ensures target.canonical == target.id ==> (r <==> fd.canonical == target.canonical)
  {
    fd.canonical == target.id
  }

  /**
   * Redeclarations share one canonical declaration, so when the consumer
   * selected a canonical declaration, either all redeclarations of an entity
   * match or none does, and the selection matches itself.
   */
  lemma CanonicalMatchIsRedeclarationInvariant(r1: FunctionDecl, r2: FunctionDecl, target: FunctionDecl)
    requires r1.canonical == r2.canonical
    requires target.canonical == target.id
    ensures DeclMatches(r1, target) <==> DeclMatches(r2, target)
    ensures DeclMatches(target, target)
  {
  }

  /** The template a callee belongs to: the primary template of an instantiation, else the template it describes. */
  function CalleeTemplate(callee: FunctionDecl): (r: Option<TemplateDecl>)
    ensures r.Some? ==> r == callee.primaryTemplate || r == callee.describedTemplate
    ensures callee.primaryTemplate.None? && callee.describedTemplate.None? ==> r.None?
  {
    if callee.isInstantiation then callee.primaryTemplate else callee.describedTemplate
  }

  /**
   * Whether a resolved callee is the selected function: by template identity
   * when the selection describes a function template, by canonical
   * declaration otherwise.
   */
  predicate CallMatches(callee: FunctionDecl, target: FunctionDecl): (r: bool)
    ensures r && target.describedTemplate.Some? ==> CalleeTemplate(callee).Some?
    ensures r && target.describedTemplate.None? ==> DeclMatches(callee, target)
  {
    match target.describedTemplate
    case Some(theTmpl) =>
      var tmpl := CalleeTemplate(callee);
      tmpl.Some? && tmpl.value.canonical == theTmpl.canonical
    case None =>
      callee.canonical == target.id
  }

  /** For a target that is no template, calls match exactly as declarations do. */
  lemma NonTemplateCallMatchIsCanonical(callee: FunctionDecl, target: FunctionDecl)
    requires target.describedTemplate.None?
    ensures CallMatches(callee, target) <==> DeclMatches(callee, target)
  {
  }

  /**
   * For a target that describes template `T`: every instantiation of `T` and
   * the templated declaration of every redeclaration of `T` match, whatever
   * their own canonical declarations are.
   */
  lemma TemplateCallsMatchByPrimaryTemplate(callee: FunctionDecl, target: FunctionDecl)
    requires target.describedTemplate.Some?
    requires callee.isInstantiation ==>
      callee.primaryTemplate.Some? && callee.primaryTemplate.value.canonical == target.describedTemplate.value.canonical
    requires !callee.isInstantiation ==>
      callee.describedTemplate.Some? && callee.describedTemplate.value.canonical == target.describedTemplate.value.canonical
    ensures CallMatches(callee, target)
  {
  }

  /**
   * For a target that describes a template, a callee belonging to no template,
   * or to a template with another canonical declaration, never matches, even
   * when it shares the target's canonical declaration or name.
   */
  lemma UnrelatedTemplateNeverMatches(callee: FunctionDecl, target: FunctionDecl)
    requires target.describedTemplate.Some?
    requires callee.isInstantiation ==>
      callee.primaryTemplate.None? || callee.primaryTemplate.value.canonical != target.describedTemplate.value.canonical
    requires !callee.isInstantiation ==>
      callee.describedTemplate.None? || callee.describedTemplate.value.canonical != target.describedTemplate.value.canonical
    ensures !CallMatches(callee, target)
  {
  }

  /** Lookup in the context named by the qualifier, when there is one and it maps to a context. */
  function QualifiedLookup(c: Consumer, name: DeclName, qualifier: Option<Qualifier>): (r: Option<FunctionDecl>)
    ensures qualifier.None? ==> r.None?
    ensures r.Some? ==> qualifier.Some? && c.declContextFromSpecifier(qualifier.value).Some?
    ensures r.Some? ==> r == c.lookupFunctionDecl(name, c.declContextFromSpecifier(qualifier.value).value)
    ensures qualifier.Some? && c.declContextFromSpecifier(qualifier.value).Some? ==>
      r == c.lookupFunctionDecl(name, c.declContextFromSpecifier(qualifier.value).value)
  {
    if qualifier.None? then None
    else
      match c.declContextFromSpecifier(qualifier.value)
      case None => None
      case Some(ctx) => c.lookupFunctionDecl(name, ctx)
  }

  /** Resolution of an unresolved callee: the qualified lookup first, the parent scope only as a fallback. */
  function LookupUnresolved(c: Consumer, name: DeclName, qualifier: Option<Qualifier>): (r: Option<FunctionDecl>)
    ensures QualifiedLookup(c, name, qualifier).Some? ==> r == QualifiedLookup(c, name, qualifier)
    ensures QualifiedLookup(c, name, qualifier).None? ==> r == c.lookupFunctionDecl(name, c.theFuncDecl.lookupParent)
    ensures r.None? <==> QualifiedLookup(c, name, qualifier).None? && c.lookupFunctionDecl(name, c.theFuncDecl.lookupParent).None?
  {
    var first := QualifiedLookup(c, name, qualifier);
    if first.Some? then first else c.lookupFunctionDecl(name, c.theFuncDecl.lookupParent)
  }

  /** What the visitor asserts of a callee: an unresolved one is an identifier that lookup resolves. */
  predicate CalleeResolvable(c: Consumer, callee: Callee)
  {
    callee.Unresolved? ==>
      callee.name.Identifier? && LookupUnresolved(c, callee.name, callee.qualifier).Some?
  }

  /** The declaration a callee stands for; `None` only for a null direct callee. */
  function ResolveCallee(c: Consumer, callee: Callee): (r: Option<FunctionDecl>)
    requires CalleeResolvable(c, callee)
    ensures r.None? <==> callee == Direct(None)
  {
    match callee
    case Direct(d) => d
    case Unresolved(name, qualifier) => LookupUnresolved(c, name, qualifier)
  }

  /** Whether a call expression is one whose argument is to be removed. */
  predicate CallTargets(c: Consumer, call: CallExpr): (r: bool)
    requires CalleeResolvable(c, call.callee)
    ensures call.callee == Direct(None) ==> !r
    ensures call.callee.Direct? && call.callee.decl.Some? ==> (r <==> CallMatches(call.callee.decl.value, c.theFuncDecl))
    ensures call.callee.Unresolved? ==>
      (r <==> CallMatches(LookupUnresolved(c, call.callee.name, call.callee.qualifier).value, c.theFuncDecl))
  {
    var d := ResolveCallee(c, call.callee);
    d.Some? && CallMatches(d.value, c.theFuncDecl)
  }

  /** The construct expression of an initializer: `None` for a null init or one that is no construct expression. */
  function InitConstruct(ci: CtorInitializer): (r: Option<ConstructExpr>)
    ensures r.Some? <==> ci.init.Some? && ci.init.value.Construct?
    ensures r.Some? ==> ci.init == Some(Construct(r.value))
  {
    match ci.init
    case Some(Construct(ce)) => Some(ce)
    case _ => None
  }

  /** Whether an initializer invokes the selected constructor. */
  predicate InitTargets(c: Consumer, ci: CtorInitializer): (r: bool)
    ensures ci.init.None? ==> !r
    ensures ci.init.Some? && ci.init.value.OtherExpr? ==> !r
    ensures r <==> ci.init.Some? && ci.init.value.Construct? && DeclMatches(ci.init.value.construct.ctor, c.theFuncDecl)
  {
    InitConstruct(ci).Some? && DeclMatches(InitConstruct(ci).value.ctor, c.theFuncDecl)
  }

  /** The construct expressions of `inits` that invoke the selected constructor, in initializer order. */
  function MatchedConstructs(c: Consumer, inits: seq<CtorInitializer>): (r: seq<ConstructExpr>)
    ensures |r| <= |inits|
    ensures forall x :: x in r ==> DeclMatches(x.ctor, c.theFuncDecl)
    decreases |inits|
  {
    if inits == [] then []
    else
      var last := inits[|inits| - 1];
      MatchedConstructs(c, inits[..|inits| - 1]) + (if InitTargets(c, last) then [InitConstruct(last).value] else [])
  }

  /** Filtering commutes with concatenation: the relative order of the kept invocations is that of the list. */
  lemma {:induction false} MatchedConstructsAppend(c: Consumer, a: seq<CtorInitializer>, b: seq<CtorInitializer>)
    ensures MatchedConstructs(c, a + b) == MatchedConstructs(c, a) + MatchedConstructs(c, b)
    decreases |b|
  {
    if b == [] {
      assert a + b == a;
    } else {
      var b' := b[..|b| - 1];
      assert (a + b)[..|a + b| - 1] == a + b';
      assert (a + b)[|a + b| - 1] == b[|b| - 1];
      MatchedConstructsAppend(c, a, b');
    }
  }

  /** An invocation is kept iff some initializer in the list carries it and invokes the selected constructor. */
  lemma {:induction false} MatchedConstructsMembers(c: Consumer, inits: seq<CtorInitializer>, x: ConstructExpr)
    ensures x in MatchedConstructs(c, inits) <==>
      exists k :: 0 <= k < |inits| && InitTargets(c, inits[k]) && InitConstruct(inits[k]) == Some(x)
    decreases |inits|
  {
    if inits != [] {
      var front := inits[..|inits| - 1];
      var last := inits[|inits| - 1];
      MatchedConstructsMembers(c, front, x);
      if x in MatchedConstructs(c, inits) {
        if x in MatchedConstructs(c, front) {
          var k :| 0 <= k < |front| && InitTargets(c, front[k]) && InitConstruct(front[k]) == Some(x);
          assert inits[k] == front[k];
        } else {
          assert InitTargets(c, inits[|inits| - 1]) && InitConstruct(inits[|inits| - 1]) == Some(x);
        }
      }
      if exists k :: 0 <= k < |inits| && InitTargets(c, inits[k]) && InitConstruct(inits[k]) == Some(x) {
        var k :| 0 <= k < |inits| && InitTargets(c, inits[k]) && InitConstruct(inits[k]) == Some(x);
        if k < |front| {
          assert front[k] == inits[k];
        }
      }
    }
  }
}
