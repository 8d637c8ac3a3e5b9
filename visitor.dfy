/**
 * The parameter-rewrite visitor itself: two worklists grown during the
 * traversal, the declaration edit made on the spot, and the deferred,
 * stack-ordered drain of the worklists. The visit methods, `RewriteFuncDecl`
 * and `RewriteAllExprs` are proved against the effect function of the same
 * name in RewriteSpec, the two drain loops against `PopOrder` with
 * `CallArgEdits` or `ConstructArgEdits`, and `TraverseDecl` against `Walk`.
 * `Request` stands for one call into the rewriting service or the body hook.
 */
module Visitor {
  import opened Wrappers
  import opened Ast
  import opened Matching
  import opened RewriteSpec

  class CommonParameterRewriteVisitor {
    /** The transformation driving this visitor (`ConsumerInstance`). */
    const consumer: Consumer
    /** Calls whose argument is to be removed, in discovery order. */
    var allCallExprs: seq<CallExpr>
    /** Constructor-initializer invocations whose argument is to be removed, in discovery order. */
    var allConstructExprs: seq<ConstructExpr>
    /** The requests made so far to the rewriting service and the body hook. */
    var edits: seq<Edit>
    /** The consumer's `TheParmVarDecl`. */
    var theParmVarDecl: Option<ParmVarDecl>

    ghost function State(): VisitorState
      reads this
    {
      VisitorState(allCallExprs, allConstructExprs, edits, theParmVarDecl)
    }

    /** Nothing on a worklist fails to target the selected declaration. */
    ghost predicate Valid()
      reads this
    {
      WorklistsTargeted(consumer, State())
    }

    constructor (instance: Consumer)
      ensures consumer == instance
      ensures State() == VisitorState([], [], [], None)
      ensures Valid()
    {
      consumer := instance;
      allCallExprs := [];
      allConstructExprs := [];
      edits := [];
      theParmVarDecl := None;
    }

    /** Hands one request to the rewriting service (or the body hook) and returns its answer. */
    method Request(e: Edit) returns (ok: bool)
      modifies this`edits
      ensures edits == old(edits) + [e]
      ensures ok == consumer.succeeds(old(edits), e)
    {
      ok := consumer.succeeds(edits, e);
      edits := edits + [e];
    }

    /** rewriteParam: remove parameter `TheParamPos` of `numParams` from the declaration of `pv`. */
    method RewriteParam(pv: ParmVarDecl, numParams: nat) returns (ok: bool)
      modifies this`edits
      ensures edits == old(edits) + [RemoveParam(pv, numParams, consumer.theParamPos)]
      ensures ok == consumer.succeeds(old(edits), RemoveParam(pv, numParams, consumer.theParamPos))
    {
      ok := Request(RemoveParam(pv, numParams, consumer.theParamPos));
    }

    /** The consumer's transformParamVar hook. */
    method TransformParamVar(fd: FunctionDecl, pv: ParmVarDecl) returns (ok: bool)
      modifies this`edits
      ensures edits == old(edits) + [BodyHook(fd.id, pv)]
      ensures ok == consumer.succeeds(old(edits), BodyHook(fd.id, pv))
    {
      ok := Request(BodyHook(fd.id, pv));
    }

    /** rewriteOneCallExpr: remove argument `TheParamPos` from a call. */
    method RewriteOneCallExpr(e: CallExpr) returns (ok: bool)
      modifies this`edits
      ensures edits == old(edits) + [RemoveCallArg(e.id, consumer.theParamPos)]
      ensures ok == consumer.succeeds(old(edits), RemoveCallArg(e.id, consumer.theParamPos))
    {
      ok := Request(RemoveCallArg(e.id, consumer.theParamPos));
    }

    /** rewriteOneConstructExpr: remove argument `TheParamPos` from a construct expression. */
    method RewriteOneConstructExpr(ce: ConstructExpr) returns (ok: bool)
      modifies this`edits
      ensures edits == old(edits) + [RemoveConstructArg(ce.id, consumer.theParamPos)]
      ensures ok == consumer.succeeds(old(edits), RemoveConstructArg(ce.id, consumer.theParamPos))
    {
      ok := Request(RemoveConstructArg(ce.id, consumer.theParamPos));
    }

    method RewriteFuncDecl(fd: FunctionDecl) returns (ok: bool)
      requires Valid()
      requires consumer.theParamPos < fd.numParams
      modifies this`edits, this`theParmVarDecl
      ensures (State(), ok) == RewriteFuncDeclEffect(consumer, fd, old(State()))
      ensures Valid()
    {
      var pv := ParmVarDecl(fd.id, consumer.theParamPos);
      var removed := RewriteParam(pv, fd.numParams);
      if !removed {
        return false;
      }
      if fd.isDefinition {
        theParmVarDecl := Some(pv);
        var transformed := TransformParamVar(fd, pv);
        if !transformed {
          return false;
        }
      }
      return true;
    }

    method VisitCXXConstructorDecl(cd: CXXConstructorDecl) returns (cont: bool)
      requires Valid()
      modifies this`allConstructExprs
      ensures cont
      ensures State() == VisitCXXConstructorDeclEffect(consumer, cd, old(State()))
      ensures Valid()
    {
      for i := 0 to |cd.inits|
        invariant allConstructExprs == old(allConstructExprs) + MatchedConstructs(consumer, cd.inits[..i])
      {
        assert cd.inits[..i + 1][..i] == cd.inits[..i];
        var init := cd.inits[i].init;
        if init.None? {
          continue;
        }
        if !init.value.Construct? {
          continue;
        }
        var ce := init.value.construct;
        if ce.ctor.canonical == consumer.theFuncDecl.id {
          allConstructExprs := allConstructExprs + [ce];
        }
      }
      assert cd.inits[..|cd.inits|] == cd.inits;
      forall k | 0 <= k < |allConstructExprs|
        ensures DeclMatches(allConstructExprs[k].ctor, consumer.theFuncDecl)
      {
        if k < |old(allConstructExprs)| {
          assert allConstructExprs[k] == old(allConstructExprs)[k];
        }
      }
      return true;
    }

    method VisitFunctionDecl(fd: FunctionDecl) returns (cont: bool)
      requires Valid()
      requires DeclMatches(fd, consumer.theFuncDecl) ==> consumer.theParamPos < fd.numParams
      modifies this`edits, this`theParmVarDecl
      ensures (State(), cont) == VisitFunctionDeclEffect(consumer, fd, old(State()))
      ensures Valid()
    {
      var canonicalFD := fd.canonical;
      if canonicalFD == consumer.theFuncDecl.id {
        cont := RewriteFuncDecl(fd);
        return;
      }
      return true;
    }

    /** The first loop of rewriteAllExprs: pop every queued call and remove its argument. */
    method DrainCallExprs()
      requires Valid()
      modifies this`allCallExprs, this`edits
      ensures allCallExprs == []
      ensures edits == old(edits) + CallArgEdits(PopOrder(old(allCallExprs)), consumer.theParamPos)
      ensures Valid()
    {
      while allCallExprs != []
        invariant Valid()
        invariant edits + CallArgEdits(PopOrder(allCallExprs), consumer.theParamPos)
               == old(edits) + CallArgEdits(PopOrder(old(allCallExprs)), consumer.theParamPos)
        decreases |allCallExprs|
      {
        var callE := allCallExprs[|allCallExprs| - 1];
        var rest := allCallExprs[..|allCallExprs| - 1];
        CallArgEditsPop(allCallExprs, consumer.theParamPos);
        ghost var e := RemoveCallArg(callE.id, consumer.theParamPos);
        ghost var later := CallArgEdits(PopOrder(rest), consumer.theParamPos);
        assert edits + [e] + later == edits + ([e] + later);
        allCallExprs := rest;
        var _ := RewriteOneCallExpr(callE);
      }
      assert PopOrder(allCallExprs) == [];
    }

    /** The second loop of rewriteAllExprs: pop every queued construct expression and remove its argument. */
    method DrainConstructExprs()
      requires Valid()
      modifies this`allConstructExprs, this`edits
      ensures allConstructExprs == []
      ensures edits == old(edits) + ConstructArgEdits(PopOrder(old(allConstructExprs)), consumer.theParamPos)
      ensures Valid()
    {
      while allConstructExprs != []
        invariant Valid()
        invariant edits + ConstructArgEdits(PopOrder(allConstructExprs), consumer.theParamPos)
               == old(edits) + ConstructArgEdits(PopOrder(old(allConstructExprs)), consumer.theParamPos)
        decreases |allConstructExprs|
      {
        var ce := allConstructExprs[|allConstructExprs| - 1];
        var rest := allConstructExprs[..|allConstructExprs| - 1];
        ConstructArgEditsPop(allConstructExprs, consumer.theParamPos);
        ghost var e := RemoveConstructArg(ce.id, consumer.theParamPos);
        ghost var later := ConstructArgEdits(PopOrder(rest), consumer.theParamPos);
        assert edits + [e] + later == edits + ([e] + later);
        allConstructExprs := rest;
        var _ := RewriteOneConstructExpr(ce);
      }
      assert PopOrder(allConstructExprs) == [];
    }

    /** rewriteAllExprs: drain the call worklist, then the construct worklist, each last-in first-out. */
    method RewriteAllExprs()
      requires Valid()
      modifies this`allCallExprs, this`allConstructExprs, this`edits
      ensures State() == RewriteAllExprsEffect(consumer, old(State()))
      ensures Valid()
    {
      DrainCallExprs();
      DrainConstructExprs();
    }

    method VisitCallExpr(callE: CallExpr) returns (cont: bool)
      requires Valid()
      requires CalleeResolvable(consumer, callE.callee)
      modifies this`allCallExprs
      ensures cont
      ensures State() == VisitCallExprEffect(consumer, callE, old(State()))
      ensures Valid()
    {
      var calleeDecl: Option<FunctionDecl> := None;
      if callE.callee.Unresolved? {
        var dName := callE.callee.name;
        if callE.callee.qualifier.Some? {
          var ctx := consumer.declContextFromSpecifier(callE.callee.qualifier.value);
          if ctx.Some? {
            calleeDecl := consumer.lookupFunctionDecl(dName, ctx.value);
          }
        }
        if calleeDecl.None? {
          calleeDecl := consumer.lookupFunctionDecl(dName, consumer.theFuncDecl.lookupParent);
        }
      } else {
        calleeDecl := callE.callee.decl;
        if calleeDecl.None? {
          return true;
        }
      }
      var callee := calleeDecl.value;

      if consumer.theFuncDecl.describedTemplate.Some? {
        var theTmplFuncD := consumer.theFuncDecl.describedTemplate.value;
        var tmplFuncD;
        if callee.isInstantiation {
          tmplFuncD := callee.primaryTemplate;
        } else {
          tmplFuncD := callee.describedTemplate;
        }
        if tmplFuncD.None? || tmplFuncD.value.canonical != theTmplFuncD.canonical {
          return true;
        }
      } else if callee.canonical != consumer.theFuncDecl.id {
        return true;
      }

      // A matched call is only queued here; the drain edits nested calls innermost first.
      allCallExprs := allCallExprs + [callE];
      return true;
    }

    /**
     * The traversal of a translation unit, given as its visited nodes in
     * document order: at each node the hooks run, and the traversal stops at
     * the first hook that returns false.
     */
    method TraverseDecl(events: seq<VisitEvent>) returns (completed: bool)
      requires Valid()
      requires WalkAdmissible(consumer, events, State())
      modifies this`allCallExprs, this`allConstructExprs, this`edits, this`theParmVarDecl
      ensures (State(), completed) == Walk(consumer, events, old(State()))
      ensures Valid()
    {
      for i := 0 to |events|
        invariant Valid()
        invariant WalkAdmissible(consumer, events[i..], State())
        invariant Walk(consumer, events, old(State())) == Walk(consumer, events[i..], State())
      {
        assert events[i..][1..] == events[i + 1..];
        var cont;
        match events[i] {
          case FunctionDeclVisit(fd) =>
            cont := VisitFunctionDecl(fd);
          case ConstructorDeclVisit(cd) =>
            cont := VisitFunctionDecl(cd.decl);
            if cont {
              cont := VisitCXXConstructorDecl(cd);
            }
          case CallExprVisit(call) =>
            cont := VisitCallExpr(call);
        }
        if !cont {
          return false;
        }
      }
      return true;
    }
  }
}
