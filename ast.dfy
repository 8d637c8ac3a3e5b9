/**
 * Plain-data stand-ins for the parts of the clang AST the parameter-rewrite
 * visitor reads. Identity questions that clang answers by pointer comparison
 * (getCanonicalDecl, getPrimaryTemplate, getLookupParent, ...) are answered
 * here by fields holding opaque handles.
 */
module Ast {
  import opened Wrappers

  /** Handle of a declaration; two declarations are the same node iff their handles are equal. */
  type DeclId = nat
  /** Handle of a declaration context (a namespace, class or translation unit). */
  type DeclCtx = nat
  /** Handle of a nested-name-specifier written in front of a name (`N::f`). */
  type Qualifier = nat
  /** Handle of an expression node. */
  type ExprId = nat

  /** A function template declaration: its own handle and that of its canonical declaration. */
  datatype TemplateDecl = TemplateDecl(id: DeclId, canonical: DeclId)

  /** A function (or constructor) declaration, reduced to what the visitor asks of it. */
  datatype FunctionDecl = FunctionDecl(
    id: DeclId,                              // this very declaration
    canonical: DeclId,                       // getCanonicalDecl()
    describedTemplate: Option<TemplateDecl>, // getDescribedFunctionTemplate()
    primaryTemplate: Option<TemplateDecl>,   // getPrimaryTemplate()
    isInstantiation: bool,                   // isTemplateInstantiation()
    isDefinition: bool,                      // isThisDeclarationADefinition()
    numParams: nat,                          // getNumParams()
    lookupParent: DeclCtx                    // getLookupParent()
  )

  /** A declaration name; only plain identifiers may be looked up. */
  datatype DeclName = Identifier(text: string) | OtherName(text: string)

  /**
   * The callee of a call expression: either an UnresolvedLookupExpr (a name,
   * possibly qualified, still to be looked up) or anything else, of which
   * only the direct callee (possibly null) matters.
   */
  datatype Callee =
    | Direct(decl: Option<FunctionDecl>)
    | Unresolved(name: DeclName, qualifier: Option<Qualifier>)

  datatype CallExpr = CallExpr(id: ExprId, callee: Callee)

  /** A CXXConstructExpr and the constructor it invokes. */
  datatype ConstructExpr = ConstructExpr(id: ExprId, ctor: FunctionDecl)

  /** The initialization expression of a member or base initializer. */
  datatype InitExpr = Construct(construct: ConstructExpr) | OtherExpr(id: ExprId)

  /** One entry of a constructor's initializer list; `init == None` is a null getInit(). */
  datatype CtorInitializer = CtorInitializer(init: Option<InitExpr>)

  datatype CXXConstructorDecl = CXXConstructorDecl(decl: FunctionDecl, inits: seq<CtorInitializer>)

  /** The parameter at position `index` of the declaration `owner`. */
  datatype ParmVarDecl = ParmVarDecl(owner: DeclId, index: nat)

  /**
   * One request made to the text-rewriting service, or to the consumer's
   * body hook, in the order the visitor makes them.
   */
  datatype Edit =
    | RemoveParam(param: ParmVarDecl, numParams: nat, pos: nat)       // removeParamFromFuncDecl
    | BodyHook(decl: DeclId, param: ParmVarDecl)                      // transformParamVar
    | RemoveCallArg(call: ExprId, pos: nat)                           // removeArgFromCallExpr
    | RemoveConstructArg(construct: ExprId, pos: nat)                 // removeArgFromCXXConstructExpr

  /**
   * What the visitor reads from its consumer: the selected declaration and
   * parameter position, the two lookup services, and the outcome of every
   * edit request, which may depend on the edits already made.
   */
  datatype Consumer = Consumer(
    theFuncDecl: FunctionDecl,
    theParamPos: nat,
    lookupFunctionDecl: (DeclName, DeclCtx) -> Option<FunctionDecl>,
    declContextFromSpecifier: Qualifier -> Option<DeclCtx>,
    succeeds: (seq<Edit>, Edit) -> bool
  )
}
