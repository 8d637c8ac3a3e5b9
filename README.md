# Parameter-elision visitor of clang_delta, modelled in Dafny

This project models `CommonParameterRewriteVisitor`, the clang AST visitor
that clang_delta's parameter-removing transformations use. The consumer has
already chosen a function or constructor declaration (`TheFuncDecl`) and a
parameter position (`TheParamPos`). The visitor then:

- removes that parameter from every declaration whose canonical declaration
  is `TheFuncDecl`, on the spot, and calls the consumer's body hook
  (`transformParamVar`) for a definition;
- queues every call that targets the selection (`AllCallExprs`) and every
  constructor-initializer invocation of it (`AllConstructExprs`), in the
  order the traversal discovers them;
- afterwards (`rewriteAllExprs`) pops both lists to empty, all calls first,
  removing the argument at `TheParamPos` from each, so that a nested call
  such as the inner `foo(1)` in `foo(foo(1))` is rewritten before the call
  enclosing it.

Clang's AST is replaced by plain records (`Ast`): a declaration carries its
own handle, its canonical declaration, its described and primary templates,
whether it is an instantiation and a definition, its parameter count and its
lookup parent. Name lookup, the mapping from a qualifier to a declaration
context, and the answers of the text-rewriting service and of the body hook
are functions supplied by the consumer (`Ast.Consumer`). The rewriting
service is an edit log: every request is appended to `edits`, and its answer
is `succeeds(log so far, request)`.

Modules:

- `Wrappers` (option.dfy): `Option`, standing for a pointer that may be null.
- `Ast` (ast.dfy): the records above.
- `Matching` (matching.dfy): the pure match decisions and the lookup of an
  unresolved callee.
- `RewriteSpec` (rewrite_spec.dfy): the effect of each visitor member on the
  worklists, the edit log and `TheParmVarDecl`; the traversal as a sequence
  of visited nodes; the drain order; the lemmas.
- `Visitor` (visitor.dfy): the class `CommonParameterRewriteVisitor`. It
  keeps the worklists as `seq` fields grown by the visit methods. The visit
  methods, `RewriteFuncDecl` and `RewriteAllExprs` follow the C++ branch by
  branch and are proved equal to the effect function of the same name. The
  two drain loops are proved against `PopOrder` with `CallArgEdits` or
  `ConstructArgEdits`, and `TraverseDecl` against `Walk`. `Request` has no C++
  counterpart: it stands for one call into the rewriting service or the body
  hook.

The code's own choices, which the model keeps:

- Declarations are compared with the node `TheFuncDecl` itself, not with its
  canonical declaration. Redeclarations are handled alike only because the
  consumer stores a canonical declaration there
  (`CanonicalMatchIsRedeclarationInvariant`).
- For an unresolved callee, the lookup parent of `TheFuncDecl` is searched
  when there is no qualifier. It is also searched when the qualifier maps to
  no context, or when lookup in that context finds nothing.
- `rewriteAllExprs` ignores the answers of the individual argument edits.
  Every queued edit is requested, whatever the earlier ones returned.
- A failed parameter removal or body hook makes `VisitFunctionDecl` return
  false. The traversal then stops, so nodes after that declaration are
  never visited.

## Model

| member | source | states |
|---|---|---|
| `Matching.DeclMatches` | clang_delta/CommonParameterRewriteVisitor.h:110-111 | against a canonical selection, a declaration (or an invoked constructor) matches iff it is a redeclaration of the selected entity, i.e. shares its canonical declaration |
| `Matching.CalleeTemplate` | clang_delta/CommonParameterRewriteVisitor.h:178-181 | the template a callee is attributed to is one of its own templates, and a callee with neither belongs to no template; which one is used is pinned down by `TemplateCallsMatchByPrimaryTemplate` and `UnrelatedTemplateNeverMatches` |
| `Matching.CallMatches` | clang_delta/CommonParameterRewriteVisitor.h:174-187 | a callee that matches a template target belongs to some template; against a non-template target a match is a canonical-declaration match |
| `Matching.QualifiedLookup` | clang_delta/CommonParameterRewriteVisitor.h:157-161 | without a qualifier, or with one that names no context, nothing is found; a qualifier that names a context is looked up there, and the result is that lookup's |
| `Matching.CanonicalMatchIsRedeclarationInvariant` | clang_delta/CommonParameterRewriteVisitor.h:104-114 | when `TheFuncDecl` is a canonical declaration, two redeclarations of one entity either both match or both do not, and the selection matches itself |
| `Matching.NonTemplateCallMatchIsCanonical` | clang_delta/CommonParameterRewriteVisitor.h:185-187 | for a target that describes no template, a resolved callee matches iff its canonical declaration is `TheFuncDecl`, the same rule as for declarations |
| `Matching.TemplateCallsMatchByPrimaryTemplate` | clang_delta/CommonParameterRewriteVisitor.h:174-184 | for a target describing template T, an instantiation whose primary template is canonically T matches, and so does a non-instantiation whose described template is canonically T |
| `Matching.UnrelatedTemplateNeverMatches` | clang_delta/CommonParameterRewriteVisitor.h:174-184 | for a target describing a template, an instantiation whose primary template is null or canonically different never matches, even if its described template is the target's, and neither does a non-instantiation whose described template is null or canonically different |
| `Matching.LookupUnresolved` | clang_delta/CommonParameterRewriteVisitor.h:157-164 | the qualifier's context is searched first; the target's lookup parent only when that yields nothing; the result is null iff both lookups are |
| `Matching.CallTargets` | clang_delta/CommonParameterRewriteVisitor.h:165-198 | a call whose direct callee is null never targets; otherwise it targets iff its direct callee, or the declaration lookup finds for its unresolved name, matches the selection as `CallMatches` decides |
| `Matching.InitConstruct` | clang_delta/CommonParameterRewriteVisitor.h:87-93 | an initializer has a construct expression iff its init is non-null and is a construct expression, and that expression is the init itself |
| `Matching.InitTargets` | clang_delta/CommonParameterRewriteVisitor.h:87-97 | a null init or one that is no construct expression never targets; otherwise the initializer targets iff the invoked constructor matches the selection |
| `Matching.ResolveCallee` | clang_delta/CommonParameterRewriteVisitor.h:150-172 | for a callee meeting the assertions, the resolved declaration is absent exactly for a null direct callee |
| `Matching.MatchedConstructs` | clang_delta/CommonParameterRewriteVisitor.h:85-99 | the kept invocations are no more than the initializers, and each one's constructor has `TheFuncDecl` as canonical declaration |
| `Matching.MatchedConstructsAppend` | clang_delta/CommonParameterRewriteVisitor.h:85-99 | filtering the initializer list preserves initializer order: it distributes over concatenation |
| `Matching.MatchedConstructsMembers` | clang_delta/CommonParameterRewriteVisitor.h:85-99 | an invocation is kept iff some initializer carries it as a non-null construct expression whose constructor matches; null inits, other expressions and other constructors are skipped |
| `RewriteSpec.RewriteFuncDeclEffect` | clang_delta/CommonParameterRewriteVisitor.h:62-79 | the parameter removal is always requested first; on failure the result is false, nothing else is requested and `TheParmVarDecl` is unchanged; a non-definition gets only that edit and returns true; `TheParmVarDecl` changes only for a definition; worklists untouched |
| `RewriteSpec.DefinitionGetsBodyHook` | clang_delta/CommonParameterRewriteVisitor.h:73-78 | for a definition whose removal succeeded, `TheParmVarDecl` is the removed parameter, the body hook is called once right after the removal, and the result is the hook's answer |
| `RewriteSpec.VisitFunctionDeclEffect` | clang_delta/CommonParameterRewriteVisitor.h:104-114 | a declaration that does not match changes nothing and returns true; one that matches has its parameter removal requested, and the result is true iff that removal succeeds and, for a definition, the body hook then succeeds too; worklists untouched |
| `RewriteSpec.VisitCXXConstructorDeclEffect` | clang_delta/CommonParameterRewriteVisitor.h:81-102 | only the construct worklist grows, by at most one entry per initializer, the earlier entries kept, every new entry invoking a constructor whose canonical declaration is `TheFuncDecl` |
| `RewriteSpec.VisitCallExprEffect` | clang_delta/CommonParameterRewriteVisitor.h:146-200 | the call is appended iff it targets the selection, otherwise the worklist is unchanged; nothing else changes and no edit is made |
| `RewriteSpec.PopOrder` | clang_delta/CommonParameterRewriteVisitor.h:135-143 | popping a list to empty yields as many elements as it holds |
| `RewriteSpec.PopOrderReverses` | clang_delta/CommonParameterRewriteVisitor.h:135-143 | the k-th element popped is the k-th from the end: draining reverses discovery order |
| `RewriteSpec.CallArgEdits` | clang_delta/CommonParameterRewriteVisitor.h:116-122 | each call in turn gets one removal of the argument at `TheParamPos` |
| `RewriteSpec.ConstructArgEdits` | clang_delta/CommonParameterRewriteVisitor.h:124-130 | each construct expression in turn gets one removal of the argument at `TheParamPos` |
| `RewriteSpec.CallArgEditsPop` | clang_delta/CommonParameterRewriteVisitor.h:135-138 | one `pop_back_val` of the call list issues the last call's edit ahead of all edits of the calls still queued |
| `RewriteSpec.ConstructArgEditsPop` | clang_delta/CommonParameterRewriteVisitor.h:140-143 | one `pop_back_val` of the construct list issues the last entry's edit ahead of all edits of the entries still queued |
| `RewriteSpec.RewriteAllExprsEffect` | clang_delta/CommonParameterRewriteVisitor.h:132-144 | after the drain both worklists are empty and `TheParmVarDecl` is unchanged; the old log is kept as a prefix and grows by exactly one argument removal per queued entry, and by nothing else |
| `RewriteSpec.DrainOrder` | clang_delta/CommonParameterRewriteVisitor.h:132-144 | after the drain both worklists are empty; the log is the old log, then every call last-queued first, then every construct expression last-queued first, each losing argument `TheParamPos` |
| `RewriteSpec.LaterDiscoveredCallEditedFirst` | clang_delta/CommonParameterRewriteVisitor.h:189-198 | of two queued calls, the later-discovered one has its argument removed strictly before the earlier one |
| `RewriteSpec.VisitEffect` | clang_delta/CommonParameterRewriteVisitor.h:104-114 | one node's hooks (for a constructor, `VisitFunctionDecl` then `VisitCXXConstructorDecl`) return false only at a declaration matching the selection, and a node whose hooks return false queues nothing (a constructor's initializers are not visited after a false `VisitFunctionDecl`); the log and both worklists only grow, earlier entries kept |
| `RewriteSpec.Walk` | clang_delta/CommonParameterRewriteVisitor.h:17-33 | the traversal stopping at the first false hook only appends: the log and both worklists of the start state are prefixes of the end state's |
| `RewriteSpec.AllAdmissibleIsWalkAdmissible` | clang_delta/CommonParameterRewriteVisitor.h:146-172 | when every node meets the assertions, the traversal only ever reaches nodes that meet them |
| `RewriteSpec.FailedDeclEditHidesLaterNodes` | clang_delta/CommonParameterRewriteVisitor.h:62-72 | a matching declaration whose parameter removal fails stops the traversal there with that one edit logged, whatever nodes follow, even ones that would violate the assertions |
| `RewriteSpec.VisitQueuesTargets` | clang_delta/CommonParameterRewriteVisitor.h:81-102 | a node that lets the traversal go on appends exactly its own targeting call, or its constructor's matching initializer invocations in order, and nothing else |
| `RewriteSpec.TargetedCalls` | clang_delta/CommonParameterRewriteVisitor.h:146-200 | reference list of the calls among the visited nodes that target the selection; every member targets it |
| `RewriteSpec.TargetedConstructs` | clang_delta/CommonParameterRewriteVisitor.h:81-102 | reference list of the matching initializer invocations among the visited constructors; every member's constructor matches |
| `RewriteSpec.CompletedWalkQueuesTargetsInDocumentOrder` | clang_delta/CommonParameterRewriteVisitor.h:17-33 | a traversal that runs to the end has appended exactly the targeting calls and exactly the matching initializer invocations, each list in document order |
| `RewriteSpec.WalkStopsOnlyAtTargetDecl` | clang_delta/CommonParameterRewriteVisitor.h:104-114 | a traversal that does not complete stops at a node k: the nodes before k are all visited to their end, node k is a declaration matching the selection whose hooks return false, and the final state is what those hooks leave |
| `RewriteSpec.StopPointUnique` | clang_delta/CommonParameterRewriteVisitor.h:104-114 | a traversal has at most one stop point, so the node `WalkStopsOnlyAtTargetDecl` finds is the only one |
| `RewriteSpec.StopsAtFirst` | clang_delta/CommonParameterRewriteVisitor.h:104-114 | the traversal stops at its first node exactly when that node is a declaration matching the selection whose hooks return false |
| `RewriteSpec.VisitDefersArgumentEdits` | clang_delta/CommonParameterRewriteVisitor.h:53-114 | the hooks at a single node add only parameter removals and body-hook calls to the log |
| `RewriteSpec.WalkDefersArgumentEdits` | clang_delta/CommonParameterRewriteVisitor.h:189-199 | during the traversal the log only grows, and only by parameter removals and body-hook calls: no call or construct expression is edited before the drain |
| `RewriteSpec.VisitKeepsWorklistsTargeted` | clang_delta/CommonParameterRewriteVisitor.h:96-98 | no visit puts a call or invocation that does not target the selection on a worklist |
| `RewriteSpec.WalkKeepsWorklistsTargeted` | clang_delta/CommonParameterRewriteVisitor.h:185-198 | the whole traversal keeps both worklists free of non-targeting entries, so unmatched calls are never edited |
| `RewriteSpec.NestedCallsRewrittenInnermostFirst` | clang_delta/CommonParameterRewriteVisitor.h:189-198 | for `f(f(f(1)))` visited outer to inner, the traversal completes and the drain removes the innermost call's argument first, then the middle, then the outer |
| `Visitor.CommonParameterRewriteVisitor.constructor` | clang_delta/CommonParameterRewriteVisitor.h:21-23 | the visitor starts with empty worklists for the given consumer |
| `Visitor.CommonParameterRewriteVisitor.RewriteParam` | clang_delta/CommonParameterRewriteVisitor.h:53-60 | appends one removal of parameter `TheParamPos` and returns the service's answer |
| `Visitor.CommonParameterRewriteVisitor.TransformParamVar` | clang_delta/CommonParameterRewriteVisitor.h:75 | appends one body-hook call for the declaration and parameter and returns its answer |
| `Visitor.CommonParameterRewriteVisitor.RewriteOneCallExpr` | clang_delta/CommonParameterRewriteVisitor.h:116-122 | appends one removal of argument `TheParamPos` from the call and returns the service's answer |
| `Visitor.CommonParameterRewriteVisitor.RewriteOneConstructExpr` | clang_delta/CommonParameterRewriteVisitor.h:124-130 | appends one removal of argument `TheParamPos` from the construct expression and returns the service's answer |
| `Visitor.CommonParameterRewriteVisitor.RewriteFuncDecl` | clang_delta/CommonParameterRewriteVisitor.h:62-79 | new state and result equal `RewriteFuncDeclEffect` of the old state; the worklists stay targeted |
| `Visitor.CommonParameterRewriteVisitor.VisitCXXConstructorDecl` | clang_delta/CommonParameterRewriteVisitor.h:81-102 | always returns true; the loop over the initializers leaves the state `VisitCXXConstructorDeclEffect` gives and keeps the worklists targeted |
| `Visitor.CommonParameterRewriteVisitor.VisitFunctionDecl` | clang_delta/CommonParameterRewriteVisitor.h:104-114 | new state and result equal `VisitFunctionDeclEffect` of the old state; the worklists stay targeted |
| `Visitor.CommonParameterRewriteVisitor.DrainCallExprs` | clang_delta/CommonParameterRewriteVisitor.h:135-138 | the call worklist ends empty and the log gains one argument removal per queued call, last queued first; the worklists stay targeted |
| `Visitor.CommonParameterRewriteVisitor.DrainConstructExprs` | clang_delta/CommonParameterRewriteVisitor.h:140-143 | the construct worklist ends empty and the log gains one argument removal per queued construct expression, last queued first; the worklists stay targeted |
| `Visitor.CommonParameterRewriteVisitor.RewriteAllExprs` | clang_delta/CommonParameterRewriteVisitor.h:132-144 | the two pop loops leave the state `RewriteAllExprsEffect` gives: both lists empty, the edits in the order `DrainOrder` states |
| `Visitor.CommonParameterRewriteVisitor.VisitCallExpr` | clang_delta/CommonParameterRewriteVisitor.h:146-200 | always returns true; new state equals `VisitCallExprEffect` of the old state; the worklists stay targeted |
| `Visitor.CommonParameterRewriteVisitor.TraverseDecl` | clang_delta/CommonParameterRewriteVisitor.h:17-33 | visiting the nodes in document order, stopping at the first hook returning false, leaves the state and completion flag `Walk` gives and keeps the worklists targeted; only the nodes the traversal reaches must meet the assertions |

## Left out

- The traversal machinery of `RecursiveASTVisitor` is not modelled. The
  walk is a given sequence of visited nodes in document order.
  `TraverseDecl` keeps two of its rules: it stops when a hook returns false,
  and at a constructor `VisitFunctionDecl` runs before
  `VisitCXXConstructorDecl`.
- `VisitDeclRefExpr` is declared in the header but has no body there, so it
  is not modelled.
- Clang's identity queries (`getCanonicalDecl`, `getPrimaryTemplate`,
  `getDescribedFunctionTemplate`, `getLookupParent`, `dyn_cast`) are fields
  of the records, not computed.
- The consumer's `lookupFunctionDecl` and `getDeclContextFromSpecifier`, the
  rewriting service (`removeParamFromFuncDecl`, `removeArgFromCallExpr`,
  `removeArgFromCXXConstructExpr`) and the body hook `transformParamVar` are
  foreign code. They are functions of the consumer. A request's answer may
  depend on the earlier requests, but the source text they change is not
  modelled.
- `TransAssert` failures are preconditions, not aborts:
  - the name of an unresolved callee must be an identifier;
  - the lookup of an unresolved callee must find a declaration;
  - a matching declaration must have a parameter at `TheParamPos`, which
    `getParamDecl` requires.
- The consumer's code that starts the traversal and then calls
  `rewriteAllExprs` is not part of this model. The drain is therefore stated
  for any state, whether or not the traversal completed.
