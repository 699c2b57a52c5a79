# Association-end declarations of the USE parser, in Dafny

This project models the abstract-syntax node for one end of an association
declaration in USE (the UML-based Specification Environment):
`ASTAssociationEnd`. The parser records the end's target class name, its
multiplicity, an optional role name and its modifiers (`ordered`, `union`,
`subsets`, `redefines`, qualifiers, an optional `derive` expression). The node
then turns itself into a model association end in two passes:

- **structural generation** (`gen`). It looks the target class up, builds the
  multiplicity, drops a useless `ordered` with a warning, generates the
  qualifiers in order, resolves the role name, creates the end and copies the
  union flag.
- **derive-expression generation** (`genDerived`). It is meant to be called
  once the whole model exists; the model does not assume that order (see
  below). It enters a symbol-table scope, binds `self` to the class of the first
  other end of the association, type-checks the expression and attaches it when
  its type conforms to the end's type.

Modules:

- `MetaModel` (`metamodel.dfy`) holds the model elements the node produces or
  reads: OCL types, multiplicities, classes, qualifier declarations, typed
  expressions, and the classes `MAssociationEnd` and `MAssociation`.
- `Diagnostics` (`diagnostics.dfy`) holds the exceptions, the semantic errors
  with their message texts, and warnings.
- `ParserContext` (`context.dfy`) holds the compilation context as a class:
  the model's classes by name, reported warnings, the symbol table's scope stack
  and the expression-context stack. It also holds the `Collaborators` record of
  the code the node calls but that is not part of this model.
- `UseParser` (`association_end.dfy`) holds the node as the class
  `AstAssociationEnd`. Each of its two passes is a method. Each method is proved
  against a pure function of the old state: `Generation` for `gen`, `Derivation`
  for `genDerived`. The properties are proved about those functions.

Code the node calls whose source is not part of this model becomes
parameters: each is a function value in the `Collaborators` record.

- The `gen` of the multiplicity, qualifier and expression ASTs returns a value
  or throws.
- Four collaborators are total functions that cannot throw:
  - `MMultiplicity.isCollection`;
  - `MAssociationEnd.getType`, as the end type of a class, a multiplicity and an
    ordered flag;
  - `Type.isSubtypeOf`;
  - `MClass.nameAsRolename`.
- No collaborator changes the context. None reports an error or a warning, and
  the expression generator leaves no scope of its own open.

Java exceptions are values of the datatype `Exception`:

- a `SemanticException` is `Semantic(error)`;
- dereferencing a null `mAend`, a null association or a missing class is
  `NullPointer`;
- `get(0)` on an empty list is `IndexOutOfBounds`.

Pass ordering is therefore not a precondition. Calling `genDerived` before a
successful `gen` is modelled as the `NullPointer` the code would throw.

Other model-element behaviours the node relies on are fixed as follows:

- `ModelFactory.createAssociationEnd` is the constructor of `MAssociationEnd`.
  It stores its arguments. The new end is not a union, has no derive expression
  and belongs to no association.
- `MAssociationEnd.getAllOtherAssociationEnds` (`MetaModel.Without`) gives the
  association's ends other than this one, in declaration order.
- `MClass.type()` is the class type named after the class.
- `Type.toString` is `MetaModel.TypeName`, and `MAssociation.toString` is the
  association's name.
- `StringUtil.inQuotes` is `Diagnostics.Quoted`, which writes a back quote
  before the text and a straight quote after it.

The model follows the code in two places where the code's own comments or
structure suggest something else:

- The field comment at lines 80-83 says `mAend` saves the generated end for a
  second compile run. Each `gen` call still builds a new end and overwrites
  `mAend`; it never returns the saved one.
- `genDerived` leaves the scope it entered for `self` (lines 289-290) only when
  it completes. When the derive expression fails to generate or does not
  conform, the scope stays open. The expression-context entry pushed for `self`
  is never popped either. A caller that expects the symbol table to be restored
  after an error is not served by this code.

## Model

| member | source | states |
|---|---|---|
| `UseParser.AstAssociationEnd.constructor` | src/main/org/tzi/use/parser/use/ASTAssociationEnd.java:49-90 | a new node has its class name and multiplicity, no role name, is neither ordered nor a union, has empty subsets, redefines and qualifier lists, no derive expression and no generated end |
| `UseParser.AstAssociationEnd.SetRolename` | src/main/org/tzi/use/parser/use/ASTAssociationEnd.java:101-103 | the role name becomes the given one (or none) |
| `UseParser.RoleName` | src/main/org/tzi/use/parser/use/ASTAssociationEnd.java:114-129 | an explicit role name is returned whatever the model holds; otherwise the result is the class's name as a role name when the class exists, and a null dereference when it does not |
| `UseParser.AstAssociationEnd.SetOrdered` | src/main/org/tzi/use/parser/use/ASTAssociationEnd.java:134-136 | the node is marked ordered, nothing else changes |
| `UseParser.AstAssociationEnd.SetUnion` | src/main/org/tzi/use/parser/use/ASTAssociationEnd.java:141-151 | the union flag becomes the given value |
| `UseParser.AstAssociationEnd.AddSubsetsRolename` | src/main/org/tzi/use/parser/use/ASTAssociationEnd.java:157-171 | exactly one name is appended at the end; earlier names keep their order |
| `UseParser.AstAssociationEnd.AddRedefinesRolename` | src/main/org/tzi/use/parser/use/ASTAssociationEnd.java:177-191 | exactly one name is appended at the end; earlier names keep their order |
| `UseParser.AstAssociationEnd.SetDerived` | src/main/org/tzi/use/parser/use/ASTAssociationEnd.java:198-208 | the node is derived exactly when a (non-null) expression was given |
| `UseParser.AstAssociationEnd.SetQualifiers` | src/main/org/tzi/use/parser/use/ASTAssociationEnd.java:214-224 | the qualifier list becomes the given list |
| `UseParser.AstAssociationEnd.ToString` | src/main/org/tzi/use/parser/use/ASTAssociationEnd.java:293-296 | a named end prints as its role name, the same name `getRolename(ctx)` gives in every model; an unnamed end prints a text that contains the class name |
| `UseParser.GenQualifiers` | src/main/org/tzi/use/parser/use/ASTAssociationEnd.java:242-251 | qualifiers are generated in order: on success the list has the AST list's length and entry i comes from AST entry i; it succeeds exactly when every entry does; otherwise it throws the exception of the first entry that fails |
| `UseParser.GenQualifiersFailurePersists` | src/main/org/tzi/use/parser/use/ASTAssociationEnd.java:248-249 | once a prefix of the qualifiers throws, generating the whole list throws the same exception |
| `UseParser.GenerateQualifiers` | src/main/org/tzi/use/parser/use/ASTAssociationEnd.java:242-251 | the loop (with the empty-list shortcut) returns exactly the in-order generation of the qualifiers |
| `UseParser.Generation` | src/main/org/tzi/use/parser/use/ASTAssociationEnd.java:226-261 | a missing class throws the unknown-class error with no warning; a failing multiplicity propagates its exception; a failing qualifier propagates the exception of the first qualifier that fails; otherwise `ordered` stays only on a collection multiplicity and one warning is reported exactly when it is dropped; it succeeds exactly when the class exists and the multiplicity and every qualifier generate; the end then has the looked-up class, the resolved role name, the multiplicity, the kind, the possibly dropped ordered flag, the qualifiers in order and the node's union flag |
| `UseParser.UnknownClassIsReported` | src/main/org/tzi/use/parser/use/ASTAssociationEnd.java:228-233 | for a class missing from the model, generation throws a semantic error whose message contains the class name, and reports no warning |
| `UseParser.RegenerationIsSilent` | src/main/org/tzi/use/parser/use/ASTAssociationEnd.java:236-240 | generating again from the flag one generation leaves behind reports no warning, keeps the flag and succeeds exactly when the first generation did |
| `UseParser.AstAssociationEnd.Gen` | src/main/org/tzi/use/parser/use/ASTAssociationEnd.java:226-261 | the node's ordered flag, the warnings and the result are those of `Generation` on the old node; on failure `mAend` is unchanged; on success `mAend` is a freshly created end holding the generated values, with no derive expression and no association |
| `UseParser.GenTwice` | src/main/org/tzi/use/parser/use/ASTAssociationEnd.java:253-256 | two `gen` calls in a row build two distinct ends, the node keeps the second, both succeed or both fail, and at most one warning is reported |
| `UseParser.Derivation` | src/main/org/tzi/use/parser/use/ASTAssociationEnd.java:268-291 | a non-derived end changes nothing; the call completes exactly when it is not derived or the expression is attached, and exactly then the scope stack is back to its old depth; an attached expression was generated with `self` bound to the first other end's class in a new scope, and its type conforms to the end type; a conforming expression is attached and both stacks are restored; every exception leaves one extra scope open and attaches nothing; no generated end or no association gives a null dereference and no other end gives an index error, both with one new empty scope and the expression context untouched; an expression that fails to generate propagates its exception, and a non-conforming type gives the conformance error, both with `self` still bound and its context entry still pushed |
| `UseParser.SelfDerivation` | src/main/org/tzi/use/parser/use/ASTAssociationEnd.java:274-290 | once `self`'s class is known: the call completes exactly when the expression, generated with `self` bound in a new scope, generates and conforms to the end type, and then it attaches the expression and restores both stacks; otherwise `self` stays bound, its context entry stays pushed, nothing is attached, and the exception is the expression's own or the conformance error (or the role name's failure) |
| `UseParser.NonConformingDeriveIsRejected` | src/main/org/tzi/use/parser/use/ASTAssociationEnd.java:280-285 | a non-conforming derive expression is rejected with a message containing the inferred type, the end type and `Association::role`; nothing is attached and one scope stays open |
| `UseParser.AstAssociationEnd.GenDerived` | src/main/org/tzi/use/parser/use/ASTAssociationEnd.java:268-291 | the result, the new scope stack and the new expression context are those of `Derivation` on the old state; the end's derive expression becomes the attached one when there is one, and its other fields do not change |
| `UseParser.AstAssociationEnd.DeriveWithSelf` | src/main/org/tzi/use/parser/use/ASTAssociationEnd.java:274-290 | from a freshly entered empty scope, the result, the scope stack, the expression context and the end's derive expression are those of `SelfDerivation` on the scopes outside it |
| `Diagnostics.UnknownClassMessageNamesClass` | src/main/org/tzi/use/parser/use/ASTAssociationEnd.java:232-233 | the unknown-class message contains the class name |
| `Diagnostics.NonConformingMessageNamesTypesAndEnd` | src/main/org/tzi/use/parser/use/ASTAssociationEnd.java:281-284 | the conformance message contains the expression's type, the end type and `Association::role` |
| `MetaModel.MAssociationEnd.constructor` | src/main/org/tzi/use/parser/use/ASTAssociationEnd.java:253-254 | the factory's end holds exactly the given class, role name, multiplicity, kind, ordered flag and qualifiers, and is not a union, not derived and in no association |
| `MetaModel.MAssociationEnd.SetUnion` | src/main/org/tzi/use/parser/use/ASTAssociationEnd.java:256 | the end's union flag becomes the given value |
| `MetaModel.MAssociationEnd.SetDeriveExpression` | src/main/org/tzi/use/parser/use/ASTAssociationEnd.java:287 | the end's derive expression becomes the given one |
| `MetaModel.Without` | src/main/org/tzi/use/parser/use/ASTAssociationEnd.java:273 | the other ends are ends of the association, none is this end, every other end of the association is among them, and an end outside the association leaves the list unchanged; the first other end (the one `get(0)` takes) is the first end of the association that is not this one |
| `MetaModel.KeptPositions` | src/main/org/tzi/use/parser/use/ASTAssociationEnd.java:273 | the other ends are the association's ends at strictly increasing positions, and every position holding an end other than this one is among them: the other ends keep declaration order |
| `UseParser.AstAssociationEnd.Target` | src/main/org/tzi/use/parser/use/ASTAssociationEnd.java:273-284 | what `genDerived` reads from `mAend`: no end, an end in no association, or the end's type, its association's name and the classes of the other ends; an association holding any end other than this one has a first other end, and that one is the class of the first such end in declaration order |
| `UseParser.BinaryDeriveScenario` | src/main/org/tzi/use/parser/use/ASTAssociationEnd.java:226-291 | for a derived end generated in a fresh context and added to an association after its other end, derive generation completes exactly when the expression, with `self` bound to the other end's class in one new scope, generates and conforms to the end's type; only then is no scope left open |
| `ParserContext.Context.ReportWarning` | src/main/org/tzi/use/parser/use/ASTAssociationEnd.java:237-238 | one warning is appended |
| `ParserContext.Context.EnterScope` | src/main/org/tzi/use/parser/use/ASTAssociationEnd.java:272 | one empty innermost scope is pushed |
| `ParserContext.Context.Add` | src/main/org/tzi/use/parser/use/ASTAssociationEnd.java:274 | the name is bound in the innermost scope; outer scopes and the depth are unchanged |
| `ParserContext.Context.PushExprContext` | src/main/org/tzi/use/parser/use/ASTAssociationEnd.java:275 | one entry is pushed on the expression context |
| `ParserContext.Context.ExitScope` | src/main/org/tzi/use/parser/use/ASTAssociationEnd.java:289 | the innermost scope is removed |
| `ParserContext.Context.PopExprContext` | src/main/org/tzi/use/parser/use/ASTAssociationEnd.java:290 | the top expression-context entry is removed |

## Left out

- Annotations: `genAnnotations` (line 258) copies annotations from the node onto the end. Annotations are not part of this model.
- Source positions: ANTLR tokens become their text. A warning is placed at the class-name token's text only. Message texts follow the code, but only the names they contain are proved.
- AddSubsetsRolename: the getters `getSubsetsRolenames`/`getRedefinesRolenames` are reads of the lists. The source returns a live read-only view. A view taken before the first append stays bound to the shared empty list, and later views follow later appends. That aliasing is not modelled.
- AddRedefinesRolename: the same view aliasing as for the subsets list is not modelled.
- The trivial getters `getClassName`, `getRolename()`, `isUnion` and `getQualifiers` are reads of the node's fields and have no member of their own. `isDerived` (lines 206-208) is the predicate `AstAssociationEnd.IsDerived`; its meaning is stated by `SetDerived`'s contract.
- SetQualifiers: the source stores the caller's list itself (line 215) and `getQualifiers` hands it out mutable (line 223). Later changes to that list through either reference are not modelled: the model's list is a value. A null list makes `gen` throw at line 243; the model has no null list.
- Collaborator internals: `ASTMultiplicity.gen`, `ASTVariableDeclaration.gen` and `ASTExpression.gen` are function values that can return anything and may throw. `MMultiplicity.isCollection`, `MAssociationEnd.getType`, `Type.isSubtypeOf` and `MClass.nameAsRolename` are function values that can return anything but cannot throw. The multiplicity and qualifier generators see only their AST, not the context. The expression generator sees the AST and the symbol-table scopes. Errors or warnings a collaborator would report into the context, and scopes it would leave open, are not modelled.
- `Symtable.add`: its duplicate-name check is not modelled. `self` is always added to a scope entered just before, so the check cannot fire there.
- The n-ary case: `self` is bound to the first other end's class, as the code does. No generalisation to the other ends is modelled.
- The GUI files `AssociationOrLinkPartEdge.java` (edge drawing) and `PrintableView.java` (a printing interface) are presentation code and are not modelled.
