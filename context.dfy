/** The compilation context an AST node is generated in (org.tzi.use.parser.Context):
    the model's classes by name, the warnings reported so far, the symbol table of
    variable scopes and the expression-context stack. The AST leaves an
    association end refers to, and the collaborators that generate them, are
    declared here too. */
module ParserContext {
  import opened MetaModel
  import opened Diagnostics

  /** AST of a multiplicity, kept as its source text. */
  datatype AstMultiplicity = AstMultiplicity(source: string)

  /** AST of a qualifier declaration `name : TypeName`. */
  datatype AstVarDecl = AstVarDecl(name: string, typeName: string)

  /** AST of an OCL expression, kept as its source text. */
  datatype AstExpression = AstExpression(source: string)

  /** A symbol-table scope: variable names bound to types. */
  type Scope = map<string, Type>

  /** An expression-context entry: a name and its type. */
  datatype ContextEntry = ContextEntry(name: string, entryType: Type)

  /** Code outside the association-end node that it calls: the `gen` of its
      multiplicity, qualifier and derive-expression ASTs (the latter sees the
      symbol-table scopes), which yield a result or throw; and, as total
      functions that cannot throw, the collection test of a multiplicity, the
      type of a model end built from a class, a multiplicity and an ordered
      flag, the subtype test, and a class's name as a role name. None of them
      changes the context. */
  datatype Collaborators = Collaborators(
    genMultiplicity: AstMultiplicity -> Result<Multiplicity>,
    genQualifier: AstVarDecl -> Result<VarDecl>,
    genExpression: (AstExpression, seq<Scope>) -> Result<Expression>,
    isCollection: Multiplicity -> bool,
    endType: (MClass, Multiplicity, bool) -> Type,
    isSubtypeOf: (Type, Type) -> bool,
    nameAsRolename: MClass -> string)

  class Context {
    var model: map<string, MClass>
    var warnings: seq<Warning>
    var scopes: seq<Scope>
    var exprContext: seq<ContextEntry>

    constructor (model: map<string, MClass>)
      ensures this.model == model && warnings == [] && scopes == [] && exprContext == []
    {
      this.model := model;
      warnings := [];
      scopes := [];
      exprContext := [];
    }

    method ReportWarning(at: string, message: string)
      modifies this`warnings
      ensures warnings == old(warnings) + [Warning(at, message)]
    {
      warnings := warnings + [Warning(at, message)];
    }

    /** Symbol table: opens a new, empty innermost scope. */
    method EnterScope()
      modifies this`scopes
      ensures scopes == old(scopes) + [map[]]
    {
      scopes := scopes + [map[]];
    }

    /** Symbol table: closes the innermost scope; closing with none open is a
        programming error, hence the precondition. */
    method ExitScope()
      requires |scopes| > 0
      modifies this`scopes
      ensures scopes == old(scopes)[..|old(scopes)| - 1]
    {
      scopes := scopes[..|scopes| - 1];
    }

    /** Symbol table: binds `name` in the innermost scope. */
    method Add(name: string, t: Type)
      requires |scopes| > 0
      modifies this`scopes
      ensures |scopes| == |old(scopes)|
      ensures scopes[..|scopes| - 1] == old(scopes)[..|scopes| - 1]
      ensures scopes[|scopes| - 1] == old(scopes)[|scopes| - 1][name := t]
    {
      var n := |scopes|;
      scopes := scopes[..n - 1] + [scopes[n - 1][name := t]];
    }

    method PushExprContext(name: string, t: Type)
      modifies this`exprContext
      ensures exprContext == old(exprContext) + [ContextEntry(name, t)]
    {
      exprContext := exprContext + [ContextEntry(name, t)];
    }

    method PopExprContext()
      requires |exprContext| > 0
      modifies this`exprContext
      ensures exprContext == old(exprContext)[..|old(exprContext)| - 1]
    {
      exprContext := exprContext[..|exprContext| - 1];
    }
  }
}
