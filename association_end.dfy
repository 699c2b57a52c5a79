/** The association-end node of the USE parser's abstract syntax tree
    (org.tzi.use.parser.use.ASTAssociationEnd): what the parser records about
    one end of an association declaration, the structural generation of the
    model's association end from it, and the later generation of its derive
    expression. */
module UseParser {
  import opened MetaModel
  import opened Diagnostics
  import opened ParserContext

  /** What structural generation reads from an association-end node. */
  datatype EndDecl = EndDecl(
    className: string,
    multiplicity: AstMultiplicity,
    rolename: Option<string>,
    ordered: bool,
    union: bool,
    qualifiers: seq<AstVarDecl>)

  /** The role name of an end: the explicit one when given (the class is then
      not looked up at all), otherwise the target class's name as a role name.
      A missing class on the second path dereferences null. */
  function RoleName(d: EndDecl, model: map<string, MClass>, co: Collaborators): (r: Result<string>)
    ensures d.rolename.Some? ==> r == Ok(d.rolename.value)
    ensures d.rolename.None? ==> (r.Ok? <==> d.className in model)
    ensures d.rolename.None? && d.className in model ==> r.value == co.nameAsRolename(model[d.className])
    ensures r.Thrown? ==> r.exception == NullPointer
  {
    if d.rolename.Some? then Ok(d.rolename.value)
    else if d.className in model then Ok(co.nameAsRolename(model[d.className]))
    else Thrown(NullPointer)
  }

  /** Generation of the qualifiers, left to right; the first one that throws
      ends the generation with its exception. */
  function GenQualifiers(qs: seq<AstVarDecl>, co: Collaborators): (r: Result<seq<VarDecl>>)
    ensures r.Ok? <==> forall i :: 0 <= i < |qs| ==> co.genQualifier(qs[i]).Ok?
    ensures r.Ok? ==> |r.value| == |qs|
    ensures r.Ok? ==> forall i :: 0 <= i < |qs| ==> co.genQualifier(qs[i]) == Ok(r.value[i])
    ensures r.Thrown? ==> exists k :: 0 <= k < |qs| && co.genQualifier(qs[k]) == Thrown(r.exception)
                                      && forall j :: 0 <= j < k ==> co.genQualifier(qs[j]).Ok?
  {
    if qs == [] then Ok([])
    else
      var n := |qs| - 1;
      assert forall i :: 0 <= i < n ==> qs[..n][i] == qs[i];
      match GenQualifiers(qs[..n], co)
      case Thrown(e) => Thrown(e)
      case Ok(vs) =>
        match co.genQualifier(qs[n])
        case Thrown(e) => Thrown(e)
        case Ok(v) => Ok(vs + [v])
  }

  /** Once a prefix of the qualifiers throws, the whole list throws the same
      exception: both are the exception of the first qualifier that fails. */
  lemma GenQualifiersFailurePersists(qs: seq<AstVarDecl>, k: nat, co: Collaborators)
    requires k <= |qs|
    requires GenQualifiers(qs[..k], co).Thrown?
    ensures GenQualifiers(qs, co) == GenQualifiers(qs[..k], co)
  {
  }

  /** The qualifier loop of structural generation. */
  method GenerateQualifiers(qs: seq<AstVarDecl>, co: Collaborators) returns (r: Result<seq<VarDecl>>)
    ensures r == GenQualifiers(qs, co)
  {
    if |qs| == 0 {
      return Ok([]);
    }
    var generated: seq<VarDecl> := [];
    var i := 0;
    while i < |qs|
      invariant 0 <= i <= |qs|
      invariant GenQualifiers(qs[..i], co) == Ok(generated)
    {
      assert qs[..i + 1][..i] == qs[..i];
      var v := co.genQualifier(qs[i]);
      if v.Thrown? {
        GenQualifiersFailurePersists(qs, i + 1, co);
        return Thrown(v.exception);
      }
      generated := generated + [v.value];
      i := i + 1;
    }
    assert qs[..i] == qs;
    return Ok(generated);
  }

  function OrderedIgnored(className: string): Warning
  {
    Warning(className, OrderedIgnoredMessage)
  }

  /** What one structural generation yields: its result, the node's ordered flag
      afterwards, and the warnings it reports. */
  datatype GenState = GenState(outcome: Result<EndValue>, ordered: bool, warnings: seq<Warning>)

  /** Structural generation of an association end from its declaration. */
  function Generation(d: EndDecl, model: map<string, MClass>, kind: int, co: Collaborators): (st: GenState)
    ensures d.className !in model ==>
      st == GenState(Thrown(Semantic(UnknownClass(d.className))), d.ordered, [])
    ensures d.className in model && co.genMultiplicity(d.multiplicity).Thrown? ==>
      st == GenState(Thrown(co.genMultiplicity(d.multiplicity).exception), d.ordered, [])
    ensures d.className in model && co.genMultiplicity(d.multiplicity).Ok? ==>
      var m := co.genMultiplicity(d.multiplicity).value;
      && st.ordered == (d.ordered && co.isCollection(m))
      && st.warnings == (if d.ordered && !co.isCollection(m) then [OrderedIgnored(d.className)] else [])
    ensures st.outcome.Ok? <==>
      && d.className in model
      && co.genMultiplicity(d.multiplicity).Ok?
      && forall i :: 0 <= i < |d.qualifiers| ==> co.genQualifier(d.qualifiers[i]).Ok?
    ensures d.className in model && co.genMultiplicity(d.multiplicity).Ok? && GenQualifiers(d.qualifiers, co).Thrown? ==>
      st.outcome == Thrown(GenQualifiers(d.qualifiers, co).exception)
    ensures st.outcome.Ok? ==>
      var e := st.outcome.value;
      && e.cls == model[d.className]
      && RoleName(d, model, co) == Ok(e.name)
      && co.genMultiplicity(d.multiplicity) == Ok(e.multiplicity)
      && e.kind == kind
      && e.ordered == st.ordered
      && |e.qualifiers| == |d.qualifiers|
      && (forall i :: 0 <= i < |d.qualifiers| ==> co.genQualifier(d.qualifiers[i]) == Ok(e.qualifiers[i]))
      && e.union == d.union
  {
    if d.className !in model then
      GenState(Thrown(Semantic(UnknownClass(d.className))), d.ordered, [])
    else
      match co.genMultiplicity(d.multiplicity)
      case Thrown(e) => GenState(Thrown(e), d.ordered, [])
      case Ok(m) =>
        var downgrade := d.ordered && !co.isCollection(m);
        var ordered := if downgrade then false else d.ordered;
        var warnings := if downgrade then [OrderedIgnored(d.className)] else [];
        match GenQualifiers(d.qualifiers, co)
        case Thrown(e) => GenState(Thrown(e), ordered, warnings)
        case Ok(qs) =>
          var end := EndValue(model[d.className], RoleName(d, model, co).value, m, kind, ordered, qs, d.union);
          GenState(Ok(end), ordered, warnings)
  }

  /** The unknown-class failure names the class and reports no warning. */
  lemma UnknownClassIsReported(d: EndDecl, model: map<string, MClass>, kind: int, co: Collaborators)
    requires d.className !in model
    ensures var st := Generation(d, model, kind, co);
      && st.outcome.Thrown? && st.outcome.exception.Semantic?
      && Contains(Message(st.outcome.exception.error), d.className)
      && st.warnings == []
  {
    UnknownClassMessageNamesClass(d.className);
  }

  /** Generating again from the state one generation leaves behind reports no
      warning: the first one has already dropped a useless `ordered`. */
  lemma RegenerationIsSilent(d: EndDecl, model: map<string, MClass>, kind: int, co: Collaborators)
    ensures var st := Generation(d, model, kind, co);
      && Generation(d.(ordered := st.ordered), model, kind, co).warnings == []
      && Generation(d.(ordered := st.ordered), model, kind, co).ordered == st.ordered
      && (Generation(d.(ordered := st.ordered), model, kind, co).outcome.Ok? <==> st.outcome.Ok?)
  {
  }

  /** What derive-expression generation reads from the generated end `mAend`. */
  datatype DeriveTarget =
    | NoEnd     // no end has been generated
    | Detached  // the end belongs to no association
    | Owned(endType: Type, associationName: string, others: seq<MClass>)
        // the end's type, its association's name and the classes of the other ends, in order

  /** The symbol-table scopes with a new innermost scope binding `self` to `cls`. */
  function WithSelf(scopes: seq<Scope>, cls: MClass): seq<Scope>
  {
    scopes + [map["self" := cls.Type()]]
  }

  /** What one derive-expression generation yields: the symbol-table scopes and
      expression context afterwards, the expression attached to the end, and how
      the call ends. */
  datatype DeriveState = DeriveState(
    scopes: seq<Scope>,
    exprContext: seq<ContextEntry>,
    attached: Option<Expression>,
    outcome: Outcome)

  /** Derive-expression generation once the class bound to `self` is known:
      the expression is generated with `self` bound in a new innermost scope
      and must conform to the end type. Only success restores both stacks. */
  function SelfDerivation(expr: AstExpression, endType: Type, associationName: string, self: MClass,
                          role: Result<string>, scopes: seq<Scope>, exprContext: seq<ContextEntry>,
                          co: Collaborators): (st: DeriveState)
    ensures var gen := co.genExpression(expr, WithSelf(scopes, self));
      && (st.outcome.Completed? <==> gen.Ok? && co.isSubtypeOf(gen.value.exprType, endType))
      && (st.outcome.Completed? ==> st == DeriveState(scopes, exprContext, Some(gen.value), Completed))
      && (st.outcome.Raised? ==>
            && st.scopes == WithSelf(scopes, self)
            && st.exprContext == exprContext + [ContextEntry("self", self.Type())]
            && st.attached.None?)
      && (gen.Thrown? ==> st.outcome == Raised(gen.exception))
      && (gen.Ok? && !co.isSubtypeOf(gen.value.exprType, endType) ==>
            st.outcome == Raised(
              if role.Ok? then Semantic(NonConformingDerive(gen.value.exprType, associationName, role.value, endType))
              else role.exception))
  {
    var bound := WithSelf(scopes, self);
    var pushed := exprContext + [ContextEntry("self", self.Type())];
    match co.genExpression(expr, bound)
    case Thrown(e) => DeriveState(bound, pushed, None, Raised(e))
    case Ok(x) =>
      if !co.isSubtypeOf(x.exprType, endType) then
        var failure := if role.Ok? then Semantic(NonConformingDerive(x.exprType, associationName, role.value, endType))
                       else role.exception;
        DeriveState(bound, pushed, None, Raised(failure))
      else
        DeriveState(scopes, exprContext, Some(x), Completed)
  }

  /** Derive-expression generation. `role` is the node's role name, needed only
      for the conformance error. Every abrupt exit happens after the scope was
      entered and before it is left. */
  function Derivation(derived: Option<AstExpression>, target: DeriveTarget, role: Result<string>,
                      scopes: seq<Scope>, exprContext: seq<ContextEntry>, co: Collaborators): (st: DeriveState)
    ensures derived.None? ==> st == DeriveState(scopes, exprContext, None, Completed)
    ensures st.outcome.Completed? <==> derived.None? || st.attached.Some?
    ensures |st.scopes| == |scopes| <==> st.outcome.Completed?
    ensures st.outcome.Completed? ==> st.scopes == scopes && st.exprContext == exprContext
    ensures st.attached.Some? ==>
      && derived.Some? && target.Owned? && |target.others| > 0
      && co.genExpression(derived.value, WithSelf(scopes, target.others[0])) == Ok(st.attached.value)
      && co.isSubtypeOf(st.attached.value.exprType, target.endType)
    ensures st.outcome.Raised? ==>
      && st.attached.None?
      && |st.scopes| == |scopes| + 1 && st.scopes[..|scopes|] == scopes
      && |exprContext| <= |st.exprContext| <= |exprContext| + 1
      && st.exprContext[..|exprContext|] == exprContext
    ensures derived.Some? && (!target.Owned? || target.others == []) ==>
      st.scopes == scopes + [map[]] && st.exprContext == exprContext
    ensures derived.Some? && !target.Owned? ==> st.outcome == Raised(NullPointer)
    ensures derived.Some? && target.Owned? && target.others == [] ==> st.outcome == Raised(IndexOutOfBounds)
    ensures derived.Some? && target.Owned? && target.others != [] ==>
      var self := target.others[0];
      var gen := co.genExpression(derived.value, WithSelf(scopes, self));
      && (gen.Thrown? ==>
            && st.scopes == WithSelf(scopes, self)
            && st.exprContext == exprContext + [ContextEntry("self", self.Type())]
            && st.outcome == Raised(gen.exception))
      && (gen.Ok? && !co.isSubtypeOf(gen.value.exprType, target.endType) ==>
            && st.scopes == WithSelf(scopes, self)
            && st.exprContext == exprContext + [ContextEntry("self", self.Type())]
            && st.outcome == Raised(
                 if role.Ok? then Semantic(NonConformingDerive(gen.value.exprType, target.associationName, role.value, target.endType))
                 else role.exception))
      && (gen.Ok? && co.isSubtypeOf(gen.value.exprType, target.endType) ==>
            st == DeriveState(scopes, exprContext, Some(gen.value), Completed))
  {
    if derived.None? then DeriveState(scopes, exprContext, None, Completed)
    else
      var entered := scopes + [map[]];
      match target
      case NoEnd => DeriveState(entered, exprContext, None, Raised(NullPointer))
      case Detached => DeriveState(entered, exprContext, None, Raised(NullPointer))
      case Owned(endType, associationName, others) =>
        if |others| == 0 then DeriveState(entered, exprContext, None, Raised(IndexOutOfBounds))
        else SelfDerivation(derived.value, endType, associationName, others[0], role, scopes, exprContext, co)
  }

  /** A derive expression whose type does not conform is rejected with an error
      naming both types and `Association::role`; nothing is attached and the
      scope entered for `self` is left open. */
  lemma NonConformingDeriveIsRejected(derived: AstExpression, target: DeriveTarget, role: string,
                                      scopes: seq<Scope>, exprContext: seq<ContextEntry>, co: Collaborators)
    requires target.Owned? && target.others != []
    requires co.genExpression(derived, WithSelf(scopes, target.others[0])).Ok?
    requires !co.isSubtypeOf(co.genExpression(derived, WithSelf(scopes, target.others[0])).value.exprType, target.endType)
    ensures var st := Derivation(Some(derived), target, Ok(role), scopes, exprContext, co);
      var actual := co.genExpression(derived, WithSelf(scopes, target.others[0])).value.exprType;
      && st.outcome.Raised? && st.outcome.exception.Semantic?
      && Contains(Message(st.outcome.exception.error), TypeName(actual))
      && Contains(Message(st.outcome.exception.error), TypeName(target.endType))
      && Contains(Message(st.outcome.exception.error), target.associationName + "::" + role)
      && st.attached == None
      && |st.scopes| == |scopes| + 1
  {
    var actual := co.genExpression(derived, WithSelf(scopes, target.others[0])).value.exprType;
    NonConformingMessageNamesTypesAndEnd(actual, target.associationName, role, target.endType);
  }

  function ClassesOf(ends: seq<MAssociationEnd>): (cs: seq<MClass>)
    ensures |cs| == |ends|
    ensures forall i :: 0 <= i < |ends| ==> cs[i] == ends[i].cls
  {
    if ends == [] then [] else [ends[0].cls] + ClassesOf(ends[1..])
  }

  class AstAssociationEnd {
    const className: string
    const multiplicity: AstMultiplicity
    var rolename: Option<string>
    var ordered: bool
    var union: bool
    var subsetsRolenames: seq<string>
    var redefinesRolenames: seq<string>
    var qualifiers: seq<AstVarDecl>
    var derived: Option<AstExpression>
    /** The end produced by the last successful structural generation. */
    var aend: MAssociationEnd?

    constructor (name: string, mult: AstMultiplicity)
      ensures className == name && multiplicity == mult
      ensures rolename == None && !ordered && !union
      ensures subsetsRolenames == [] && redefinesRolenames == [] && qualifiers == []
      ensures derived == None && aend == null
    {
      className := name;
      multiplicity := mult;
      rolename := None;
      ordered := false;
      union := false;
      subsetsRolenames := [];
      redefinesRolenames := [];
      qualifiers := [];
      derived := None;
      aend := null;
    }

    function Decl(): EndDecl
      reads this
    {
      EndDecl(className, multiplicity, rolename, ordered, union, qualifiers)
    }

    method SetRolename(name: Option<string>)
      modifies this`rolename
      ensures rolename == name
    {
      rolename := name;
    }

    method SetOrdered()
      modifies this`ordered
      ensures ordered
    {
      ordered := true;
    }

    method SetUnion(b: bool)
      modifies this`union
      ensures union == b
    {
      union := b;
    }

    /** Appends a subsetted end name. (The source swaps its shared empty list for
        a growable one on the first append; the contents are the same.) */
    method AddSubsetsRolename(name: string)
      modifies this`subsetsRolenames
      ensures subsetsRolenames == old(subsetsRolenames) + [name]
    {
      subsetsRolenames := subsetsRolenames + [name];
    }

    /** Appends a redefined end name, like `AddSubsetsRolename`. */
    method AddRedefinesRolename(name: string)
      modifies this`redefinesRolenames
      ensures redefinesRolenames == old(redefinesRolenames) + [name]
    {
      redefinesRolenames := redefinesRolenames + [name];
    }

    predicate IsDerived()
      reads this
    {
      derived.Some?
    }

    /** Sets the derive expression; `None` stands for a null argument. */
    method SetDerived(exp: Option<AstExpression>)
      modifies this`derived
      ensures derived == exp
      ensures IsDerived() <==> exp.Some?
    {
      derived := exp;
    }

    method SetQualifiers(qs: seq<AstVarDecl>)
      modifies this`qualifiers
      ensures qualifiers == qs
    {
      qualifiers := qs;
    }

    /** The explicit role name, or a text naming the targeted class. */
    function ToString(): (s: string)
      reads this
      ensures rolename.Some? ==> s == rolename.value
      ensures rolename.Some? ==> forall model, co :: RoleName(Decl(), model, co) == Ok(s)
      ensures rolename.None? ==> Contains(s, className)
    {
      if rolename.Some? then rolename.value
      else
        ContainsMiddle("unnamed end on ", className, "");
        assert "unnamed end on " + className + "" == "unnamed end on " + className;
        "unnamed end on " + className
    }

    /** Structural generation. On success a new end replaces `aend`; a useless
        `ordered` is dropped from the node itself, with a warning. */
    method Gen(ctx: Context, kind: int, co: Collaborators) returns (r: Result<MAssociationEnd>)
      modifies this`ordered, this`aend, ctx`warnings
      ensures var st := Generation(old(Decl()), ctx.model, kind, co);
        && ordered == st.ordered
        && ctx.warnings == old(ctx.warnings) + st.warnings
        && (st.outcome.Thrown? ==> r == Thrown(st.outcome.exception) && aend == old(aend))
        && (st.outcome.Ok? ==>
              && aend != null && fresh(aend) && r == Ok(aend)
              && aend.Value() == st.outcome.value
              && aend.deriveExpression == None && aend.association == null)
    {
      if className !in ctx.model {
        return Thrown(Semantic(UnknownClass(className)));
      }
      var cls := ctx.model[className];
      var mult := co.genMultiplicity(multiplicity);
      if mult.Thrown? {
        return Thrown(mult.exception);
      }
      if ordered && !co.isCollection(mult.value) {
        ctx.ReportWarning(className, OrderedIgnoredMessage);
        ordered := false;
      }
      var generatedQualifiers := GenerateQualifiers(qualifiers, co);
      if generatedQualifiers.Thrown? {
        return Thrown(generatedQualifiers.exception);
      }
      var role := RoleName(Decl(), ctx.model, co);
      var end := new MAssociationEnd(cls, role.value, mult.value, kind, ordered, generatedQualifiers.value);
      aend := end;
      end.SetUnion(union);
      return Ok(end);
    }

    /** What derive-expression generation reads from `aend` and its association. */
    function Target(co: Collaborators): (t: DeriveTarget)
      reads this, aend
      reads if aend != null && aend.association != null then {aend.association} else {}
      ensures aend == null <==> t.NoEnd?
      ensures aend != null && aend.association == null <==> t.Detached?
      ensures t.Owned? ==>
        && t.endType == co.endType(aend.cls, aend.multiplicity, aend.ordered)
        && t.associationName == aend.association.name
        && |t.others| <= |aend.association.ends|
        && ((exists j :: 0 <= j < |aend.association.ends| && aend.association.ends[j] != aend) ==> t.others != [])
        && (t.others != [] ==>
              exists j :: 0 <= j < |aend.association.ends|
                && aend.association.ends[j].cls == t.others[0]
                && forall i :: 0 <= i < j ==> aend.association.ends[i] == aend)
    {
      if aend == null then NoEnd
      else if aend.association == null then Detached
      else Owned(co.endType(aend.cls, aend.multiplicity, aend.ordered), aend.association.name, ClassesOf(Without(aend.association.ends, aend)))
    }

    /** Derive-expression generation. It is meant to follow structural
        generation of the whole model, but any state is allowed: a missing end
        or association gives the null dereference the code would throw. */
    method GenDerived(ctx: Context, co: Collaborators) returns (r: Outcome)
      modifies ctx`scopes, ctx`exprContext, aend
      ensures var st := Derivation(old(derived), old(Target(co)), old(RoleName(Decl(), ctx.model, co)),
                                   old(ctx.scopes), old(ctx.exprContext), co);
        && r == st.outcome
        && ctx.scopes == st.scopes
        && ctx.exprContext == st.exprContext
        && (aend != null ==>
              && aend.deriveExpression == (if st.attached.Some? then st.attached else old(aend.deriveExpression))
              && aend.union == old(aend.union) && aend.association == old(aend.association))
    {
      ghost var target := Target(co);
      if !IsDerived() {
        return Completed;
      }
      ctx.EnterScope();
      if aend == null {
        return Raised(NullPointer);
      }
      var association := aend.association;
      if association == null {
        return Raised(NullPointer);
      }
      var others := Without(association.ends, aend);
      assert target.others == ClassesOf(others);
      if |others| == 0 {
        return Raised(IndexOutOfBounds);
      }
      assert ctx.scopes[..|ctx.scopes| - 1] == old(ctx.scopes);
      r := DeriveWithSelf(ctx, co, others[0].cls, association.name);
    }

    /** The rest of derive-expression generation, once a scope has been entered
        and the class bound to `self` is known. */
    method DeriveWithSelf(ctx: Context, co: Collaborators, self: MClass, associationName: string)
      returns (r: Outcome)
      requires derived.Some? && aend != null
      requires |ctx.scopes| > 0 && ctx.scopes[|ctx.scopes| - 1] == map[]
      modifies ctx`scopes, ctx`exprContext, aend`deriveExpression
      ensures var st := SelfDerivation(derived.value, co.endType(aend.cls, aend.multiplicity, aend.ordered),
                                       associationName, self, RoleName(Decl(), ctx.model, co),
                                       old(ctx.scopes)[..|old(ctx.scopes)| - 1], old(ctx.exprContext), co);
        && r == st.outcome
        && ctx.scopes == st.scopes
        && ctx.exprContext == st.exprContext
        && aend.deriveExpression == (if st.attached.Some? then st.attached else old(aend.deriveExpression))
    {
      ghost var outer := ctx.scopes[..|ctx.scopes| - 1];
      var otherType := self.Type();
      ctx.Add("self", otherType);
      ctx.PushExprContext("self", otherType);
      assert ctx.scopes == WithSelf(outer, self);
      var exp := co.genExpression(derived.value, ctx.scopes);
      if exp.Thrown? {
        return Raised(exp.exception);
      }
      var endType := co.endType(aend.cls, aend.multiplicity, aend.ordered);
      if !co.isSubtypeOf(exp.value.exprType, endType) {
        var role := RoleName(Decl(), ctx.model, co);
        if role.Thrown? {
          return Raised(role.exception);
        }
        return Raised(Semantic(NonConformingDerive(exp.value.exprType, associationName, role.value, endType)));
      }
      aend.SetDeriveExpression(exp.value);
      ctx.ExitScope();
      ctx.PopExprContext();
      return Completed;
    }
  }

  /** Two structural generations in a row build two distinct ends, the node
      keeps the second, and at most one warning is reported. */
  method GenTwice(node: AstAssociationEnd, ctx: Context, kind: int, co: Collaborators)
    returns (first: Result<MAssociationEnd>, second: Result<MAssociationEnd>)
    modifies node`ordered, node`aend, ctx`warnings
    ensures first.Ok? <==> second.Ok?
    ensures first.Ok? ==> first.value != second.value && node.aend == second.value
    ensures |ctx.warnings| <= |old(ctx.warnings)| + 1
  {
    ghost var d := node.Decl();
    first := node.Gen(ctx, kind, co);
    RegenerationIsSilent(d, ctx.model, kind, co);
    assert node.Decl() == d.(ordered := Generation(d, ctx.model, kind, co).ordered);
    second := node.Gen(ctx, kind, co);
  }

  /** A derived end on `owner`, structurally generated in a fresh context
      holding only that class. */
  method GenerateOwnerEnd(co: Collaborators, owner: MClass, mult: AstMultiplicity, expr: AstExpression)
    returns (node: AstAssociationEnd, ctx: Context)
    requires co.genMultiplicity(mult).Ok?
    ensures fresh(ctx) && node.aend != null && fresh(node.aend)
    ensures node.derived == Some(expr) && ctx.scopes == [] && ctx.exprContext == []
    ensures node.aend.cls == owner && node.aend.multiplicity == co.genMultiplicity(mult).value
    ensures !node.aend.ordered && node.aend.association == null
  {
    ctx := new Context(map[owner.name := owner]);
    node := new AstAssociationEnd(owner.name, mult);
    node.SetDerived(Some(expr));
    assert Generation(node.Decl(), ctx.model, 0, co).outcome
        == Ok(EndValue(owner, co.nameAsRolename(owner), co.genMultiplicity(mult).value, 0, false, [], false));
    var generated := node.Gen(ctx, 0, co);
  }

  /** That end, added to a new association after an end on `other`. */
  method BuildBinary(co: Collaborators, owner: MClass, other: MClass, mult: AstMultiplicity, expr: AstExpression)
    returns (node: AstAssociationEnd, ctx: Context)
    requires co.genMultiplicity(mult).Ok?
    ensures fresh(ctx) && node.aend != null && fresh(node.aend)
    ensures node.derived == Some(expr) && ctx.scopes == [] && ctx.exprContext == []
    ensures node.Target(co) == Owned(co.endType(owner, co.genMultiplicity(mult).value, false), "A", [other])
  {
    node, ctx := GenerateOwnerEnd(co, owner, mult, expr);
    var end := node.aend;
    var otherEnd := new MAssociationEnd(other, "other", end.multiplicity, 0, false, []);
    var association := new MAssociation("A");
    association.AddEnd(otherEnd);
    association.AddEnd(end);
    assert association.ends == [otherEnd, end];
    assert Without(association.ends, end) == [otherEnd];
  }

  /** A binary association whose other end is declared before this one: after
      structural generation, derive-expression generation type-checks the
      expression with `self` bound to the other end's class in a single new
      scope, completes exactly when the expression's type conforms to the
      generated end's type, and only then leaves no scope open. */
  method BinaryDeriveScenario(co: Collaborators, owner: MClass, other: MClass,
                              mult: AstMultiplicity, expr: AstExpression)
    returns (r: Outcome, ctx: Context)
    requires co.genMultiplicity(mult).Ok?
    ensures var bound := co.genExpression(expr, [map["self" := other.Type()]]);
      var endType := co.endType(owner, co.genMultiplicity(mult).value, false);
      r.Completed? <==> bound.Ok? && co.isSubtypeOf(bound.value.exprType, endType)
    ensures |ctx.scopes| == if r.Completed? then 0 else 1
  {
    var node;
    node, ctx := BuildBinary(co, owner, other, mult, expr);
    assert WithSelf([], other) == [map["self" := other.Type()]];
    r := node.GenDerived(ctx, co);
  }
}
