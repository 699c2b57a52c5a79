/** The parts of the UML metamodel (org.tzi.use.uml.mm and org.tzi.use.uml.ocl)
    that an association-end declaration produces or reads: types, multiplicities,
    classes, qualifier declarations, typed expressions, association ends and
    associations. Their own source is not part of this model; only what the
    association-end generator relies on is defined here. */
module MetaModel {

  datatype Option<+T> = None | Some(value: T)

  /** Kinds of OCL collection types. */
  datatype CollectionKind = SetKind | BagKind | SequenceKind | OrderedSetKind | AnyCollectionKind

  /** OCL types: the type of a class, a collection of some element type,
      or any other (primitive, tuple, ...) type known only by its name. */
  datatype Type =
    | ClassType(className: string)
    | CollectionType(kind: CollectionKind, elem: Type)
    | OtherType(name: string)

  function KindName(k: CollectionKind): string
  {
    match k
    case SetKind => "Set"
    case BagKind => "Bag"
    case SequenceKind => "Sequence"
    case OrderedSetKind => "OrderedSet"
    case AnyCollectionKind => "Collection"
  }

  /** The printed form of a type, as it appears in diagnostics. */
  function TypeName(t: Type): string
  {
    match t
    case ClassType(c) => c
    case CollectionType(k, e) => KindName(k) + "(" + TypeName(e) + ")"
    case OtherType(n) => n
  }

  /** A generated multiplicity, known by its printed form such as `0..1, 3..*`;
      what it allows is left to the collaborators that read it. */
  datatype Multiplicity = Multiplicity(text: string)

  /** A class of the model; only its name matters to association ends. */
  datatype MClass = MClass(name: string)
  {
    function Type(): Type
    {
      ClassType(name)
    }
  }

  /** A generated qualifier: a typed variable declaration. */
  datatype VarDecl = VarDecl(name: string, varType: Type)

  /** A generated (type-checked) OCL expression with its static type. */
  datatype Expression = Expression(source: string, exprType: Type)

  /** Everything `createAssociationEnd` is given, plus the union flag set right after. */
  datatype EndValue = EndValue(
    cls: MClass,
    name: string,
    multiplicity: Multiplicity,
    kind: int,
    ordered: bool,
    qualifiers: seq<VarDecl>,
    union: bool)

  /** A model association end. The values fixed by the factory are constants;
      the union flag, the derive expression and the owning association are
      written after creation. */
  class MAssociationEnd {
    const cls: MClass
    const name: string
    const multiplicity: Multiplicity
    const kind: int
    const ordered: bool
    const qualifiers: seq<VarDecl>
    var union: bool
    var deriveExpression: Option<Expression>
    var association: MAssociation?

    /** The model factory's `createAssociationEnd`. */
    constructor (cls: MClass, name: string, multiplicity: Multiplicity, kind: int,
                 ordered: bool, qualifiers: seq<VarDecl>)
      ensures this.cls == cls && this.name == name && this.multiplicity == multiplicity
      ensures this.kind == kind && this.ordered == ordered && this.qualifiers == qualifiers
      ensures !union && deriveExpression == None && association == null
    {
      this.cls := cls;
      this.name := name;
      this.multiplicity := multiplicity;
      this.kind := kind;
      this.ordered := ordered;
      this.qualifiers := qualifiers;
      union := false;
      deriveExpression := None;
      association := null;
    }

    function Value(): EndValue
      reads this
    {
      EndValue(cls, name, multiplicity, kind, ordered, qualifiers, union)
    }

    method SetUnion(b: bool)
      modifies this`union
      ensures union == b
    {
      union := b;
    }

    method SetDeriveExpression(e: Expression)
      modifies this`deriveExpression
      ensures deriveExpression == Some(e)
    {
      deriveExpression := Some(e);
    }
  }

  /** A model association: a name and its ends in declaration order. */
  class MAssociation {
    const name: string
    var ends: seq<MAssociationEnd>

    constructor (name: string)
      ensures this.name == name && ends == []
    {
      this.name := name;
      ends := [];
    }

    /** Appends an end and makes this association its owner. */
    method AddEnd(e: MAssociationEnd)
      modifies this`ends, e`association
      ensures ends == old(ends) + [e] && e.association == this
    {
      ends := ends + [e];
      e.association := this;
    }
  }

  /** The elements of `ends` other than `e`, in their order. */
  function Without(ends: seq<MAssociationEnd>, e: MAssociationEnd): (r: seq<MAssociationEnd>)
    ensures forall i :: 0 <= i < |r| ==> r[i] in ends && r[i] != e
    ensures forall j :: 0 <= j < |ends| && ends[j] != e ==> ends[j] in r
    ensures |r| <= |ends|
    ensures e !in ends ==> r == ends
    ensures r != [] ==> exists j :: 0 <= j < |ends| && ends[j] == r[0] && forall i :: 0 <= i < j ==> ends[i] == e
  {
    if ends == [] then []
    else
      var rest := Without(ends[1..], e);
      WithoutStep(ends, e, rest);
      if ends[0] == e then rest else [ends[0]] + rest
  }

  /** What one step of `Without` needs from the result on the tail. */
  lemma WithoutStep(ends: seq<MAssociationEnd>, e: MAssociationEnd, rest: seq<MAssociationEnd>)
    requires ends != []
    requires forall i :: 0 <= i < |rest| ==> rest[i] in ends[1..] && rest[i] != e
    requires forall j :: 0 <= j < |ends| - 1 && ends[1..][j] != e ==> ends[1..][j] in rest
    requires rest != [] ==> exists j :: 0 <= j < |ends| - 1 && ends[1..][j] == rest[0] && forall i :: 0 <= i < j ==> ends[1..][i] == e
    ensures forall i :: 0 <= i < |rest| ==> rest[i] in ends
    ensures forall j :: 1 <= j < |ends| && ends[j] != e ==> ends[j] in rest
    ensures ends[0] == e && rest != [] ==>
      exists j :: 0 <= j < |ends| && ends[j] == rest[0] && forall i :: 0 <= i < j ==> ends[i] == e
  {
    forall j | 1 <= j < |ends| && ends[j] != e
      ensures ends[j] in rest
    {
      assert ends[1..][j - 1] == ends[j];
    }
    if ends[0] == e && rest != [] {
      var j :| 0 <= j < |ends| - 1 && ends[1..][j] == rest[0] && forall i :: 0 <= i < j ==> ends[1..][i] == e;
      assert forall i :: 0 <= i < j + 1 ==> ends[i] == e by {
        forall i | 0 <= i < j + 1
          ensures ends[i] == e
        {
          if i > 0 {
            assert ends[i] == ends[1..][i - 1];
          }
        }
      }
      assert ends[j + 1] == rest[0];
    }
  }

  /** `idx` lists, in increasing order, positions of `ends` whose elements make up `r`. */
  ghost predicate SelectedInOrder(ends: seq<MAssociationEnd>, r: seq<MAssociationEnd>, idx: seq<nat>)
  {
    && |idx| == |r|
    && (forall i :: 0 <= i < |idx| ==> idx[i] < |ends| && ends[idx[i]] == r[i])
    && (forall i, j :: 0 <= i < j < |idx| ==> idx[i] < idx[j])
  }

  function Shifted(idx: seq<nat>): (s: seq<nat>)
    ensures |s| == |idx| && forall i :: 0 <= i < |idx| ==> s[i] == idx[i] + 1
  {
    seq(|idx|, i requires 0 <= i < |idx| => idx[i] + 1)
  }

  lemma SelectedShift(ends: seq<MAssociationEnd>, r: seq<MAssociationEnd>, idx: seq<nat>)
    requires ends != [] && SelectedInOrder(ends[1..], r, idx)
    ensures SelectedInOrder(ends, r, Shifted(idx))
  {
    var s := Shifted(idx);
    forall i | 0 <= i < |s|
      ensures s[i] < |ends| && ends[s[i]] == r[i]
    {
      assert ends[1..][idx[i]] == ends[idx[i] + 1];
    }
  }

  lemma SelectedCons(ends: seq<MAssociationEnd>, r: seq<MAssociationEnd>, idx: seq<nat>)
    requires ends != [] && SelectedInOrder(ends[1..], r, idx)
    ensures SelectedInOrder(ends, [ends[0]] + r, [0] + Shifted(idx))
  {
    SelectedShift(ends, r, idx);
    var s := [0] + Shifted(idx);
    var r' := [ends[0]] + r;
    forall i | 0 <= i < |s|
      ensures s[i] < |ends| && ends[s[i]] == r'[i]
    {
      if i > 0 {
        assert s[i] == Shifted(idx)[i - 1] && r'[i] == r[i - 1];
      }
    }
  }

  /** Every position of `ends` holding an end other than `e` is listed in `idx`. */
  ghost predicate CoversKept(ends: seq<MAssociationEnd>, e: MAssociationEnd, idx: seq<nat>)
  {
    forall p :: 0 <= p < |ends| && ends[p] != e ==> p in idx
  }

  lemma ShiftedCovers(ends: seq<MAssociationEnd>, e: MAssociationEnd, idx: seq<nat>)
    requires ends != [] && CoversKept(ends[1..], e, idx)
    ensures forall p :: 1 <= p < |ends| && ends[p] != e ==> p in Shifted(idx)
  {
    var shifted := Shifted(idx);
    forall p | 1 <= p < |ends| && ends[p] != e
      ensures p in shifted
    {
      assert ends[1..][p - 1] == ends[p];
      var k :| 0 <= k < |idx| && idx[k] == p - 1;
      assert shifted[k] == p;
    }
  }

  /** A leading `e` is skipped: the kept positions of the rest move up by one. */
  lemma KeptSkip(ends: seq<MAssociationEnd>, e: MAssociationEnd, r: seq<MAssociationEnd>, idx: seq<nat>)
    requires ends != [] && ends[0] == e
    requires SelectedInOrder(ends[1..], r, idx) && CoversKept(ends[1..], e, idx)
    ensures SelectedInOrder(ends, r, Shifted(idx)) && CoversKept(ends, e, Shifted(idx))
  {
    SelectedShift(ends, r, idx);
    ShiftedCovers(ends, e, idx);
  }

  /** A leading end other than `e` is kept at position 0, before the rest. */
  lemma KeptCons(ends: seq<MAssociationEnd>, e: MAssociationEnd, r: seq<MAssociationEnd>, idx: seq<nat>)
    requires ends != [] && ends[0] != e
    requires SelectedInOrder(ends[1..], r, idx) && CoversKept(ends[1..], e, idx)
    ensures SelectedInOrder(ends, [ends[0]] + r, [0] + Shifted(idx))
    ensures CoversKept(ends, e, [0] + Shifted(idx))
  {
    SelectedCons(ends, r, idx);
    ShiftedCovers(ends, e, idx);
    var kept := [0] + Shifted(idx);
    forall p | 0 <= p < |ends| && ends[p] != e
      ensures p in kept
    {
      if p > 0 {
        assert p in Shifted(idx);
      }
    }
  }

  /** The positions of `ends` the other ends are taken from: every position
      holding an end other than `e`, once each, in increasing order. */
  ghost function KeptPositions(ends: seq<MAssociationEnd>, e: MAssociationEnd): (idx: seq<nat>)
    ensures SelectedInOrder(ends, Without(ends, e), idx)
    ensures CoversKept(ends, e, idx)
  {
    if ends == [] then []
    else
      var rest := KeptPositions(ends[1..], e);
      if ends[0] == e then
        KeptSkip(ends, e, Without(ends[1..], e), rest);
        Shifted(rest)
      else
        KeptCons(ends, e, Without(ends[1..], e), rest);
        [0] + Shifted(rest)
  }
}
