/** Exceptions, semantic errors and warnings raised while turning association-end
    declarations into model elements, with the text of their messages. */
module Diagnostics {
  import opened MetaModel

  /** The semantic errors raised by the association-end generator; `Reported`
      stands for an error raised by a collaborator with its own message. */
  datatype SemanticError =
    | UnknownClass(className: string)
    | NonConformingDerive(actual: Type, associationName: string, role: string, expected: Type)
    | Reported(message: string)

  /** What a Java call can throw on the paths modelled here: a SemanticException,
      or the runtime exceptions that a missing object or an empty list gives. */
  datatype Exception =
    | Semantic(error: SemanticError)
    | NullPointer
    | IndexOutOfBounds

  datatype Result<+T> = Ok(value: T) | Thrown(exception: Exception)

  /** Normal or abrupt completion of a call that returns nothing. */
  datatype Outcome = Completed | Raised(exception: Exception)

  /** A warning at the position of a token (identified by its text). */
  datatype Warning = Warning(at: string, message: string)

  /** `s` occurs in `text` starting at index `i`. */
  predicate OccursAt(text: string, s: string, i: nat)
  {
    i + |s| <= |text| && text[i..i + |s|] == s
  }

  /** `s` occurs in `text` as a contiguous piece. */
  ghost predicate Contains(text: string, s: string)
  {
    exists i: nat :: OccursAt(text, s, i)
  }

  function Quoted(s: string): string
  {
    "`" + s + "'"
  }

  function Message(e: SemanticError): string
  {
    match e
    case UnknownClass(c) =>
      "Class `" + c + "' does not exist in this model."
    case NonConformingDerive(actual, assoc, role, expected) =>
      "The type " + Quoted(TypeName(actual)) + " of the derive expression at association end "
      + Quoted(assoc + "::" + role) + " does not conform to the end type "
      + Quoted(TypeName(expected)) + "."
    case Reported(m) => m
  }

  const OrderedIgnoredMessage: string :=
    "Specifying `ordered' for an association end targeting single objects has no effect."

  lemma ContainsMiddle(a: string, s: string, b: string)
    ensures Contains(a + s + b, s)
  {
    var text := a + s + b;
    assert text[|a|..|a| + |s|] == s;
    assert OccursAt(text, s, |a|);
  }

  lemma ContainsExtendRight(text: string, more: string, s: string)
    requires Contains(text, s)
    ensures Contains(text + more, s)
  {
    var i: nat :| OccursAt(text, s, i);
    assert (text + more)[i..i + |s|] == text[i..i + |s|];
    assert OccursAt(text + more, s, i);
  }

  lemma ContainsExtendLeft(more: string, text: string, s: string)
    requires Contains(text, s)
    ensures Contains(more + text, s)
  {
    var i: nat :| OccursAt(text, s, i);
    assert (more + text)[|more| + i..|more| + i + |s|] == text[i..i + |s|];
    assert OccursAt(more + text, s, |more| + i);
  }

  /** The unknown-class error names the missing class. */
  lemma UnknownClassMessageNamesClass(c: string)
    ensures Contains(Message(UnknownClass(c)), c)
  {
    ContainsMiddle("Class `", c, "' does not exist in this model.");
  }

  /** The conformance error names the inferred type, the end type and `Association::role`. */
  lemma NonConformingMessageNamesTypesAndEnd(actual: Type, assoc: string, role: string, expected: Type)
    ensures var m := Message(NonConformingDerive(actual, assoc, role, expected));
      && Contains(m, TypeName(actual))
      && Contains(m, TypeName(expected))
      && Contains(m, assoc + "::" + role)
  {
    var p1 := "The type ";
    var p2 := " of the derive expression at association end ";
    var p3 := " does not conform to the end type ";
    var ta, te, qe := TypeName(actual), TypeName(expected), assoc + "::" + role;
    var m1 := p1 + Quoted(ta);
    var m2 := m1 + p2;
    var m3 := m2 + Quoted(qe);
    var m4 := m3 + p3;
    var m5 := m4 + Quoted(te);
    assert Message(NonConformingDerive(actual, assoc, role, expected)) == m5 + ".";
    ContainsMiddle("`", ta, "'");
    ContainsExtendLeft(p1, Quoted(ta), ta);
    ContainsExtendRight(m1, p2, ta);
    ContainsExtendRight(m2, Quoted(qe), ta);
    ContainsExtendRight(m3, p3, ta);
    ContainsExtendRight(m4, Quoted(te), ta);
    ContainsExtendRight(m5, ".", ta);
    ContainsMiddle("`", qe, "'");
    ContainsExtendLeft(m2, Quoted(qe), qe);
    ContainsExtendRight(m3, p3, qe);
    ContainsExtendRight(m4, Quoted(te), qe);
    ContainsExtendRight(m5, ".", qe);
    ContainsMiddle("`", te, "'");
    ContainsExtendLeft(m4, Quoted(te), te);
    ContainsExtendRight(m5, ".", te);
  }
}
