/**
 * The slice of a parsed Java compilation unit the patchers touch: the
 * imports, the primary type's name and annotations, and that type's members
 * in order. Also AbstractProcessor's shared state and its insertAfter.
 */
module SourceModel {
  import opened Wrappers
  import opened Strings

  /** A Java identifier is never empty. */
  type Identifier = s: string | |s| > 0 witness "x"

  datatype Param = Param(typeName: string, name: string)

  /** A statement, kept as the text it prints as. */
  datatype Stmt =
    | ExprStmt(expr: string)
    | ReturnStmt(expr: string)
    | OtherStmt(text: string)

  /** A field declaration: its type, its first variable's name and the comment attached to it. */
  datatype Field = Field(typeName: string, name: Identifier, comment: Option<string>)

  datatype Member =
    | FieldMember(field: Field)
    | ConstructorDecl(className: string, params: seq<Param>, body: seq<Stmt>)
    | MethodDecl(methodName: string, returnType: string, params: seq<Param>, body: seq<Stmt>)
    | OtherMember(text: string)

  datatype Annotation = KeyList(topicType: string, keys: string) | OtherAnnotation(text: string)

  datatype UnitValue = UnitValue(imports: seq<string>, primaryType: string,
                                 annotations: seq<Annotation>, members: seq<Member>)

  /** createCompilationUnit's IllegalStateException when the code does not parse. */
  datatype PatchError = ParseProblems

  /** The predicate insertAfter tests on (previous member or null, member). */
  type Placement = (Option<Member>, Member) -> bool

  /** A parsed compilation unit, edited in place by the visitors. */
  class CompilationUnit {
    var imports: seq<string>
    var primaryType: string
    var annotations: seq<Annotation>
    var members: seq<Member>

    constructor (u: UnitValue)
      ensures Value() == u
    {
      imports := u.imports;
      primaryType := u.primaryType;
      annotations := u.annotations;
      members := u.members;
    }

    /** The unit as a value, which is what toString() prints. */
    function Value(): UnitValue
      reads this
    {
      UnitValue(imports, primaryType, annotations, members)
    }
  }

  /** The generated IHMC payload classes are exactly those that extend Packet. */
  predicate IsIdlSource(code: string) {
    Contains(code, " extends Packet<")
  }

  /**
   * AbstractProcessor's state: the code, replaced by setCode, and whether
   * the code it was built with is a generated payload class, which never
   * changes afterwards.
   */
  class SourceState {
    const isIdlType: bool
    var code: string

    constructor (code: string)
      ensures this.code == code && isIdlType == IsIdlSource(code)
    {
      this.code := code;
      isIdlType := IsIdlSource(code);
    }

    method SetCode(code: string)
      modifies this
      ensures this.code == code
    {
      this.code := code;
    }
  }

  /** The field declarations among the members, in order. */
  function FieldsOf(ms: seq<Member>): (r: seq<Field>)
    ensures |r| <= |ms|
  {
    if ms == [] then []
    else if ms[0].FieldMember? then [ms[0].field] + FieldsOf(ms[1..])
    else FieldsOf(ms[1..])
  }

  /** A field is listed exactly when it is declared among the members. */
  lemma {:induction false} FieldsOfMembership(ms: seq<Member>, f: Field)
    ensures f in FieldsOf(ms) <==> FieldMember(f) in ms
  {
    if ms != [] {
      FieldsOfMembership(ms[1..], f);
      assert FieldMember(f) in ms <==> ms[0] == FieldMember(f) || FieldMember(f) in ms[1..];
    }
  }

  /** The `before` argument insertAfter passes at position i. */
  function Before(ms: seq<Member>, i: nat): Option<Member>
    requires i <= |ms|
  {
    if i == 0 then None else Some(ms[i - 1])
  }

  /** The first position, from `from` on, whose (before, next) pair satisfies the predicate. */
  function FirstMatchFrom(ms: seq<Member>, pred: Placement, from: nat): (r: Option<nat>)
    requires from <= |ms|
    ensures r.Some? ==> from <= r.value < |ms| && pred(Before(ms, r.value), ms[r.value])
    ensures r.Some? ==> forall j :: from <= j < r.value ==> !pred(Before(ms, j), ms[j])
    ensures r.None? ==> forall j :: from <= j < |ms| ==> !pred(Before(ms, j), ms[j])
    decreases |ms| - from
  {
    if from == |ms| then None
    else if pred(Before(ms, from), ms[from]) then Some(from)
    else FirstMatchFrom(ms, pred, from + 1)
  }

  function FirstMatch(ms: seq<Member>, pred: Placement): (r: Option<nat>)
    ensures r.Some? ==> r.value < |ms| && pred(Before(ms, r.value), ms[r.value])
    ensures r.Some? ==> forall j :: 0 <= j < r.value ==> !pred(Before(ms, j), ms[j])
    ensures r.None? ==> forall j :: 0 <= j < |ms| ==> !pred(Before(ms, j), ms[j])
  {
    FirstMatchFrom(ms, pred, 0)
  }

  /** The member list after insertAfter. */
  function Inserted(ms: seq<Member>, body: Member, pred: Placement): seq<Member> {
    match FirstMatch(ms, pred)
    case None => ms
    case Some(i) => ms[..i] + [body] + ms[i..]
  }

  /** A position where the predicate holds, with no earlier one, is the first match. */
  lemma FirstMatchAt(ms: seq<Member>, pred: Placement, i: nat)
    requires i < |ms| && pred(Before(ms, i), ms[i])
    requires forall j :: 0 <= j < i ==> !pred(Before(ms, j), ms[j])
    ensures FirstMatch(ms, pred) == Some(i)
  {
  }

  /**
   * insertAfter: walks the members with an index and inserts the body at
   * the first position the predicate accepts; when none does, nothing is
   * added, not even at the end.
   */
  method InsertAfter(cu: CompilationUnit, body: Member, pred: Placement)
    modifies cu
    ensures cu.members == Inserted(old(cu.members), body, pred)
    ensures cu.imports == old(cu.imports) && cu.primaryType == old(cu.primaryType)
    ensures cu.annotations == old(cu.annotations)
  {
    var ms := cu.members;
    var i := 0;
    while i < |ms|
      invariant 0 <= i <= |ms|
      invariant forall j :: 0 <= j < i ==> !pred(Before(ms, j), ms[j])
    {
      if pred(Before(ms, i), ms[i]) {
        FirstMatchAt(ms, pred, i);
        cu.members := ms[..i] + [body] + ms[i..];
        return;
      }
      i := i + 1;
    }
  }

  /** Insertion adds exactly one member when the predicate matches somewhere, none otherwise. */
  lemma InsertedLength(ms: seq<Member>, body: Member, pred: Placement)
    ensures FirstMatch(ms, pred).Some? ==> |Inserted(ms, body, pred)| == |ms| + 1
    ensures FirstMatch(ms, pred).None? ==> Inserted(ms, body, pred) == ms
  {
  }

  /**
   * At the first matching position i the body sits between the member the
   * predicate saw as `before` and the one it saw as `next`, and taking it
   * out gives the original list back.
   */
  lemma InsertedPlacement(ms: seq<Member>, body: Member, pred: Placement, i: nat)
    requires FirstMatch(ms, pred) == Some(i)
    ensures var r := Inserted(ms, body, pred);
      i + 1 < |r| && r[i] == body && r[i + 1] == ms[i] &&
      (i > 0 ==> r[i - 1] == ms[i - 1]) &&
      r[..i] + r[i + 1..] == ms
  {
    var r := Inserted(ms, body, pred);
    assert r[..i] == ms[..i];
    assert r[i + 1..] == ms[i..];
  }
}
