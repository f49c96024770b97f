/**
 * UtilityProcessor: adds hashCode(), copy() and an all-fields constructor
 * to a generated payload class, each on request.
 */
module UtilityPatching {
  import opened Wrappers
  import opened Strings
  import opened SourceModel

  predicate IsStringBuilder(typeName: string) {
    EndsWith(typeName, "StringBuilder")
  }

  /** The Objects.hash argument for one field. */
  function HashArgument(f: Field): string {
    if IsStringBuilder(f.typeName) then f.name + ".toString()" else f.name
  }

  /** The constructor parameter for one field: a StringBuilder is taken as a String. */
  function ConstructorParameter(f: Field): Param {
    Param(if IsStringBuilder(f.typeName) then "String" else f.typeName, f.name)
  }

  /** The constructor assignment for one field. */
  function ConstructorAssignment(f: Field): Stmt {
    ExprStmt("this." + f.name + " = " +
             (if IsStringBuilder(f.typeName) then "new StringBuilder(" + f.name + ")" else f.name))
  }

  function HashArguments(fields: seq<Field>): (r: seq<string>)
    ensures |r| == |fields| && forall i :: 0 <= i < |fields| ==> r[i] == HashArgument(fields[i])
  {
    seq(|fields|, i requires 0 <= i < |fields| => HashArgument(fields[i]))
  }

  function ConstructorParameters(fields: seq<Field>): (r: seq<Param>)
    ensures |r| == |fields| && forall i :: 0 <= i < |fields| ==> r[i] == ConstructorParameter(fields[i])
  {
    seq(|fields|, i requires 0 <= i < |fields| => ConstructorParameter(fields[i]))
  }

  function ConstructorAssignments(fields: seq<Field>): (r: seq<Stmt>)
    ensures |r| == |fields| && forall i :: 0 <= i < |fields| ==> r[i] == ConstructorAssignment(fields[i])
  {
    seq(|fields|, i requires 0 <= i < |fields| => ConstructorAssignment(fields[i]))
  }

  /** `public int hashCode() { return Objects.hash(args); }` */
  function HashCodeMethod(args: seq<string>): Member {
    MethodDecl("hashCode", "int", [], [ReturnStmt("Objects.hash(" + Join(args, ", ") + ")")])
  }

  /** `public T copy() { T copy = new T(); copy.set(this); return copy; }` */
  function CopyMethod(selfType: string): Member {
    MethodDecl("copy", selfType, [],
               [ExprStmt(selfType + " copy = new " + selfType + "()"), ExprStmt("copy.set(this)"), ReturnStmt("copy")])
  }

  function FieldConstructor(selfType: string, fields: seq<Field>): Member {
    ConstructorDecl(selfType, ConstructorParameters(fields), ConstructorAssignments(fields))
  }

  /** Where copy() goes: right after a method named "set". */
  function AfterSetter(): Placement {
    (before: Option<Member>, next: Member) => before.Some? && before.value.MethodDecl? && before.value.methodName == "set"
  }

  /** Where the constructor goes: between a constructor and a method. */
  function AtConstructorBoundary(): Placement {
    (before: Option<Member>, next: Member) => before.Some? && before.value.ConstructorDecl? && next.MethodDecl?
  }

  function WithHashCode(u: UnitValue): UnitValue {
    u.(imports := u.imports + ["java.util.Objects"],
       members := u.members + [HashCodeMethod(HashArguments(FieldsOf(u.members)))])
  }

  function WithCopy(u: UnitValue): UnitValue {
    u.(members := Inserted(u.members, CopyMethod(u.primaryType), AfterSetter()))
  }

  function WithConstructor(u: UnitValue): UnitValue {
    u.(members := Inserted(u.members, FieldConstructor(u.primaryType, FieldsOf(u.members)), AtConstructorBoundary()))
  }

  /** The requested passes, in the order constructor, copy, hashCode. */
  function Passes(u: UnitValue, hash: bool, copy: bool, ctor: bool): UnitValue {
    var afterCtor := if ctor then WithConstructor(u) else u;
    var afterCopy := if copy then WithCopy(afterCtor) else afterCtor;
    if hash then WithHashCode(afterCopy) else afterCopy
  }

  /** apply() on a given code text; `parse` and `render` stand for JavaParser. */
  function UtilityPatch(isIdlType: bool, code: string, hash: bool, copy: bool, ctor: bool,
                        parse: string -> Option<UnitValue>, render: UnitValue -> string): (r: Result<string, PatchError>)
    ensures !isIdlType ==> r == Success(code)
    ensures !hash && !copy && !ctor ==> r == Success(code)
    ensures r.Failure? <==> isIdlType && (hash || copy || ctor) && parse(code).None?
  {
    if !isIdlType then Success(code)
    else if !hash && !copy && !ctor then Success(code)
    else match parse(code)
      case None => Failure(ParseProblems)
      case Some(u) => Success(render(Passes(u, hash, copy, ctor)))
  }

  /** The hashCode arguments, one per field in order, built by a loop. */
  method CollectHashArguments(fields: seq<Field>) returns (args: seq<string>)
    ensures args == HashArguments(fields)
  {
    args := [];
    for i := 0 to |fields|
      invariant args == HashArguments(fields[..i])
    {
      var f := fields[i];
      if IsStringBuilder(f.typeName) {
        args := args + [f.name + ".toString()"];
      } else {
        args := args + [f.name];
      }
      assert fields[..i + 1] == fields[..i] + [f];
    }
    assert fields[..|fields|] == fields;
  }

  /** The constructor's assignments, one per field in order, built by a loop. */
  method CollectAssignments(fields: seq<Field>) returns (block: seq<Stmt>)
    ensures block == ConstructorAssignments(fields)
  {
    block := [];
    for i := 0 to |fields|
      invariant block == ConstructorAssignments(fields[..i])
    {
      var f := fields[i];
      var name := f.name;
      if IsStringBuilder(f.typeName) {
        block := block + [ExprStmt("this." + name + " = " + ("new StringBuilder(" + name + ")"))];
      } else {
        block := block + [ExprStmt("this." + name + " = " + name)];
      }
      assert fields[..i + 1] == fields[..i] + [f];
    }
    assert fields[..|fields|] == fields;
  }

  /** visitHashcode: appends hashCode() and imports java.util.Objects. */
  method VisitHashcode(cu: CompilationUnit)
    modifies cu
    ensures cu.Value() == WithHashCode(old(cu.Value()))
  {
    var args := CollectHashArguments(FieldsOf(cu.members));
    var hashCodeMethod := MethodDecl("hashCode", "int", [], [ReturnStmt("Objects.hash(" + Join(args, ", ") + ")")]);
    cu.imports := cu.imports + ["java.util.Objects"];
    cu.members := cu.members + [hashCodeMethod];
  }

  /** visitCopy: copy() right after the first "set" method, if it is followed by anything. */
  method VisitCopy(cu: CompilationUnit)
    modifies cu
    ensures cu.Value() == WithCopy(old(cu.Value()))
  {
    InsertAfter(cu, CopyMethod(cu.primaryType), AfterSetter());
  }

  /** visitConstructor: the all-fields constructor at the first constructor/method boundary. */
  method VisitConstructor(cu: CompilationUnit)
    modifies cu
    ensures cu.Value() == WithConstructor(old(cu.Value()))
  {
    var fields := FieldsOf(cu.members);
    var block := CollectAssignments(fields);
    var ctor := ConstructorDecl(cu.primaryType, ConstructorParameters(fields), block);
    InsertAfter(cu, ctor, AtConstructorBoundary());
  }

  class UtilityProcessor {
    const source: SourceState
    const hash: bool
    const copy: bool
    const ctor: bool

    constructor (code: string, hash: bool, copy: bool, ctor: bool)
      ensures fresh(source) && source.code == code && source.isIdlType == IsIdlSource(code)
      ensures this.hash == hash && this.copy == copy && this.ctor == ctor
    {
      source := new SourceState(code);
      this.hash := hash;
      this.copy := copy;
      this.ctor := ctor;
    }

    /** apply(): the gates, then the requested passes on a freshly parsed unit. */
    method Apply(parse: string -> Option<UnitValue>, render: UnitValue -> string) returns (r: Result<string, PatchError>)
      ensures r == UtilityPatch(source.isIdlType, source.code, hash, copy, ctor, parse, render)
    {
      if !source.isIdlType {
        return Success(source.code);
      }
      if !hash && !copy && !ctor {
        return Success(source.code);
      }
      var parsed := parse(source.code);
      if parsed.None? {
        return Failure(ParseProblems);
      }
      var cu := new CompilationUnit(parsed.value);
      if ctor {
        VisitConstructor(cu);
      }
      if copy {
        VisitCopy(cu);
      }
      if hash {
        VisitHashcode(cu);
      }
      r := Success(render(cu.Value()));
    }
  }

  /** One hash argument per field: the name, with `.toString()` exactly for StringBuilder fields. */
  lemma HashArgumentsFollowFields(fields: seq<Field>, i: nat)
    requires i < |fields|
    ensures StartsWith(HashArguments(fields)[i], fields[i].name)
    ensures HashArguments(fields)[i] == fields[i].name <==> !IsStringBuilder(fields[i].typeName)
    ensures IsStringBuilder(fields[i].typeName) ==> EndsWith(HashArguments(fields)[i], ".toString()")
  {
    var f := fields[i];
    if IsStringBuilder(f.typeName) {
      assert |f.name + ".toString()"| > |f.name|;
      assert (f.name + ".toString()")[..|f.name|] == f.name;
    }
  }

  /** The constructor takes one parameter per field, with the field's name, and never a StringBuilder. */
  lemma ConstructorParametersFollowFields(fields: seq<Field>, i: nat)
    requires i < |fields|
    ensures ConstructorParameters(fields)[i].name == fields[i].name
    ensures !IsStringBuilder(ConstructorParameters(fields)[i].typeName)
    ensures !IsStringBuilder(fields[i].typeName) ==> ConstructorParameters(fields)[i].typeName == fields[i].typeName
  {
    if IsStringBuilder(fields[i].typeName) {
      assert !IsStringBuilder("String");
    }
  }

  /**
   * The constructor assigns each field from its parameter: `this.f = new StringBuilder(f)`
   * exactly for a StringBuilder field, `this.f = f` for every other field.
   */
  lemma ConstructorAssignmentsFollowFields(fields: seq<Field>, i: nat)
    requires i < |fields|
    ensures ConstructorAssignments(fields)[i].ExprStmt?
    ensures var lhs := "this." + fields[i].name + " = ";
      (ConstructorAssignments(fields)[i].expr == lhs + "new StringBuilder(" + fields[i].name + ")" <==>
        IsStringBuilder(fields[i].typeName)) &&
      (ConstructorAssignments(fields)[i].expr == lhs + fields[i].name <==> !IsStringBuilder(fields[i].typeName))
  {
    var f := fields[i];
    var lhs := "this." + f.name + " = ";
    var copied := lhs + "new StringBuilder(" + f.name + ")";
    var plain := lhs + f.name;
    assert |copied| > |plain|;
  }

  /** FieldsOf distributes over concatenation. */
  lemma {:induction false} FieldsOfAppend(a: seq<Member>, b: seq<Member>)
    ensures FieldsOf(a + b) == FieldsOf(a) + FieldsOf(b)
  {
    if a == [] {
      assert a + b == b;
    } else {
      var ab := a + b;
      assert ab[0] == a[0];
      assert ab[1..] == a[1..] + b;
      FieldsOfAppend(a[1..], b);
    }
  }

  /** A non-field member between two lists contributes no field. */
  lemma FieldsOfSplice(front: seq<Member>, body: Member, back: seq<Member>)
    requires !body.FieldMember?
    ensures FieldsOf(front + [body] + back) == FieldsOf(front) + FieldsOf(back)
  {
    var single := [body];
    assert single[1..] == [];
    FieldsOfAppend(front + single, back);
    FieldsOfAppend(front, single);
  }

  /** Putting a non-field member anywhere leaves the field list as it was. */
  lemma FieldsOfInsertAt(ms: seq<Member>, i: nat, body: Member)
    requires i <= |ms| && !body.FieldMember?
    ensures FieldsOf(ms[..i] + [body] + ms[i..]) == FieldsOf(ms)
  {
    FieldsOfSplice(ms[..i], body, ms[i..]);
    FieldsOfAppend(ms[..i], ms[i..]);
    assert ms[..i] + ms[i..] == ms;
  }

  /** Inserting a member that is not a field leaves the field list as it was. */
  lemma InsertKeepsFields(ms: seq<Member>, body: Member, pred: Placement)
    requires !body.FieldMember?
    ensures FieldsOf(Inserted(ms, body, pred)) == FieldsOf(ms)
  {
    var m := FirstMatch(ms, pred);
    if m.Some? {
      FieldsOfInsertAt(ms, m.value, body);
    }
  }

  /**
   * The constructor and copy passes add no field, so hashCode, which runs
   * last, still hashes exactly the fields of the parsed class.
   */
  lemma HashCodeSeesOriginalFields(u: UnitValue, copy: bool, ctor: bool)
    ensures var r := Passes(u, true, copy, ctor);
      r.members[|r.members| - 1] == HashCodeMethod(HashArguments(FieldsOf(u.members))) &&
      r.imports == u.imports + ["java.util.Objects"]
  {
    var afterCtor := if ctor then WithConstructor(u) else u;
    if ctor {
      InsertKeepsFields(u.members, FieldConstructor(u.primaryType, FieldsOf(u.members)), AtConstructorBoundary());
    }
    if copy {
      InsertKeepsFields(afterCtor.members, CopyMethod(afterCtor.primaryType), AfterSetter());
    }
  }

  /**
   * copy() lands immediately after the first "set" method, provided some
   * member follows it; k is that method's position.
   */
  lemma CopyFollowsFirstSetter(u: UnitValue, k: nat)
    requires k + 1 < |u.members|
    requires u.members[k].MethodDecl? && u.members[k].methodName == "set"
    requires forall j :: 0 <= j < k ==> !(u.members[j].MethodDecl? && u.members[j].methodName == "set")
    ensures var ms := WithCopy(u).members;
      |ms| == |u.members| + 1 && ms[k] == u.members[k] && ms[k + 1] == CopyMethod(u.primaryType)
  {
    var m := FirstMatch(u.members, AfterSetter());
    assert AfterSetter()(Before(u.members, k + 1), u.members[k + 1]);
    assert m.Some? && m.value == k + 1;
    InsertedPlacement(u.members, CopyMethod(u.primaryType), AfterSetter(), k + 1);
  }

  /** Without a "set" method that has a successor, the copy pass changes nothing. */
  lemma NoSetterNoCopy(u: UnitValue)
    requires forall j :: 0 <= j < |u.members| - 1 ==> !(u.members[j].MethodDecl? && u.members[j].methodName == "set")
    ensures WithCopy(u) == u
  {
  }

  /** The new constructor sits after a constructor and before a method, at the first such boundary. */
  lemma ConstructorAtBoundary(u: UnitValue, i: nat)
    requires FirstMatch(u.members, AtConstructorBoundary()) == Some(i)
    ensures var ms := WithConstructor(u).members;
      0 < i && ms[i - 1].ConstructorDecl? && ms[i] == FieldConstructor(u.primaryType, FieldsOf(u.members)) &&
      ms[i + 1].MethodDecl? &&
      forall j :: 0 < j < i ==> !(u.members[j - 1].ConstructorDecl? && u.members[j].MethodDecl?)
  {
    InsertedPlacement(u.members, FieldConstructor(u.primaryType, FieldsOf(u.members)), AtConstructorBoundary(), i);
    forall j | 0 < j < i ensures !(u.members[j - 1].ConstructorDecl? && u.members[j].MethodDecl?) {
      assert !AtConstructorBoundary()(Before(u.members, j), u.members[j]);
    }
  }
}
