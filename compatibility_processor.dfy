/**
 * CompatibilityProcessor: rewrites a generated payload class so that the
 * CAFE DDS implementation accepts it. A KeyList annotation is built from
 * the commented fields, setter statements are qualified with `this.`, and
 * the trailing '_' IHMC puts on field names is removed from the text.
 */
module CompatibilityPatching {
  import opened Wrappers
  import opened Strings
  import opened SourceModel

  /** The compatibility targets; CAFE is the only one with a pass. */
  datatype CompatibilityType = Cafe | OtherCompatibility(name: string)

  const KeyComment: string := "@key"
  const IhmcCopy: string := "PubSubType.staticCopy("

  /**
   * Whether `(?<=\w)_(?=\b)` matches at position i: an '_' after a word
   * character and before a non-word character or the end. Both lookarounds
   * read the original text, so every position is decided independently.
   */
  predicate UnderscoreRemoved(s: string, i: nat)
    requires i < |s|
  {
    s[i] == '_' && i > 0 && IsWordChar(s[i - 1]) && (i + 1 == |s| || !IsWordChar(s[i + 1]))
  }

  /** The characters of s from position i on that the replacement keeps. */
  function KeptFrom(s: string, i: nat): (r: string)
    requires i <= |s|
    ensures |r| <= |s| - i
    decreases |s| - i
  {
    if i == |s| then ""
    else (if UnderscoreRemoved(s, i) then "" else [s[i]]) + KeptFrom(s, i + 1)
  }

  /** replaceAll("(?<=\\w)_(?=\\b)", "") */
  function StripUnderscores(s: string): (r: string)
    ensures |r| <= |s|
  {
    KeptFrom(s, 0)
  }

  /** Text without an underscore comes back unchanged. */
  lemma {:induction false} NoUnderscoreUnchangedFrom(s: string, i: nat)
    requires i <= |s| && '_' !in s
    ensures KeptFrom(s, i) == s[i..]
    decreases |s| - i
  {
    if i < |s| {
      NoUnderscoreUnchangedFrom(s, i + 1);
      assert s[i..] == [s[i]] + s[i + 1..];
    }
  }

  lemma NoUnderscoreUnchanged(s: string)
    requires '_' !in s
    ensures StripUnderscores(s) == s
  {
    NoUnderscoreUnchangedFrom(s, 0);
  }

  /** Only underscores are ever removed: every other character keeps its count. */
  lemma {:induction false} OnlyUnderscoresRemovedFrom(s: string, i: nat, c: char)
    requires i <= |s| && c != '_'
    ensures multiset(KeptFrom(s, i))[c] == multiset(s[i..])[c]
    decreases |s| - i
  {
    if i < |s| {
      OnlyUnderscoresRemovedFrom(s, i + 1, c);
      assert s[i..] == [s[i]] + s[i + 1..];
    }
  }

  lemma OnlyUnderscoresRemoved(s: string, c: char)
    requires c != '_'
    ensures multiset(StripUnderscores(s))[c] == multiset(s)[c]
  {
    OnlyUnderscoresRemovedFrom(s, 0, c);
    assert s[0..] == s;
  }

  /** Inside `w + "_"` no position of w is a match, so the scan from i copies the rest of w. */
  lemma {:induction false} WordSuffixFrom(w: string, i: nat)
    requires IsWord(w) && i <= |w|
    ensures KeptFrom(w + "_", i) == w[i..]
    decreases |w| - i
  {
    var s := w + "_";
    if i == |w| {
      assert UnderscoreRemoved(s, i) by {
        assert s[i - 1] == w[|w| - 1];
      }
      assert KeptFrom(s, i + 1) == "";
    } else {
      WordSuffixFrom(w, i + 1);
      assert !UnderscoreRemoved(s, i) by {
        if s[i] == '_' {
          assert IsWordChar(s[i + 1]) by {
            if i + 1 < |w| { assert s[i + 1] == w[i + 1]; }
          }
        }
      }
      assert w[i..] == [w[i]] + w[i + 1..];
    }
  }

  /** The IHMC field name `w_` becomes `w`. */
  lemma TrailingUnderscoreRemoved(w: string)
    requires IsWord(w)
    ensures StripUnderscores(w + "_") == w
  {
    WordSuffixFrom(w, 0);
  }

  /** A doubled trailing underscore loses only its last '_', so the replacement is not idempotent. */
  lemma DoubleUnderscoreKeepsOne()
    ensures StripUnderscores("a__") == "a_"
    ensures StripUnderscores(StripUnderscores("a__")) == "a"
  {
    var s := "a__";
    assert !UnderscoreRemoved(s, 0) && !UnderscoreRemoved(s, 1) && UnderscoreRemoved(s, 2);
    assert KeptFrom(s, 2) == "";
    var t := "a_";
    assert !UnderscoreRemoved(t, 0) && UnderscoreRemoved(t, 1);
    assert KeptFrom(t, 1) == "";
  }

  /** The key for a commented field: its name without the last character. */
  function KeyName(name: Identifier): (k: string)
    ensures |k| == |name| - 1 && k == name[..|name| - 1]
  {
    name[..|name| - 1]
  }

  /** Key names undo the '_' IHMC appends to field names. */
  lemma KeyNameDropsIhmcSuffix(w: string)
    ensures KeyName(w + "_") == w
  {
    assert (w + "_")[..|w|] == w;
  }

  /** `{"k1","k2"}` as String.join builds it. */
  function RenderKeys(keys: seq<string>): string {
    "{\"" + Join(keys, "\",\"") + "\"}"
  }

  /** No commented field still renders one empty key. */
  lemma RenderNoKeys()
    ensures RenderKeys([]) == "{\"\"}"
  {
  }

  lemma RenderOneKey(k: string)
    ensures RenderKeys([k]) == "{\"" + k + "\"}"
  {
  }

  /** The primary type's name after its last '.'. */
  function TopicType(primaryType: string): (r: string)
    ensures '.' !in r
    ensures '.' !in primaryType ==> r == primaryType
    ensures '.' in primaryType ==>
      |r| < |primaryType| && primaryType[|primaryType| - |r| - 1] == '.' && r == primaryType[|primaryType| - |r|..]
  {
    var i := LastIndexOf(primaryType, '.');
    if i < 0 then primaryType else primaryType[i + 1..]
  }

  /** The key a member contributes: one for a field with a comment attached. */
  function MemberKeys(m: Member): seq<string> {
    if HasKeyComment(m) then [KeyName(m.field.name)] else []
  }

  /** A field declaration with a comment attached: the fields that carry IDL key markers. */
  predicate HasKeyComment(m: Member) {
    m.FieldMember? && m.field.comment.Some?
  }

  /** The keys of the commented fields, in member order. */
  function CommentedKeys(ms: seq<Member>): (r: seq<string>)
    ensures |r| <= |ms|
  {
    if ms == [] then [] else CommentedKeys(ms[..|ms| - 1]) + MemberKeys(ms[|ms| - 1])
  }

  /** A member with the comment of a field removed. */
  function ClearComment(m: Member): (r: Member)
    ensures !HasKeyComment(r)
    ensures !m.FieldMember? ==> r == m
    ensures m.FieldMember? ==> r.FieldMember? && r.field.name == m.field.name && r.field.typeName == m.field.typeName
  {
    if m.FieldMember? then FieldMember(m.field.(comment := None)) else m
  }

  function Uncommented(ms: seq<Member>): (r: seq<Member>)
    ensures |r| == |ms| && forall i :: 0 <= i < |ms| ==> r[i] == ClearComment(ms[i])
  {
    seq(|ms|, i requires 0 <= i < |ms| => ClearComment(ms[i]))
  }

  /** visitCafeAnnotation on a unit value; `render` is its toString(). */
  function CafeAnnotated(u: UnitValue, render: UnitValue -> string): (r: UnitValue)
    ensures !Contains(render(u), KeyComment) ==> r == u
    ensures r.imports == u.imports && r.primaryType == u.primaryType
  {
    if !Contains(render(u), KeyComment) then u
    else u.(members := Uncommented(u.members),
            annotations := u.annotations + [KeyList(TopicType(u.primaryType), RenderKeys(CommentedKeys(u.members)))])
  }

  /** A setter statement qualified with `this.`, unless it is IHMC's static copy. */
  function FixStatement(st: Stmt): (r: Stmt)
    ensures !st.ExprStmt? ==> r == st
    ensures st.ExprStmt? && Contains(st.expr, IhmcCopy) ==> r == st
    ensures st.ExprStmt? && !Contains(st.expr, IhmcCopy) ==> r == ExprStmt("this." + st.expr)
  {
    if st.ExprStmt? && !Contains(st.expr, IhmcCopy) then ExprStmt("this." + st.expr) else st
  }

  function FixStatements(body: seq<Stmt>): (r: seq<Stmt>)
    ensures |r| == |body| && forall i :: 0 <= i < |body| ==> r[i] == FixStatement(body[i])
  {
    seq(|body|, i requires 0 <= i < |body| => FixStatement(body[i]))
  }

  /** Methods whose names start with "set" get their statements fixed; nothing else changes. */
  function FixMember(m: Member): (r: Member)
    ensures !(m.MethodDecl? && StartsWith(m.methodName, "set")) ==> r == m
    ensures m.MethodDecl? && StartsWith(m.methodName, "set") ==> r == MethodDecl(m.methodName, m.returnType, m.params, FixStatements(m.body))
  {
    if m.MethodDecl? && StartsWith(m.methodName, "set") then MethodDecl(m.methodName, m.returnType, m.params, FixStatements(m.body)) else m
  }

  function FixSetters(u: UnitValue): (r: UnitValue)
    ensures r.imports == u.imports && r.primaryType == u.primaryType && r.annotations == u.annotations
    ensures |r.members| == |u.members| && forall i :: 0 <= i < |u.members| ==> r.members[i] == FixMember(u.members[i])
  {
    u.(members := seq(|u.members|, i requires 0 <= i < |u.members| => FixMember(u.members[i])))
  }

  /** apply() on a given code text. */
  function CompatPatch(isIdlType: bool, code: string, kind: CompatibilityType,
                       parse: string -> Option<UnitValue>, render: UnitValue -> string): (r: Result<string, PatchError>)
    ensures !isIdlType || kind != Cafe ==> r == Success(code)
    ensures r.Failure? <==> isIdlType && kind == Cafe && parse(code).None?
  {
    if !isIdlType then Success(code)
    else match kind
      case Cafe =>
        (match parse(code)
         case None => Failure(ParseProblems)
         case Some(u) => Success(StripUnderscores(render(FixSetters(CafeAnnotated(u, render))))))
      case OtherCompatibility(_) => Success(code)
  }

  /** Taking one more member adds that member's key, if any. */
  lemma CommentedKeysSnoc(ms: seq<Member>, i: nat)
    requires i < |ms|
    ensures CommentedKeys(ms[..i + 1]) == CommentedKeys(ms[..i]) + MemberKeys(ms[i])
  {
    assert ms[..i + 1][..i] == ms[..i];
  }

  /** The comment loop of visitCafeAnnotation: one key per commented field, each comment removed. */
  method CollectKeys(original: seq<Member>) returns (members: seq<Member>, keys: seq<string>)
    ensures members == Uncommented(original) && keys == CommentedKeys(original)
  {
    members := original;
    keys := [];
    var i := 0;
    while i < |members|
      invariant 0 <= i <= |members| == |original|
      invariant keys == CommentedKeys(original[..i])
      invariant forall j :: 0 <= j < |original| ==> members[j] == if j < i then ClearComment(original[j]) else original[j]
    {
      var m := members[i];
      CommentedKeysSnoc(original, i);
      if HasKeyComment(m) {
        keys := keys + [KeyName(m.field.name)];
      }
      members := members[i := ClearComment(m)];
      i := i + 1;
    }
    assert original[..i] == original;
  }

  /** visitCafeAnnotation: collects a key per commented field, clearing the comment, then annotates the type. */
  method VisitCafeAnnotation(cu: CompilationUnit, render: UnitValue -> string)
    modifies cu
    ensures cu.Value() == CafeAnnotated(old(cu.Value()), render)
  {
    if !Contains(render(cu.Value()), KeyComment) {
      return;
    }
    var members, keys := CollectKeys(cu.members);
    cu.members := members;
    cu.annotations := cu.annotations + [KeyList(TopicType(cu.primaryType), RenderKeys(keys))];
  }

  /** The statement loop of visitFixIhmcSetterScope for one setter. */
  method FixSetterBody(body: seq<Stmt>) returns (fixed: seq<Stmt>)
    ensures fixed == FixStatements(body)
  {
    fixed := body;
    for i := 0 to |body|
      invariant |fixed| == |body|
      invariant forall j :: 0 <= j < i ==> fixed[j] == FixStatement(body[j])
      invariant forall j :: i <= j < |body| ==> fixed[j] == body[j]
    {
      var st := fixed[i];
      if st.ExprStmt? && !Contains(st.expr, IhmcCopy) {
        fixed := fixed[i := ExprStmt("this." + st.expr)];
      }
    }
  }

  /** visitFixIhmcSetterScope: every method whose name starts with "set" is rewritten in place. */
  method VisitFixSetterScope(cu: CompilationUnit)
    modifies cu
    ensures cu.Value() == FixSetters(old(cu.Value()))
  {
    ghost var original := cu.members;
    for i := 0 to |cu.members|
      invariant |cu.members| == |original|
      invariant forall j :: 0 <= j < i ==> cu.members[j] == FixMember(original[j])
      invariant forall j :: i <= j < |original| ==> cu.members[j] == original[j]
      invariant cu.imports == old(cu.imports) && cu.primaryType == old(cu.primaryType)
      invariant cu.annotations == old(cu.annotations)
    {
      var m := cu.members[i];
      if m.MethodDecl? && StartsWith(m.methodName, "set") {
        var body := FixSetterBody(m.body);
        cu.members := cu.members[i := MethodDecl(m.methodName, m.returnType, m.params, body)];
      }
    }
  }

  class CompatibilityProcessor {
    const source: SourceState
    const kind: CompatibilityType

    constructor (code: string, kind: CompatibilityType)
      ensures fresh(source) && source.code == code && source.isIdlType == IsIdlSource(code)
      ensures this.kind == kind
    {
      source := new SourceState(code);
      this.kind := kind;
    }

    /** apply(): the CAFE pass stores its result with setCode and returns it. */
    method Apply(parse: string -> Option<UnitValue>, render: UnitValue -> string) returns (r: Result<string, PatchError>)
      modifies source
      ensures r == CompatPatch(source.isIdlType, old(source.code), kind, parse, render)
      ensures r.Success? ==> source.code == r.value
      ensures r.Failure? ==> source.code == old(source.code)
    {
      if !source.isIdlType {
        return Success(source.code);
      }
      match kind {
        case Cafe =>
          var parsed := parse(source.code);
          if parsed.None? {
            return Failure(ParseProblems);
          }
          var cu := new CompilationUnit(parsed.value);
          VisitCafeAnnotation(cu, render);
          VisitFixSetterScope(cu);
          source.SetCode(StripUnderscores(render(cu.Value())));
        case OtherCompatibility(_) =>
      }
      r := Success(source.code);
    }
  }

  /** The positions of the members that are fields with a comment attached. */
  function CommentedPositions(ms: seq<Member>): set<int> {
    set i | 0 <= i < |ms| && HasKeyComment(ms[i])
  }

  /** Extending a prefix by one member adds its position exactly when it is a commented field. */
  lemma CommentedPositionsSnoc(ms: seq<Member>, n: nat)
    requires n < |ms|
    ensures CommentedPositions(ms[..n + 1]) ==
      CommentedPositions(ms[..n]) + (if HasKeyComment(ms[n]) then {n} else {})
  {
    var front, longer := ms[..n], ms[..n + 1];
    forall i | 0 <= i < n ensures longer[i] == front[i] {
    }
  }

  /** One key per commented field. */
  lemma {:induction false} KeysCountCommentedFields(ms: seq<Member>)
    ensures |CommentedKeys(ms)| == |CommentedPositions(ms)|
  {
    if ms != [] {
      var n := |ms| - 1;
      KeysCountCommentedFields(ms[..n]);
      CommentedPositionsSnoc(ms, n);
      assert ms[..n + 1] == ms;
      assert n !in CommentedPositions(ms[..n]);
    }
  }

  /** After the CAFE annotation pass no field carries a comment, and the key list names the commented fields. */
  lemma AnnotationClearsComments(u: UnitValue, render: UnitValue -> string)
    requires Contains(render(u), KeyComment)
    ensures var r := CafeAnnotated(u, render);
      |r.members| == |u.members| &&
      (forall i :: 0 <= i < |r.members| ==> !HasKeyComment(r.members[i])) &&
      |r.annotations| == |u.annotations| + 1 &&
      r.annotations[|u.annotations|] == KeyList(TopicType(u.primaryType), RenderKeys(CommentedKeys(u.members)))
  {
  }
}
