/**
 * HashCodeGenerator: an ASM class visitor that records the instance fields
 * of a class and, at the end of the class, emits
 * `public int hashCode() { return Objects.hash(new Object[]{f1, f2, ...}); }`
 * as bytecode. Emitted instructions are values; a small abstract machine
 * gives them a meaning, so that what the emitted code does can be proved.
 */
module HashCodeGeneration {
  import opened Wrappers

  /** Opcodes.ACC_STATIC */
  const AccStatic: bv32 := 0x0008

  /** isStatic: the ACC_STATIC bit is set. */
  predicate IsStatic(access: bv32) {
    access & AccStatic == AccStatic
  }

  /** Only the ACC_STATIC bit decides; the other modifier bits do not matter. */
  lemma StaticBitDecides(access: bv32)
    ensures IsStatic(access | AccStatic)
    ensures !IsStatic(access & !AccStatic)
    ensures IsStatic(access) <==> access & 0x0008 != 0
  {
  }

  datatype LabelId = StartLabel | EndLabel

  /** The instructions and directives visitEnd hands to the method visitor. */
  datatype Insn =
    | Nop
    | Mark(id: LabelId)
    | IConst(n: int)
    | BiPush(n: int)
    | SiPush(n: int)
    | Ldc(n: int)
    | ANewArray(typeName: string)
    | Dup
    | ALoad(slot: nat)
    | GetField(owner: string, name: string, desc: string)
    | InvokeVirtual(owner: string, name: string, desc: string)
    | InvokeStatic(owner: string, name: string, desc: string)
    | AAStore
    | IReturn
    | Maxs(maxStack: int, maxLocals: int)
    | LocalVariable(name: string, desc: string, start: LabelId, end: LabelId, index: nat)
    | EndCode

  /** visitInt's IllegalStateException. */
  datatype CodegenError = NoConstantFor(n: int)

  /** visitInt: the opcode chosen for pushing a small non-negative int. */
  function PushInt(n: int): (r: Result<Insn, CodegenError>)
    ensures r.Failure? <==> n < 0
    ensures 0 <= n <= 5 ==> r == Success(IConst(n))
    ensures 5 < n <= 127 ==> r == Success(BiPush(n))
    ensures 127 < n <= 32767 ==> r == Success(SiPush(n))
    ensures 32767 < n ==> r == Success(Ldc(n))
  {
    if n <= 5 then (if n < 0 then Failure(NoConstantFor(n)) else Success(IConst(n)))
    else if n <= 127 then Success(BiPush(n))
    else if n <= 32767 then Success(SiPush(n))
    else Success(Ldc(n))
  }

  /** The operand of each push form fits its encoding: ICONST_<n> for 0..5, a signed byte, a signed short. */
  predicate OperandFits(i: Insn) {
    match i
    case IConst(n) => 0 <= n <= 5
    case BiPush(n) => -128 <= n <= 127
    case SiPush(n) => -32768 <= n <= 32767
    case Ldc(_) => true
    case _ => false
  }

  /** The value a push instruction leaves on the stack. */
  function PushedValue(i: Insn): Option<int> {
    match i
    case IConst(n) => Some(n)
    case BiPush(n) => Some(n)
    case SiPush(n) => Some(n)
    case Ldc(n) => Some(n)
    case _ => None
  }

  /** For every count visitInt can be given, it emits a well-formed instruction that pushes exactly that count. */
  lemma PushIntPushes(n: nat)
    ensures PushInt(n).Success?
    ensures OperandFits(PushInt(n).value) && PushedValue(PushInt(n).value) == Some(n)
    ensures n > 5 ==> !PushInt(n).value.IConst?
  {
  }

  function PushNat(n: nat): Insn {
    PushInt(n).value
  }

  /** The box class for a one-character primitive descriptor. */
  function BoxOf(desc: char): Option<string> {
    match desc
    case 'Z' => Some("java/lang/Boolean")
    case 'C' => Some("java/lang/Character")
    case 'B' => Some("java/lang/Byte")
    case 'S' => Some("java/lang/Short")
    case 'I' => Some("java/lang/Integer")
    case 'F' => Some("java/lang/Float")
    case 'J' => Some("java/lang/Long")
    case 'D' => Some("java/lang/Double")
    case _ => None
  }

  const StringBuilderDesc: string := "Ljava/lang/StringBuilder;"

  /** visitConvertToObject: what turns the loaded field into an Object reference. */
  function Convert(desc: string): (r: seq<Insn>)
    ensures |r| <= 1
    ensures desc == StringBuilderDesc ==> r == [InvokeVirtual("java/lang/StringBuilder", "toString", "()Ljava/lang/String;")]
    ensures desc != StringBuilderDesc && |desc| > 1 ==> r == []
    ensures |desc| == 1 && BoxOf(desc[0]).Some? ==>
      r == [InvokeStatic(BoxOf(desc[0]).value, "valueOf", "(" + desc + ")L" + BoxOf(desc[0]).value + ";")]
  {
    if desc == StringBuilderDesc then [InvokeVirtual("java/lang/StringBuilder", "toString", "()Ljava/lang/String;")]
    else if |desc| != 1 then []
    else match BoxOf(desc[0])
      case None => []
      case Some(box) => [InvokeStatic(box, "valueOf", "(" + desc + ")L" + box + ";")]
  }

  /** The instructions that store field `name` at `index` of the array on the stack. */
  function StoreBlock(owner: string, name: string, desc: string, index: nat): seq<Insn> {
    [Dup, PushNat(index), ALoad(0), GetField(owner, name, desc)] + Convert(desc) + [AAStore]
  }

  /** The store blocks for the fields in `order`, numbered from 0. */
  function Stores(owner: string, fields: map<string, string>, order: seq<string>): seq<Insn>
    requires forall k :: k in order ==> k in fields
  {
    if order == [] then []
    else
      var last := order[|order| - 1];
      Stores(owner, fields, order[..|order| - 1]) + StoreBlock(owner, last, fields[last], |order| - 1)
  }

  /** `order` lists every recorded field exactly once: one iteration order of the HashMap. */
  predicate Enumerates(order: seq<string>, fields: map<string, string>) {
    (forall i, j :: 0 <= i < j < |order| ==> order[i] != order[j]) &&
    (forall k :: k in order ==> k in fields) && (forall k :: k in fields ==> k in order)
  }

  /** The whole hashCode() method visitEnd emits, for one iteration order. */
  function HashCodeBody(owner: string, fields: map<string, string>, order: seq<string>): seq<Insn>
    requires forall k :: k in order ==> k in fields
  {
    [Nop, Mark(StartLabel), PushNat(|fields|), ANewArray("java/lang/Object")] +
    Stores(owner, fields, order) +
    Epilogue(owner, |fields|)
  }

  /** After the stores: hash the array, return, and describe the frame. */
  function Epilogue(owner: string, count: nat): seq<Insn> {
    [InvokeStatic("java/util/Objects", "hash", "([Ljava/lang/Object;)I"), IReturn, Mark(EndLabel),
     Maxs(count + 1, 1), LocalVariable("this", "L" + owner + ";", StartLabel, EndLabel, 0), EndCode]
  }

  /** Appending a block after the stores so far, regrouped. */
  lemma AppendAssoc(prefix: seq<Insn>, stores: seq<Insn>, block: seq<Insn>)
    ensures prefix + stores + block == prefix + (stores + block)
  {
  }

  /** The class visitor's state. */
  class Generator {
    var fields: map<string, string>
    var definingType: string

    constructor ()
      ensures fields == map[] && definingType == ""
    {
      fields := map[];
      definingType := "";
    }

    /** visit: remembers the internal name of the class being visited. */
    method Visit(name: string)
      modifies this
      ensures definingType == name && fields == old(fields)
    {
      definingType := name;
    }

    /** visitField: records instance fields only; a repeated name keeps the later descriptor. */
    method VisitField(access: bv32, name: string, desc: string)
      modifies this
      ensures IsStatic(access) ==> fields == old(fields)
      ensures !IsStatic(access) ==> fields == old(fields)[name := desc]
      ensures definingType == old(definingType)
    {
      if !IsStatic(access) {
        fields := fields[name := desc];
      }
    }

    /**
     * visitEnd: the instruction stream, with the fields taken in `order`
     * (the map's iteration order) and the running index counting from 0.
     */
    method VisitEnd(order: seq<string>) returns (code: seq<Insn>)
      requires Enumerates(order, fields)
      ensures code == HashCodeBody(definingType, fields, order)
    {
      PushIntPushes(|fields|);
      code := [Nop, Mark(StartLabel), PushNat(|fields|), ANewArray("java/lang/Object")];
      ghost var prefix := code;
      var index := 0;
      while index < |order|
        invariant 0 <= index <= |order|
        invariant code == prefix + Stores(definingType, fields, order[..index])
      {
        var name := order[index];
        var desc := fields[name];
        PushIntPushes(index);
        var block := [Dup, PushNat(index), ALoad(0), GetField(definingType, name, desc)] + Convert(desc) + [AAStore];
        StoresSnoc(definingType, fields, order, index);
        AppendAssoc(prefix, Stores(definingType, fields, order[..index]), block);
        code := code + block;
        index := index + 1;
      }
      assert order[..index] == order;
      code := code + Epilogue(definingType, |fields|);
    }
  }

  // ---- An abstract machine for the emitted code ----

  /** Operand stack entries: ints, `this`, the new array, loaded fields, Objects, and the hash. */
  datatype Value = IntV(v: int) | ThisRef | ArrayRef(length: int) | FieldV(name: string, desc: string)
                 | ObjectV(name: string) | HashV

  /** The operand stack (top last) and the (index, field) stores made into the array so far. */
  datatype Machine = Machine(stack: seq<Value>, stored: seq<(int, string)>)

  /** A one-character field descriptor is one of the eight primitives; longer ones are references. */
  predicate IsFieldDescriptor(desc: string) {
    |desc| > 1 || (|desc| == 1 && BoxOf(desc[0]).Some?)
  }

  /** A value AASTORE may put into an Object[]: a reference, never a raw primitive. */
  predicate IsReference(v: Value) {
    v.ObjectV? || (v.FieldV? && |v.desc| > 1)
  }

  /** One step; None when the instruction finds the stack in a shape it cannot use. */
  function Step(m: Machine, i: Insn): Option<Machine> {
    var st := m.stack;
    var n := |st|;
    match i
    case IConst(k) => Some(m.(stack := st + [IntV(k)]))
    case BiPush(k) => Some(m.(stack := st + [IntV(k)]))
    case SiPush(k) => Some(m.(stack := st + [IntV(k)]))
    case Ldc(k) => Some(m.(stack := st + [IntV(k)]))
    case ANewArray(_) =>
      if n >= 1 && st[n - 1].IntV? && st[n - 1].v >= 0 then Some(m.(stack := st[..n - 1] + [ArrayRef(st[n - 1].v)])) else None
    case Dup => if n >= 1 then Some(m.(stack := st + [st[n - 1]])) else None
    case ALoad(slot) => if slot == 0 then Some(m.(stack := st + [ThisRef])) else None
    case GetField(_, name, desc) =>
      if n >= 1 && st[n - 1] == ThisRef then Some(m.(stack := st[..n - 1] + [FieldV(name, desc)])) else None
    case InvokeVirtual(_, _, _) =>
      if n >= 1 && st[n - 1].FieldV? then Some(m.(stack := st[..n - 1] + [ObjectV(st[n - 1].name)])) else None
    case InvokeStatic(owner, name, _) =>
      if owner == "java/util/Objects" && name == "hash" then
        (if n >= 1 && st[n - 1].ArrayRef? then Some(m.(stack := st[..n - 1] + [HashV])) else None)
      else if n >= 1 && st[n - 1].FieldV? then Some(m.(stack := st[..n - 1] + [ObjectV(st[n - 1].name)]))
      else None
    case AAStore =>
      if n >= 3 && IsReference(st[n - 1]) && st[n - 2].IntV? && st[n - 3].ArrayRef? &&
         0 <= st[n - 2].v < st[n - 3].length
      then Some(Machine(st[..n - 3], m.stored + [(st[n - 2].v, st[n - 1].name)]))
      else None
    case IReturn => if n >= 1 && st[n - 1] == HashV then Some(m.(stack := st[..n - 1])) else None
    case _ => Some(m)
  }

  function Run(m: Machine, code: seq<Insn>): Option<Machine>
    decreases |code|
  {
    if code == [] then Some(m)
    else match Step(m, code[0])
      case None => None
      case Some(m') => Run(m', code[1..])
  }

  lemma {:induction false} RunAppend(m: Machine, a: seq<Insn>, b: seq<Insn>)
    ensures Run(m, a + b) == (match Run(m, a) case None => None case Some(m') => Run(m', b))
    decreases |a|
  {
    if a != [] {
      assert (a + b)[0] == a[0];
      assert (a + b)[1..] == a[1..] + b;
      match Step(m, a[0])
      case None =>
      case Some(m') => RunAppend(m', a[1..], b);
    } else {
      assert a + b == b;
    }
  }

  /** The stores the emitted code should make: field order[i] at index i. */
  function Indexed(order: seq<string>): (r: seq<(int, string)>)
    ensures |r| == |order| && forall i :: 0 <= i < |order| ==> r[i] == (i, order[i])
  {
    seq(|order|, i requires 0 <= i < |order| => (i, order[i]))
  }

  /** Extending `order` by one field appends that field's block. */
  lemma StoresSnoc(owner: string, fields: map<string, string>, order: seq<string>, i: nat)
    requires forall k :: k in order ==> k in fields
    requires i < |order|
    ensures Stores(owner, fields, order[..i + 1]) ==
            Stores(owner, fields, order[..i]) + StoreBlock(owner, order[i], fields[order[i]], i)
  {
    assert order[..i + 1][..i] == order[..i];
  }

  /** Running a leading instruction whose step is known. */
  lemma RunFirst(m: Machine, i: Insn, rest: seq<Insn>, m': Machine)
    requires Step(m, i) == Some(m')
    ensures Run(m, [i] + rest) == Run(m', rest)
  {
    assert ([i] + rest)[1..] == rest;
  }

  /** One store block puts its field at its index, leaving the array reference as it found it. */
  lemma StoreBlockStores(owner: string, name: string, desc: string, index: nat, length: int, stored: seq<(int, string)>)
    requires IsFieldDescriptor(desc) && index < length
    ensures Run(Machine([ArrayRef(length)], stored), StoreBlock(owner, name, desc, index)) ==
            Some(Machine([ArrayRef(length)], stored + [(index, name)]))
  {
    var a := ArrayRef(length);
    var m0 := Machine([a], stored);
    var m1 := Machine([a, a], stored);
    var m2 := Machine([a, a, IntV(index)], stored);
    var m3 := Machine([a, a, IntV(index), ThisRef], stored);
    var m4 := Machine([a, a, IntV(index), FieldV(name, desc)], stored);
    var conv := Convert(desc);
    var storedValue := if conv == [] then FieldV(name, desc) else ObjectV(name);
    var m5 := Machine([a, a, IntV(index), storedValue], stored);
    var m6 := Machine([a], stored + [(index, name)]);
    assert Step(m0, Dup) == Some(m1) by { assert [a] + [a] == [a, a]; }
    assert Step(m1, PushNat(index)) == Some(m2) by {
      PushNatSteps(m1, index);
      assert [a, a] + [IntV(index)] == [a, a, IntV(index)];
    }
    assert Step(m2, ALoad(0)) == Some(m3) by { assert [a, a, IntV(index)] + [ThisRef] == m3.stack; }
    assert Step(m3, GetField(owner, name, desc)) == Some(m4) by { assert m3.stack[..3] + [FieldV(name, desc)] == m4.stack; }
    assert Step(m5, AAStore) == Some(m6) by { assert m5.stack[..1] == [a]; }
    var tail := conv + [AAStore];
    assert Run(m4, tail) == Some(m6) by {
      if conv == [] {
        assert tail == [AAStore] + [];
        RunFirst(m4, AAStore, [], m6);
      } else {
        assert Step(m4, conv[0]) == Some(m5) by { assert m4.stack[..3] + [ObjectV(name)] == m5.stack; }
        assert tail == [conv[0]] + ([AAStore] + []);
        RunFirst(m4, conv[0], [AAStore] + [], m5);
        RunFirst(m5, AAStore, [], m6);
      }
    }
    assert StoreBlock(owner, name, desc, index) ==
      [Dup] + ([PushNat(index)] + ([ALoad(0)] + ([GetField(owner, name, desc)] + tail)));
    RunFirst(m0, Dup, [PushNat(index)] + ([ALoad(0)] + ([GetField(owner, name, desc)] + tail)), m1);
    RunFirst(m1, PushNat(index), [ALoad(0)] + ([GetField(owner, name, desc)] + tail), m2);
    RunFirst(m2, ALoad(0), [GetField(owner, name, desc)] + tail, m3);
    RunFirst(m3, GetField(owner, name, desc), tail, m4);
  }

  /** The store blocks fill the array with field order[i] at index i, in that order. */
  lemma {:induction false} StoresFill(owner: string, fields: map<string, string>, order: seq<string>, length: int)
    requires forall k :: k in order ==> k in fields && IsFieldDescriptor(fields[k])
    requires |order| <= length
    ensures Run(Machine([ArrayRef(length)], []), Stores(owner, fields, order)) ==
            Some(Machine([ArrayRef(length)], Indexed(order)))
    decreases |order|
  {
    if order != [] {
      var front := order[..|order| - 1];
      var last := order[|order| - 1];
      StoresFill(owner, fields, front, length);
      RunAppend(Machine([ArrayRef(length)], []), Stores(owner, fields, front),
                StoreBlock(owner, last, fields[last], |order| - 1));
      StoreBlockStores(owner, last, fields[last], |order| - 1, length, Indexed(front));
      assert Indexed(front) + [(|order| - 1, last)] == Indexed(order);
    }
  }

  /** The push visitInt chooses for a count leaves exactly that count on the stack. */
  lemma PushNatSteps(m: Machine, n: nat)
    ensures Step(m, PushNat(n)) == Some(Machine(m.stack + [IntV(n)], m.stored))
  {
    PushIntPushes(n);
  }

  /** The prologue leaves exactly the new array of length n on the stack. */
  lemma PrologueRuns(n: nat)
    ensures Run(Machine([], []), [Nop, Mark(StartLabel), PushNat(n), ANewArray("java/lang/Object")]) ==
            Some(Machine([ArrayRef(n)], []))
  {
    var e := Machine([], []);
    var pushed := Machine([IntV(n)], []);
    var arr := Machine([ArrayRef(n)], []);
    PushNatSteps(e, n);
    assert [] + [IntV(n)] == [IntV(n)];
    assert Step(pushed, ANewArray("java/lang/Object")) == Some(arr) by {
      assert [IntV(n)][..0] + [ArrayRef(n)] == [ArrayRef(n)];
    }
    var rest := [ANewArray("java/lang/Object")] + [];
    var tail2 := [PushNat(n)] + rest;
    var tail1 := [Mark(StartLabel)] + tail2;
    assert [Nop, Mark(StartLabel), PushNat(n), ANewArray("java/lang/Object")] == [Nop] + tail1;
    RunFirst(e, Nop, tail1, e);
    RunFirst(e, Mark(StartLabel), tail2, e);
    RunFirst(e, PushNat(n), rest, pushed);
    RunFirst(pushed, ANewArray("java/lang/Object"), [], arr);
  }

  /** The epilogue hashes the filled array and returns it, leaving the stores as they are. */
  lemma EpilogueRuns(owner: string, n: nat, stored: seq<(int, string)>)
    ensures Run(Machine([ArrayRef(n)], stored), Epilogue(owner, n)) == Some(Machine([], stored))
  {
    var tail := Epilogue(owner, n);
    var done := Machine([ArrayRef(n)], stored);
    var hashed := Machine([HashV], stored);
    var returned := Machine([], stored);
    var t2 := tail[2..];
    assert tail == [tail[0]] + ([IReturn] + t2);
    assert Step(done, tail[0]) == Some(hashed) by { assert [ArrayRef(n)][..0] + [HashV] == [HashV]; }
    assert Step(hashed, IReturn) == Some(returned) by { assert [HashV][..0] == []; }
    RunFirst(done, tail[0], [IReturn] + t2, hashed);
    RunFirst(hashed, IReturn, t2, returned);
    assert t2 == [t2[0]] + t2[1..] && t2[1..] == [t2[1]] + t2[2..] && t2[2..] == [t2[2]] + t2[3..] && t2[3..] == [EndCode] + [];
    RunFirst(returned, t2[0], t2[1..], returned);
    RunFirst(returned, t2[1], t2[2..], returned);
    RunFirst(returned, t2[2], t2[3..], returned);
    RunFirst(returned, EndCode, [], returned);
  }

  /**
   * Running the emitted hashCode() from an empty stack succeeds, returns
   * the hash with nothing left on the stack, and stores every recorded
   * field exactly once, field order[i] at index i of an array whose length
   * is the number of fields.
   */
  lemma HashCodeFillsArray(owner: string, fields: map<string, string>, order: seq<string>)
    requires Enumerates(order, fields)
    requires forall k :: k in fields ==> IsFieldDescriptor(fields[k])
    ensures Run(Machine([], []), HashCodeBody(owner, fields, order)) == Some(Machine([], Indexed(order)))
    ensures |order| == |fields|
  {
    var n := |fields|;
    EnumerationLength(order, fields);
    var head := [Nop, Mark(StartLabel), PushNat(n), ANewArray("java/lang/Object")];
    var stores := Stores(owner, fields, order);
    PrologueRuns(n);
    StoresFill(owner, fields, order, n);
    EpilogueRuns(owner, n, Indexed(order));
    RunAppend(Machine([], []), head, stores);
    RunAppend(Machine([], []), head + stores, Epilogue(owner, n));
  }

  /** An enumeration of the recorded fields has one entry per field. */
  lemma EnumerationLength(order: seq<string>, fields: map<string, string>)
    requires Enumerates(order, fields)
    ensures |order| == |fields|
  {
    assert (set k | k in order) == fields.Keys;
    DistinctCard(order);
  }

  /** A duplicate-free list has as many distinct elements as entries. */
  lemma {:induction false} DistinctCard(order: seq<string>)
    requires forall i, j :: 0 <= i < j < |order| ==> order[i] != order[j]
    ensures |set k | k in order| == |order|
  {
    if order != [] {
      var front := order[..|order| - 1];
      var last := order[|order| - 1];
      DistinctCard(front);
      assert last !in front;
      assert (set k | k in order) == (set k | k in front) + {last};
    }
  }

  /** The number of AASTORE instructions in a stream. */
  function CountStores(code: seq<Insn>): nat {
    if code == [] then 0 else (if code[0] == AAStore then 1 else 0) + CountStores(code[1..])
  }

  lemma {:induction false} CountStoresAppend(a: seq<Insn>, b: seq<Insn>)
    ensures CountStores(a + b) == CountStores(a) + CountStores(b)
    decreases |a|
  {
    if a == [] {
      assert a + b == b;
    } else {
      assert (a + b)[0] == a[0] && (a + b)[1..] == a[1..] + b;
      CountStoresAppend(a[1..], b);
    }
  }

  lemma {:induction false} NoStores(code: seq<Insn>)
    requires forall i :: 0 <= i < |code| ==> code[i] != AAStore
    ensures CountStores(code) == 0
    decreases |code|
  {
    if code != [] {
      NoStores(code[1..]);
    }
  }

  /** Each store block holds exactly one AASTORE, whatever the conversion. */
  lemma BlockHasOneStore(owner: string, name: string, desc: string, index: nat)
    ensures CountStores(StoreBlock(owner, name, desc, index)) == 1
  {
    PushIntPushes(index);
    var front := [Dup, PushNat(index), ALoad(0), GetField(owner, name, desc)];
    NoStores(front);
    assert CountStores(Convert(desc)) == 0 by {
      if Convert(desc) != [] {
        assert Convert(desc)[1..] == [];
      }
    }
    assert CountStores([AAStore]) == 1 by {
      assert [AAStore][1..] == [];
    }
    CountStoresAppend(front, Convert(desc));
    CountStoresAppend(front + Convert(desc), [AAStore]);
  }

  /** The emitted hashCode() holds exactly one AASTORE per recorded field. */
  lemma {:induction false} OneStorePerField(owner: string, fields: map<string, string>, order: seq<string>)
    requires forall k :: k in order ==> k in fields
    ensures CountStores(Stores(owner, fields, order)) == |order|
    decreases |order|
  {
    if order != [] {
      var last := order[|order| - 1];
      OneStorePerField(owner, fields, order[..|order| - 1]);
      BlockHasOneStore(owner, last, fields[last], |order| - 1);
      CountStoresAppend(Stores(owner, fields, order[..|order| - 1]), StoreBlock(owner, last, fields[last], |order| - 1));
    }
  }

  /** Around the stores, the prologue and epilogue hold no AASTORE: n in all. */
  lemma StoreCountIsFieldCount(owner: string, fields: map<string, string>, order: seq<string>)
    requires Enumerates(order, fields)
    ensures CountStores(HashCodeBody(owner, fields, order)) == |fields|
  {
    var n := |fields|;
    EnumerationLength(order, fields);
    PushIntPushes(n);
    var head := [Nop, Mark(StartLabel), PushNat(n), ANewArray("java/lang/Object")];
    NoStores(head);
    var tail := Epilogue(owner, n);
    NoStores(tail);
    OneStorePerField(owner, fields, order);
    CountStoresAppend(head, Stores(owner, fields, order));
    CountStoresAppend(head + Stores(owner, fields, order), tail);
  }

  /** visitMaxs declares one more stack slot than there are fields, and one local (`this`). */
  lemma DeclaredMaxs(owner: string, fields: map<string, string>, order: seq<string>)
    requires forall k :: k in order ==> k in fields
    ensures var body := HashCodeBody(owner, fields, order);
      body[|body| - 3] == Maxs(|fields| + 1, 1) && body[|body| - 1] == EndCode
  {
  }
}
