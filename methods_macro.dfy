/** The `methods_impl` attribute macro, as a validator and table builder.
    Its input is an impl block, abstracted to the facts the macro looks
    at; its output is either an error or the edited impl block together
    with one dispatch entry per annotated method. Tokens, spans and the
    wording of the error messages are not modelled. */
module MethodsMacro {
  import opened Wrappers
  import opened SomeIpTypes
  import opened SmipTypes

  /** The argument of `#[smip_method(...)]` as parsed back into a `Meta`. */
  datatype MetaArgs =
    | ArgsUnparsable                                     // `parse_args` fails
    | ArgsPath(ident: string)                            // `#[smip_method(x)]`
    | ArgsList                                           // `#[smip_method(x(...))]`
    | ArgsNameValue(name: Option<string>, value: Expr)  // `#[smip_method(p = e)]`; `None` if `p` is not one identifier

  /** The value after `id =`: an integer literal, another literal, or an
      expression that is not a literal at all (a negative number is one). */
  datatype Expr = IntLit(digits: nat) | OtherLit | NonLiteral

  /** The shape of an attribute: `#[p]`, `#[p(...)]` or `#[p = v]`. */
  datatype AttrMeta = MetaPath | MetaList(args: MetaArgs) | MetaNameValue

  datatype Attr = Attr(path: string, meta: AttrMeta)

  const SmipMethodPath := "smip_method"

  /** `#[allow(unused)]`, which replaces the consumed `smip_method` attribute. */
  const AllowUnused := Attr("allow", MetaList(ArgsPath("unused")))

  /** A method declaration: its attributes, whether its first input is a
      receiver, its number of inputs (the receiver included), its generic
      parameters, whether it has a where clause and a return type. */
  datatype MethodDecl = MethodDecl(
    name: string,
    attrs: seq<Attr>,
    receiverFirst: bool,
    nInputs: nat,
    generics: nat,
    whereClause: bool,
    hasReturn: bool)

  datatype Item = Fn(decl: MethodDecl) | Other

  datatype ImplBlock = ImplBlock(
    isTraitImpl: bool,
    generics: nat,
    whereClause: bool,
    selfTy: string,
    items: seq<Item>)

  datatype MacroError =
    | TraitImpl
    | ImplGenerics
    | ImplWhereClause
    | MethodGenerics
    | MethodWhereClause
    | MissingReceiver
    | WrongArity
    | ArgsParseError
    | ExpectedId
    | IdNotANumber
    | IdOutOfRange
    | ExpectedIdForm
    | DuplicateId(id: MethodId, usedBy: string)
    | NotAMethod

  /** An annotated method together with the id its attribute gave it. */
  type Binding = (MethodDecl, MethodId)

  /** One dispatch entry of the derived `register_methods`: the id, the
      method called, whether the payload is decoded into an argument and
      whether a response is returned. */
  datatype MethodEntry = MethodEntry(id: MethodId, name: string, takesArg: bool, answers: bool)

  /** The derived `impl ServiceMethods for <selfTy>`. */
  datatype ServiceMethodsImpl = ServiceMethodsImpl(selfTy: string, entries: seq<MethodEntry>)

  datatype ExpandOutput = ExpandOutput(block: ImplBlock, derived: ServiceMethodsImpl)

  // ------------------------------------------------------------ the checks

  /** `check_valid_impl`: no trait impl, no generics, no where clause, in
      that order. */
  function CheckValidImpl(b: ImplBlock): (r: Result<(), MacroError>)
    ensures r.Success? <==> !b.isTraitImpl && b.generics == 0 && !b.whereClause
  {
    if b.isTraitImpl then Failure(TraitImpl)
    else if b.generics > 0 then Failure(ImplGenerics)
    else if b.whereClause then Failure(ImplWhereClause)
    else Success(())
  }

  /** `check_valid_method`: no generics, no where clause, a receiver first,
      and at most one argument besides it. */
  function CheckValidMethod(m: MethodDecl): (r: Result<(), MacroError>)
    ensures r.Success? <==>
      m.generics == 0 && !m.whereClause && m.receiverFirst && m.nInputs in {1, 2}
  {
    if m.generics > 0 then Failure(MethodGenerics)
    else if m.whereClause then Failure(MethodWhereClause)
    else if !m.receiverFirst then Failure(MissingReceiver)
    else if !(m.nInputs == 1 || m.nInputs == 2) then Failure(WrongArity)
    else Success(())
  }

  /** The index of the first `smip_method` attribute, if any. */
  function FirstSmipAttr(attrs: seq<Attr>): (r: Option<nat>)
    ensures r.Some? ==> r.value < |attrs| && attrs[r.value].path == SmipMethodPath
    ensures r.Some? ==> forall j :: 0 <= j < r.value ==> attrs[j].path != SmipMethodPath
    ensures r.None? <==> forall j :: 0 <= j < |attrs| ==> attrs[j].path != SmipMethodPath
  {
    if |attrs| == 0 then None
    else if attrs[0].path == SmipMethodPath then Some(0)
    else match FirstSmipAttr(attrs[1..])
      case None => None
      case Some(k) => Some(k + 1)
  }

  /** `extract_method_attr`: scans the attributes in order and stops at the
      first `smip_method`. */
  method ExtractMethodAttr(m: MethodDecl) returns (r: Option<nat>)
    ensures r == FirstSmipAttr(m.attrs)
  {
    var ix := 0;
    while ix < |m.attrs|
      invariant 0 <= ix <= |m.attrs|
      invariant forall j :: 0 <= j < ix ==> m.attrs[j].path != SmipMethodPath
    {
      if m.attrs[ix].path == SmipMethodPath {
        FirstSmipAttrUnique(m.attrs, ix);
        return Some(ix);
      }
      ix := ix + 1;
    }
    return None;
  }

  /** The first `smip_method` attribute is determined by its two defining facts. */
  lemma FirstSmipAttrUnique(attrs: seq<Attr>, ix: nat)
    requires ix < |attrs| && attrs[ix].path == SmipMethodPath
    requires forall j :: 0 <= j < ix ==> attrs[j].path != SmipMethodPath
    ensures FirstSmipAttr(attrs) == Some(ix)
  {
  }

  predicate IsAnnotated(m: MethodDecl) {
    FirstSmipAttr(m.attrs).Some?
  }

  /** `extract_method_id`: only `#[smip_method(id = <integer literal>)]`
      with a value that fits in 16 bits gives an id. */
  function ExtractMethodId(meta: AttrMeta): (r: Result<MethodId, MacroError>)
    ensures r.Success? <==>
      exists n :: n < 0x1_0000 && meta == MetaList(ArgsNameValue(Some("id"), IntLit(n)))
    ensures r.Success? ==> meta == MetaList(ArgsNameValue(Some("id"), IntLit(r.value)))
  {
    match meta
    case MetaList(args) =>
      (match args
       case ArgsUnparsable => Failure(ArgsParseError)
       case ArgsNameValue(name, value) =>
         if name.None? || name.value != "id" then Failure(ExpectedId)
         else (match value
               case IntLit(n) => if n < 0x1_0000 then Success(n) else Failure(IdOutOfRange)
               case _ => Failure(IdNotANumber))
       case _ => Failure(ExpectedIdForm))
    case _ => Failure(ExpectedIdForm)
  }

  /** The id an annotated method's attribute gives. */
  function IdOf(m: MethodDecl): Result<MethodId, MacroError>
    requires IsAnnotated(m)
  {
    ExtractMethodId(m.attrs[FirstSmipAttr(m.attrs).value].meta)
  }

  function RemoveAt<T>(s: seq<T>, ix: nat): (r: seq<T>)
    requires ix < |s|
    ensures |r| == |s| - 1
    ensures forall j :: 0 <= j < ix ==> r[j] == s[j]
    ensures forall j :: ix <= j < |r| ==> r[j] == s[j + 1]
  {
    s[..ix] + s[ix + 1..]
  }

  /** The annotated method as the macro leaves it: the `smip_method`
      attribute removed and `#[allow(unused)]` appended. */
  function Consumed(m: MethodDecl): (r: MethodDecl)
    requires IsAnnotated(m)
    ensures |r.attrs| == |m.attrs| && r.attrs[|r.attrs| - 1] == AllowUnused
    ensures r.attrs[..|r.attrs| - 1] == RemoveAt(m.attrs, FirstSmipAttr(m.attrs).value)
    ensures r.(attrs := m.attrs) == m
  {
    m.(attrs := RemoveAt(m.attrs, FirstSmipAttr(m.attrs).value) + [AllowUnused])
  }

  // ------------------------------------------------------- the expansion

  /** `method_id_to_name`: the map from each recorded id to the name of the
      method that took it. */
  function IdToName(ms: seq<Binding>): (r: map<MethodId, string>)
    ensures r.Keys == set k | 0 <= k < |ms| :: ms[k].1
  {
    if |ms| == 0 then map[]
    else
      var last := ms[|ms| - 1];
      var r := IdToName(ms[..|ms| - 1])[last.1 := last.0.name];
      assert forall id :: id in r.Keys <==> exists k :: 0 <= k < |ms| && ms[k].1 == id by {
        forall id | id in r.Keys ensures exists k :: 0 <= k < |ms| && ms[k].1 == id {
          if id != last.1 {
            var k :| 0 <= k < |ms| - 1 && ms[..|ms| - 1][k].1 == id;
            assert ms[k].1 == id;
          }
        }
        forall id | exists k :: 0 <= k < |ms| && ms[k].1 == id ensures id in r.Keys {
          var k :| 0 <= k < |ms| && ms[k].1 == id;
          if k < |ms| - 1 {
            assert ms[..|ms| - 1][k].1 == id;
          }
        }
      }
      r
  }

  /** Recording one more method maps its id to its name. */
  lemma IdToNameSnoc(ms: seq<Binding>, b: Binding)
    ensures IdToName(ms + [b]) == IdToName(ms)[b.1 := b.0.name]
  {
    assert (ms + [b])[..|ms|] == ms;
  }

  /** One pass of the loop body on one item, given the methods recorded so
      far: the item as left in the block and the binding it records. */
  function StepItem(item: Item, ms: seq<Binding>): Result<(Item, Option<Binding>), MacroError>
  {
    match item
    case Other => Failure(NotAMethod)
    case Fn(m) =>
      if !IsAnnotated(m) then Success((item, None))
      else if CheckValidMethod(m).Failure? then Failure(CheckValidMethod(m).error)
      else match IdOf(m)
        case Failure(e) => Failure(e)
        case Success(id) =>
          var names := IdToName(ms);
          if id in names then Failure(DuplicateId(id, names[id]))
          else Success((Fn(Consumed(m)), Some((Consumed(m), id))))
  }

  function Recorded(b: Option<Binding>): seq<Binding> {
    if b.Some? then [b.value] else []
  }

  /** Puts `pre` in front of the items of a successful result. */
  function Prefix(pre: seq<Item>, r: Result<(seq<Item>, seq<Binding>), MacroError>)
    : Result<(seq<Item>, seq<Binding>), MacroError>
  {
    match r
    case Failure(e) => Failure(e)
    case Success((items, ms)) => Success((pre + items, ms))
  }

  /** The loop over the items, from the methods `ms` recorded so far: the
      edited items and every recorded method, or the first error. */
  function ExpandItems(items: seq<Item>, ms: seq<Binding>)
    : Result<(seq<Item>, seq<Binding>), MacroError>
    decreases |items|
  {
    if |items| == 0 then Success(([], ms))
    else match StepItem(items[0], ms)
      case Failure(e) => Failure(e)
      case Success((item, b)) => Prefix([item], ExpandItems(items[1..], ms + Recorded(b)))
  }

  /** `derive_service_methods`: one entry per recorded method, in order. A
      method with a single input (the receiver) reads no argument. */
  function DeriveServiceMethods(selfTy: string, ms: seq<Binding>): (d: ServiceMethodsImpl)
    ensures d.selfTy == selfTy && |d.entries| == |ms|
    ensures forall k :: 0 <= k < |ms| ==>
      d.entries[k] == MethodEntry(ms[k].1, ms[k].0.name, ms[k].0.nInputs != 1, ms[k].0.hasReturn)
  {
    ServiceMethodsImpl(selfTy,
      seq(|ms|, k requires 0 <= k < |ms| =>
        MethodEntry(ms[k].1, ms[k].0.name, ms[k].0.nInputs != 1, ms[k].0.hasReturn)))
  }

  /** What `expand_methods_impl` produces for an impl block. */
  function ExpandSpec(b: ImplBlock): (r: Result<ExpandOutput, MacroError>)
    ensures CheckValidImpl(b).Failure? ==> r == Failure(CheckValidImpl(b).error)
  {
    if CheckValidImpl(b).Failure? then Failure(CheckValidImpl(b).error)
    else match ExpandItems(b.items, [])
      case Failure(e) => Failure(e)
      case Success((items, ms)) =>
        Success(ExpandOutput(b.(items := items), DeriveServiceMethods(b.selfTy, ms)))
  }

  lemma PrefixPrefix(a: seq<Item>, c: seq<Item>, r: Result<(seq<Item>, seq<Binding>), MacroError>)
    ensures Prefix(a, Prefix(c, r)) == Prefix(a + c, r)
  {
    match r
    case Failure(_) =>
    case Success((items, ms)) => assert a + (c + items) == (a + c) + items;
  }

  lemma PrefixEmpty(r: Result<(seq<Item>, seq<Binding>), MacroError>)
    ensures Prefix([], r) == r
  {
    match r
    case Failure(_) =>
    case Success((items, ms)) => assert [] + items == items;
  }

  /** One turn of the item loop: a successful step on item `i` moves it
      from the items still to walk to the items done. */
  lemma LoopStep(all: seq<Item>, done: seq<Item>, i: nat, ms: seq<Binding>, item: Item, b: Option<Binding>)
    requires i < |all| && StepItem(all[i], ms) == Success((item, b))
    ensures Prefix(done, ExpandItems(all[i..], ms))
      == Prefix(done + [item], ExpandItems(all[i + 1..], ms + Recorded(b)))
  {
    var rest := all[i..];
    assert rest[0] == all[i] && rest[1..] == all[i + 1..];
    assert ExpandItems(rest, ms) == Prefix([item], ExpandItems(rest[1..], ms + Recorded(b)));
    PrefixPrefix(done, [item], ExpandItems(all[i + 1..], ms + Recorded(b)));
  }

  /** A failed step on item `i` is the failure of the whole pass. */
  lemma LoopFail(all: seq<Item>, done: seq<Item>, i: nat, ms: seq<Binding>, e: MacroError)
    requires i < |all| && StepItem(all[i], ms) == Failure(e)
    ensures Prefix(done, ExpandItems(all[i..], ms)) == Failure(e)
  {
    assert all[i..][0] == all[i];
  }

  /** `expand_methods_impl`: checks the block, then walks its items once,
      editing annotated methods in place and recording (method, id) pairs
      and the id-to-name map. */
  method ExpandMethodsImpl(block: ImplBlock) returns (r: Result<ExpandOutput, MacroError>)
    ensures r == ExpandSpec(block)
  {
    var check := CheckValidImpl(block);
    if check.Failure? {
      return Failure(check.error);
    }
    var items := block.items;
    var methods: seq<Binding> := [];
    var methodIdToName: map<MethodId, string> := map[];
    var i := 0;
    assert items[..0] == [] && block.items[0..] == block.items;
    PrefixEmpty(ExpandItems(block.items, []));
    while i < |items|
      invariant 0 <= i <= |items| == |block.items|
      invariant items[i..] == block.items[i..]
      invariant methodIdToName == IdToName(methods)
      invariant ExpandItems(block.items, []) == Prefix(items[..i], ExpandItems(block.items[i..], methods))
    {
      assert items[i] == block.items[i..][0] == block.items[i];
      var step := ExpandItem(items[i], methodIdToName, methods);
      if step.Failure? {
        LoopFail(block.items, items[..i], i, methods, step.error);
        return Failure(step.error);
      }
      var (item, b) := step.value;
      LoopStep(block.items, items[..i], i, methods, item, b);
      var done := items[..i];
      items := items[i := item];
      assert items[..i + 1] == done + [item];
      assert items[i + 1..] == block.items[i + 1..];
      if b.Some? {
        IdToNameSnoc(methods, b.value);
        methodIdToName := methodIdToName[b.value.1 := b.value.0.name];
      } else {
        assert methods + Recorded(b) == methods;
      }
      methods := methods + Recorded(b);
      i := i + 1;
    }
    assert items[..i] == items && block.items[i..] == [] && items + [] == items;
    var derived := DeriveServiceMethods(block.selfTy, methods);
    return Success(ExpandOutput(block.(items := items), derived));
  }

  /** The body of the item loop for one item, given the id-to-name map of
      the methods recorded so far: rejects anything but a method, leaves an
      unannotated method alone, and checks, edits and records an annotated
      one unless its id is taken. */
  method ExpandItem(item: Item, methodIdToName: map<MethodId, string>, ghost ms: seq<Binding>)
    returns (r: Result<(Item, Option<Binding>), MacroError>)
    requires methodIdToName == IdToName(ms)
    ensures r == StepItem(item, ms)
  {
    match item
    case Other =>
      return Failure(NotAMethod);
    case Fn(decl) =>
      var attrIx := ExtractMethodAttr(decl);
      if attrIx.None? {
        return Success((item, None));
      }
      var valid := CheckValidMethod(decl);
      if valid.Failure? {
        return Failure(valid.error);
      }
      var attribute := decl.attrs[attrIx.value];
      var edited := decl.(attrs := RemoveAt(decl.attrs, attrIx.value) + [AllowUnused]);
      var methodId := ExtractMethodId(attribute.meta);
      if methodId.Failure? {
        return Failure(methodId.error);
      }
      if methodId.value in methodIdToName {
        return Failure(DuplicateId(methodId.value, methodIdToName[methodId.value]));
      }
      assert edited == Consumed(decl);
      return Success((Fn(edited), Some((edited, methodId.value))));
  }

  // ------------------------------------------------- properties of the expansion

  /** The annotated methods of a list of items, in declaration order. */
  function Annotated(items: seq<Item>): (r: seq<MethodDecl>)
    ensures forall j :: 0 <= j < |r| ==> IsAnnotated(r[j])
    ensures |r| <= |items|
  {
    if |items| == 0 then []
    else
      var head := if items[0].Fn? && IsAnnotated(items[0].decl) then [items[0].decl] else [];
      head + Annotated(items[1..])
  }

  /** What the loop leaves of one item when it succeeds. */
  function Edited(item: Item): Item {
    if item.Fn? && IsAnnotated(item.decl) then Fn(Consumed(item.decl)) else item
  }

  predicate DistinctIds(ms: seq<Binding>) {
    forall a, b :: 0 <= a < b < |ms| ==> ms[a].1 != ms[b].1
  }

  /** One successful pass of the loop body: the item was a method, it is
      left edited, and an annotated method was valid, had a fresh id and
      was recorded. */
  lemma StepItemSuccess(item: Item, ms: seq<Binding>)
    requires StepItem(item, ms).Success?
    ensures item.Fn?
    ensures StepItem(item, ms).value.0 == Edited(item)
    ensures !IsAnnotated(item.decl) ==> StepItem(item, ms).value.1.None?
    ensures IsAnnotated(item.decl) ==>
      && CheckValidMethod(item.decl).Success? && IdOf(item.decl).Success?
      && IdOf(item.decl).value !in IdToName(ms)
      && StepItem(item, ms).value.1 == Some((Consumed(item.decl), IdOf(item.decl).value))
  {
  }

  /** A successful pass over a non-empty list is a successful step on its
      head followed by a successful pass over its tail. */
  lemma ExpandItemsUnfold(items: seq<Item>, ms: seq<Binding>)
    requires |items| > 0 && ExpandItems(items, ms).Success?
    ensures StepItem(items[0], ms).Success?
    ensures var ms' := ms + Recorded(StepItem(items[0], ms).value.1);
      && ExpandItems(items[1..], ms').Success?
      && ExpandItems(items, ms).value
         == ([StepItem(items[0], ms).value.0] + ExpandItems(items[1..], ms').value.0,
             ExpandItems(items[1..], ms').value.1)
  {
  }

  /** The head of `Annotated`. */
  lemma AnnotatedUnfold(items: seq<Item>)
    requires |items| > 0
    ensures items[0].Fn? && IsAnnotated(items[0].decl) ==>
      Annotated(items) == [items[0].decl] + Annotated(items[1..])
    ensures !(items[0].Fn? && IsAnnotated(items[0].decl)) ==>
      Annotated(items) == Annotated(items[1..])
  {
  }

  /** A successful pass leaves every item a method, edited as `Edited` says. */
  lemma {:induction false} ExpandItemsEdits(items: seq<Item>, ms: seq<Binding>)
    requires ExpandItems(items, ms).Success?
    ensures forall k :: 0 <= k < |items| ==> items[k].Fn?
    ensures |ExpandItems(items, ms).value.0| == |items|
    ensures forall k :: 0 <= k < |items| ==> ExpandItems(items, ms).value.0[k] == Edited(items[k])
    decreases |items|
  {
    if |items| > 0 {
      ExpandItemsUnfold(items, ms);
      var (item, b) := StepItem(items[0], ms).value;
      StepItemSuccess(items[0], ms);
      var ms' := ms + Recorded(b);
      ExpandItemsEdits(items[1..], ms');
      var edited := ExpandItems(items, ms).value.0;
      var edited' := ExpandItems(items[1..], ms').value.0;
      assert edited == [item] + edited';
      forall k | 0 <= k < |items| ensures items[k].Fn? && edited[k] == Edited(items[k]) {
        if k > 0 {
          assert items[k] == items[1..][k - 1];
        }
      }
    }
  }

  /** Binding `b` records annotated method `m`: the method passed its check,
      is kept edited, and `b` carries the id of its attribute. */
  predicate Records(m: MethodDecl, b: Binding)
    requires IsAnnotated(m)
  {
    CheckValidMethod(m).Success? && b.0 == Consumed(m) && IdOf(m) == Success(b.1)
  }

  /** `all` is `ms` followed by one binding per method of `A`, in order. */
  predicate RecordsAfter(all: seq<Binding>, ms: seq<Binding>, A: seq<MethodDecl>)
    requires forall j :: 0 <= j < |A| ==> IsAnnotated(A[j])
  {
    && |all| == |ms| + |A| && all[..|ms|] == ms
    && forall j :: 0 <= j < |A| ==> Records(A[j], all[|ms| + j])
  }

  /** Recording one more method before the rest of a pass. */
  lemma RecordsAfterCons(all: seq<Binding>, ms: seq<Binding>, m: MethodDecl, b: Binding, A: seq<MethodDecl>)
    requires IsAnnotated(m) && Records(m, b)
    requires forall j :: 0 <= j < |A| ==> IsAnnotated(A[j])
    requires RecordsAfter(all, ms + [b], A)
    ensures RecordsAfter(all, ms, [m] + A)
  {
    var A2 := [m] + A;
    var ms' := ms + [b];
    assert all[..|ms'|] == ms';
    assert all[..|ms|] == ms by {
      assert all[..|ms|] == all[..|ms'|][..|ms|];
      assert ms'[..|ms|] == ms;
    }
    assert all[|ms|] == b by {
      assert all[|ms|] == all[..|ms'|][|ms|];
    }
    forall j | 0 <= j < |A2| ensures Records(A2[j], all[|ms| + j]) {
      if j > 0 {
        assert A2[j] == A[j - 1];
        assert |ms| + j == |ms'| + (j - 1);
      }
    }
  }

  /** A successful pass records, after the methods recorded before it, one
      binding per annotated method, in order: the valid, edited method and
      the id its attribute names. */
  lemma {:induction false} ExpandItemsRecords(items: seq<Item>, ms: seq<Binding>)
    requires ExpandItems(items, ms).Success?
    ensures RecordsAfter(ExpandItems(items, ms).value.1, ms, Annotated(items))
    decreases |items|
  {
    if |items| == 0 {
      assert ExpandItems(items, ms).value.1 == ms;
    } else {
      ExpandItemsUnfold(items, ms);
      AnnotatedUnfold(items);
      StepItemSuccess(items[0], ms);
      var b := StepItem(items[0], ms).value.1;
      var ms' := ms + Recorded(b);
      ExpandItemsRecords(items[1..], ms');
      var all := ExpandItems(items, ms).value.1;
      if b.Some? {
        RecordsAfterCons(all, ms, items[0].decl, b.value, Annotated(items[1..]));
      } else {
        assert ms' == ms;
      }
    }
  }

  /** A successful pass never records an id twice. */
  lemma {:induction false} ExpandItemsDistinct(items: seq<Item>, ms: seq<Binding>)
    requires ExpandItems(items, ms).Success? && DistinctIds(ms)
    ensures DistinctIds(ExpandItems(items, ms).value.1)
    decreases |items|
  {
    if |items| > 0 {
      ExpandItemsUnfold(items, ms);
      StepItemSuccess(items[0], ms);
      var b := StepItem(items[0], ms).value.1;
      var ms' := ms + Recorded(b);
      if b.Some? {
        assert b.value.1 !in IdToName(ms);
      }
      assert DistinctIds(ms');
      ExpandItemsDistinct(items[1..], ms');
    }
  }

  /** A successful expansion: the block passed its checks, every item is a
      method, annotated methods were edited and the others left alone, the
      rest of the block is unchanged, and there is one entry per annotated
      method, in declaration order, with distinct ids. Each entry decodes an
      argument exactly when the method takes one besides the receiver, and
      answers exactly when it declares a return type. */
  lemma ExpandAccepted(b: ImplBlock)
    requires ExpandSpec(b).Success?
    ensures var out := ExpandSpec(b).value;
      var A := Annotated(b.items);
      var E := out.derived.entries;
      && CheckValidImpl(b).Success?
      && (forall k :: 0 <= k < |b.items| ==> b.items[k].Fn?)
      && out.block.(items := b.items) == b
      && |out.block.items| == |b.items|
      && (forall k :: 0 <= k < |b.items| ==> out.block.items[k] == Edited(b.items[k]))
      && out.derived.selfTy == b.selfTy
      && |E| == |A|
      && (forall k :: 0 <= k < |A| ==>
            && CheckValidMethod(A[k]).Success?
            && IdOf(A[k]) == Success(E[k].id)
            && E[k].name == A[k].name
            && (E[k].takesArg <==> A[k].nInputs == 2)
            && (E[k].answers <==> A[k].hasReturn))
      && (forall j, k :: 0 <= j < k < |E| ==> E[j].id != E[k].id)
  {
    var pass := ExpandItems(b.items, []).value;
    var ms := pass.1;
    var A := Annotated(b.items);
    var E := ExpandSpec(b).value.derived.entries;
    assert ExpandSpec(b).value == ExpandOutput(b.(items := pass.0), DeriveServiceMethods(b.selfTy, ms));
    ExpandItemsEdits(b.items, []);
    ExpandItemsRecords(b.items, []);
    ExpandItemsDistinct(b.items, []);
    forall k | 0 <= k < |A|
      ensures CheckValidMethod(A[k]).Success? && IdOf(A[k]) == Success(E[k].id)
        && E[k].name == A[k].name
        && (E[k].takesArg <==> A[k].nInputs == 2)
        && (E[k].answers <==> A[k].hasReturn)
    {
      assert ms[..0] == [] && ms[0 + k] == ms[k];
      assert Records(A[k], ms[k]);
      assert E[k] == MethodEntry(ms[k].1, ms[k].0.name, ms[k].0.nInputs != 1, ms[k].0.hasReturn);
    }
  }

  /** Two annotated methods that name the same id make the expansion fail. */
  lemma DuplicateIdRejected(b: ImplBlock, j: nat, k: nat)
    requires j < k < |Annotated(b.items)|
    requires IdOf(Annotated(b.items)[j]).Success?
    requires IdOf(Annotated(b.items)[j]) == IdOf(Annotated(b.items)[k])
    ensures ExpandSpec(b).Failure?
  {
    if ExpandSpec(b).Success? {
      ExpandAccepted(b);
    }
  }

  /** An item that is not a method makes the expansion fail. */
  lemma NonMethodRejected(b: ImplBlock, k: nat)
    requires k < |b.items| && b.items[k].Other?
    ensures ExpandSpec(b).Failure?
  {
    if ExpandSpec(b).Success? {
      ExpandAccepted(b);
    }
  }

  /** An annotated method with generics, a where clause, no receiver, more
      than one argument or a malformed id makes the expansion fail. */
  lemma InvalidMethodRejected(b: ImplBlock, k: nat)
    requires k < |Annotated(b.items)|
    requires CheckValidMethod(Annotated(b.items)[k]).Failure? || IdOf(Annotated(b.items)[k]).Failure?
    ensures ExpandSpec(b).Failure?
  {
    if ExpandSpec(b).Success? {
      ExpandAccepted(b);
    }
  }

  lemma IdToNameHas(ms: seq<Binding>, id: MethodId)
    requires id in IdToName(ms)
    ensures exists p :: 0 <= p < |ms| && ms[p].1 == id && ms[p].0.name == IdToName(ms)[id]
  {
    var last := ms[|ms| - 1];
    if id != last.1 {
      IdToNameHas(ms[..|ms| - 1], id);
      var p :| 0 <= p < |ms| - 1 && ms[..|ms| - 1][p].1 == id
        && ms[..|ms| - 1][p].0.name == IdToName(ms[..|ms| - 1])[id];
      assert ms[p] == ms[..|ms| - 1][p];
    }
  }

  /** Some binding recorded in `ms` took `id` for the method named `n`. */
  predicate UsedBefore(ms: seq<Binding>, id: MethodId, n: string)
  {
    exists p :: 0 <= p < |ms| && ms[p].1 == id && ms[p].0.name == n
  }

  /** Some annotated method before position `k` of `A` names `id` and is
      called `n`. */
  predicate EarlierIn(A: seq<MethodDecl>, k: nat, id: MethodId, n: string)
    requires k <= |A| && forall j :: 0 <= j < |A| ==> IsAnnotated(A[j])
  {
    exists j :: 0 <= j < k && IdOf(A[j]) == Success(id) && A[j].name == n
  }

  /** A step that fails with a duplicate id was an annotated method whose
      id was already recorded, under the name in the error. */
  lemma StepItemDuplicate(item: Item, ms: seq<Binding>, id: MethodId, n: string)
    requires StepItem(item, ms) == Failure(DuplicateId(id, n))
    ensures item.Fn? && IsAnnotated(item.decl) && IdOf(item.decl) == Success(id)
    ensures UsedBefore(ms, id, n)
  {
    IdToNameHas(ms, id);
  }

  /** Moving a witness of an earlier use of `id` back across one recorded
      method `m`: a use recorded by `m` is an earlier annotated method. */
  lemma DuplicateShift(ms: seq<Binding>, m: MethodDecl, b: Binding, A: seq<MethodDecl>,
                       id: MethodId, n: string, k: nat)
    requires IsAnnotated(m) && IdOf(m) == Success(b.1) && b.0 == Consumed(m)
    requires forall j :: 0 <= j < |A| ==> IsAnnotated(A[j])
    requires k < |A|
    requires UsedBefore(ms + [b], id, n) || EarlierIn(A, k, id, n)
    ensures UsedBefore(ms, id, n) || EarlierIn([m] + A, k + 1, id, n)
  {
    var A2 := [m] + A;
    if UsedBefore(ms + [b], id, n) {
      var p :| 0 <= p < |ms + [b]| && (ms + [b])[p].1 == id && (ms + [b])[p].0.name == n;
      if p == |ms| {
        assert A2[0] == m && IdOf(A2[0]) == Success(id) && A2[0].name == n;
      } else {
        assert (ms + [b])[p] == ms[p];
      }
    } else {
      var j :| 0 <= j < k && IdOf(A[j]) == Success(id) && A[j].name == n;
      assert A2[j + 1] == A[j];
    }
  }

  /** A duplicate-id failure during a pass over `items`: a later annotated
      method carries the id, and the name in the error is that of the
      earlier method that took it, either one recorded before the pass or an
      earlier annotated method of `items`. */
  lemma {:induction false} ExpandItemsDuplicate(items: seq<Item>, ms: seq<Binding>, id: MethodId, n: string)
    requires ExpandItems(items, ms) == Failure(DuplicateId(id, n))
    ensures var A := Annotated(items);
      exists k :: 0 <= k < |A| && IdOf(A[k]) == Success(id)
        && (UsedBefore(ms, id, n) || EarlierIn(A, k, id, n))
    decreases |items|
  {
    assert |items| > 0;
    var A := Annotated(items);
    AnnotatedUnfold(items);
    var step := StepItem(items[0], ms);
    if step.Failure? {
      assert step == Failure(DuplicateId(id, n));
      StepItemDuplicate(items[0], ms, id, n);
      assert IdOf(A[0]) == Success(id);
    } else {
      StepItemSuccess(items[0], ms);
      var b := step.value.1;
      var ms' := ms + Recorded(b);
      assert ExpandItems(items[1..], ms') == Failure(DuplicateId(id, n));
      ExpandItemsDuplicate(items[1..], ms', id, n);
      var A' := Annotated(items[1..]);
      var k' :| 0 <= k' < |A'| && IdOf(A'[k']) == Success(id)
        && (UsedBefore(ms', id, n) || EarlierIn(A', k', id, n));
      if b.Some? {
        DuplicateShift(ms, items[0].decl, b.value, A', id, n, k');
        assert A[k' + 1] == A'[k'];
      } else {
        assert A == A' && ms' == ms;
      }
    }
  }

  /** A duplicate id is reported with the name of an earlier annotated
      method that used it, and a later annotated method does carry that
      id. */
  lemma DuplicateNamesEarlierMethod(b: ImplBlock, id: MethodId, n: string)
    requires ExpandSpec(b) == Failure(DuplicateId(id, n))
    ensures var A := Annotated(b.items);
      exists j, k :: 0 <= j < k < |A| && IdOf(A[j]) == Success(id) && IdOf(A[k]) == Success(id)
        && A[j].name == n
  {
    ExpandItemsDuplicate(b.items, [], id, n);
  }

  /** The rules on annotated methods, given the ids already used: each
      passes its check and names a well-formed id that is not used yet,
      and no two of them name the same id. */
  predicate RulesOn(A: seq<MethodDecl>, used: set<MethodId>)
    requires forall k :: 0 <= k < |A| ==> IsAnnotated(A[k])
  {
    && (forall k :: 0 <= k < |A| ==>
          CheckValidMethod(A[k]).Success? && IdOf(A[k]).Success? && IdOf(A[k]).value !in used)
    && (forall j, k :: 0 <= j < k < |A| ==> IdOf(A[j]) != IdOf(A[k]))
  }

  /** The rules `expand_methods_impl` enforces on the items still to walk,
      given the methods recorded so far: every item is a method and the
      annotated ones meet the rules against the recorded ids. */
  predicate ItemsMeetRules(items: seq<Item>, ms: seq<Binding>) {
    && (forall k :: 0 <= k < |items| ==> items[k].Fn?)
    && RulesOn(Annotated(items), IdToName(ms).Keys)
  }

  /** The rules on a whole impl block. */
  predicate MeetsRules(b: ImplBlock) {
    CheckValidImpl(b).Success? && ItemsMeetRules(b.items, [])
  }

  /** Once the first annotated method is recorded, the others still meet
      the rules with its id used. */
  lemma RulesOnTail(A: seq<MethodDecl>, used: set<MethodId>)
    requires |A| > 0 && forall k :: 0 <= k < |A| ==> IsAnnotated(A[k])
    requires RulesOn(A, used)
    ensures RulesOn(A[1..], used + {IdOf(A[0]).value})
  {
    var T := A[1..];
    forall k | 0 <= k < |T|
      ensures CheckValidMethod(T[k]).Success? && IdOf(T[k]).Success?
        && IdOf(T[k]).value !in used + {IdOf(A[0]).value}
    {
      assert T[k] == A[k + 1];
      assert IdOf(A[0]) != IdOf(A[k + 1]);
    }
    forall j, k | 0 <= j < k < |T| ensures IdOf(T[j]) != IdOf(T[k]) {
      assert T[j] == A[j + 1] && T[k] == A[k + 1];
    }
  }

  /** After walking the first item, the rest of the items still meet the
      rules, with that item's binding recorded. */
  lemma ItemsMeetRulesTail(items: seq<Item>, ms: seq<Binding>)
    requires |items| > 0 && ItemsMeetRules(items, ms)
    ensures StepItem(items[0], ms).Success?
    ensures ItemsMeetRules(items[1..], ms + Recorded(StepItem(items[0], ms).value.1))
  {
    AnnotatedUnfold(items);
    var A := Annotated(items);
    var item := items[0];
    assert item.Fn?;
    forall k | 0 <= k < |items[1..]| ensures items[1..][k].Fn? {
      assert items[1..][k] == items[k + 1];
    }
    if IsAnnotated(item.decl) {
      assert A[0] == item.decl && A[1..] == Annotated(items[1..]);
      var b := (Consumed(item.decl), IdOf(item.decl).value);
      assert StepItem(item, ms) == Success((Fn(Consumed(item.decl)), Some(b)));
      IdToNameSnoc(ms, b);
      RulesOnTail(A, IdToName(ms).Keys);
      assert IdToName(ms + [b]).Keys == IdToName(ms).Keys + {b.1};
    } else {
      assert StepItem(item, ms) == Success((item, None));
      assert ms + Recorded(None) == ms;
    }
  }

  /** Items that meet the rules are walked without an error. */
  lemma {:induction false} ExpandItemsAccepts(items: seq<Item>, ms: seq<Binding>)
    requires ItemsMeetRules(items, ms)
    ensures ExpandItems(items, ms).Success?
    decreases |items|
  {
    if |items| > 0 {
      ItemsMeetRulesTail(items, ms);
      var step := StepItem(items[0], ms).value;
      ExpandItemsAccepts(items[1..], ms + Recorded(step.1));
    }
  }

  /** A block that meets the rules is accepted: methods without
      `smip_method` are skipped and never cause an error. */
  lemma ValidBlockAccepted(b: ImplBlock)
    requires MeetsRules(b)
    ensures ExpandSpec(b).Success?
  {
    ExpandItemsAccepts(b.items, []);
  }

  /** `expand_methods_impl` accepts a block if and only if it meets the
      rules. */
  lemma AcceptedIffMeetsRules(b: ImplBlock)
    ensures ExpandSpec(b).Success? <==> MeetsRules(b)
  {
    if ExpandSpec(b).Success? {
      ExpandAccepted(b);
      var A := Annotated(b.items);
      var E := ExpandSpec(b).value.derived.entries;
      assert IdToName([]).Keys == {};
      forall j, k | 0 <= j < k < |A| ensures IdOf(A[j]) != IdOf(A[k]) {
        assert IdOf(A[j]) == Success(E[j].id) && IdOf(A[k]) == Success(E[k].id);
      }
    } else if MeetsRules(b) {
      ValidBlockAccepted(b);
    }
  }

  /** The callback the derived `register_methods` builds for one entry,
      around the user's method of that name. */
  function EntryMethod<S>(e: MethodEntry, impls: string -> Implementation<S>): (m: Method<S>)
    ensures m.id == e.id && m.f.takesArg == e.takesArg && m.f.answers == e.answers
  {
    Method(e.id, Callback(e.takesArg, e.answers, impls(e.name)))
  }

  /** The methods the derived `register_methods` adds, one per entry, in order. */
  function Bind<S>(entries: seq<MethodEntry>, impls: string -> Implementation<S>): (r: seq<Method<S>>)
    ensures |r| == |entries|
    ensures forall k :: 0 <= k < |entries| ==> r[k] == EntryMethod(entries[k], impls)
  {
    seq(|entries|, k requires 0 <= k < |entries| => EntryMethod(entries[k], impls))
  }

  /** The derived `register_methods`: one `add_method` call per entry, in
      declaration order. */
  method RegisterMethods<S>(d: ServiceMethodsImpl, impls: string -> Implementation<S>, builder: MethodsBuilder<S>)
    modifies builder
    ensures builder.methods == old(builder.methods) + Bind(d.entries, impls)
  {
    for k := 0 to |d.entries|
      invariant builder.methods == old(builder.methods) + Bind(d.entries[..k], impls)
    {
      builder.AddMethod(d.entries[k].id, EntryMethod(d.entries[k], impls).f);
      assert Bind(d.entries[..k + 1], impls) == Bind(d.entries[..k], impls) + [EntryMethod(d.entries[k], impls)];
    }
    assert d.entries[..|d.entries|] == d.entries;
  }

  /** Registering the methods of an accepted impl block into an empty
      builder gives one method per annotated method, in declaration order,
      under the id its attribute names, with pairwise distinct ids. */
  lemma RegisteredMethods<S>(b: ImplBlock, impls: string -> Implementation<S>)
    requires ExpandSpec(b).Success?
    ensures var A := Annotated(b.items);
      var ms := Bind(ExpandSpec(b).value.derived.entries, impls);
      && |ms| == |A|
      && (forall k :: 0 <= k < |A| ==> IdOf(A[k]) == Success(ms[k].id))
      && (forall j, k :: 0 <= j < k < |ms| ==> ms[j].id != ms[k].id)
  {
    ExpandAccepted(b);
  }
}
