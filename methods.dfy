/** The code synthesiser of `simple_gpui_core/src/methods.rs`: the `new` constructor and
    one fluent setter per property, built as structured values rather than token text. */
module Methods {
  import opened Syntax
  import opened Extractors

  /** A function parameter `name: ty`. */
  datatype Param = Param(name: Ident, ty: Type)

  /** `let name: ty = init;` */
  datatype LetBinding = LetBinding(name: Ident, ty: Type, init: Expr)

  /** `cx.subscribe_in(&source, window, handler)` */
  datatype SubscribeCall = SubscribeIn(source: Ident, handler: Expr)

  /** A statement of the generated constructor body. */
  datatype CtorStmt =
    | Let(binding: LetBinding)                       // `let name: ty = init;`
    | SubscriptionsVec(calls: seq<SubscribeCall>)    // `let _subscriptions: Vec<Subscription> = vec![...];`
    | StructLiteral(fields: seq<Ident>)              // `Self { f1, f2, ... }` (field init shorthand)

  /** `pub fn new(params) -> Self { body }` */
  datatype NewMethod = NewMethod(params: seq<Param>, body: seq<CtorStmt>)

  /** `pub fn name(mut self, value: valueType) -> Self { self.field = value; self }` */
  datatype Setter = Setter(name: Ident, valueType: Type, field: Ident)

  const SubscriptionsName := Ident("_subscriptions")
  const CxParam := Param(Ident("cx"), TypeTerm("&mut Context<Self>"))
  const WindowParam := Param(Ident("window"), TypeTerm("&mut Window"))

  // ---------------------------------------------------------------------------
  // Specification of the constructor, piece by piece.

  /** The properties without an initializer, as parameters, in declaration order. */
  function RequiredParams(props: seq<PropertyDecl>): seq<Param>
  {
    if props == [] then []
    else
      var p := props[|props| - 1];
      RequiredParams(props[..|props| - 1]) + (if p.init.None? then [Param(p.name, p.ty)] else [])
  }

  /** The properties with an initializer, as let-bindings, in declaration order. */
  function InitialisedLets(props: seq<PropertyDecl>): seq<LetBinding>
  {
    if props == [] then []
    else
      var p := props[|props| - 1];
      InitialisedLets(props[..|props| - 1]) + (if p.init.Some? then [LetBinding(p.name, p.ty, p.init.value)] else [])
  }

  /** The names of the properties, in declaration order. */
  function PropertyNames(props: seq<PropertyDecl>): seq<Ident>
  {
    seq(|props|, i requires 0 <= i < |props| => props[i].name)
  }

  /** The fields the struct literal initialises. */
  function LiteralFields(props: seq<PropertyDecl>, subs: seq<SubscribeDecl>): seq<Ident>
  {
    PropertyNames(props) + (if |subs| > 0 then [SubscriptionsName] else [])
  }

  /** The `cx` and `window` parameters that subscriptions add when context is requested. */
  function ContextParams(subs: seq<SubscribeDecl>, withContext: bool): seq<Param>
  {
    if |subs| > 0 && withContext then [CxParam, WindowParam] else []
  }

  function SubscribeCalls(subs: seq<SubscribeDecl>): seq<SubscribeCall>
  {
    seq(|subs|, i requires 0 <= i < |subs| => SubscribeIn(subs[i].source, subs[i].handler))
  }

  function LetStmts(lets: seq<LetBinding>): seq<CtorStmt>
  {
    seq(|lets|, i requires 0 <= i < |lets| => Let(lets[i]))
  }

  /** The constructor body: the let-bindings, the subscriptions vector if there are
      subscriptions, and the struct literal. */
  function CtorBody(props: seq<PropertyDecl>, subs: seq<SubscribeDecl>): seq<CtorStmt>
  {
    LetStmts(InitialisedLets(props))
      + (if |subs| > 0 then [SubscriptionsVec(SubscribeCalls(subs))] else [])
      + [StructLiteral(LiteralFields(props, subs))]
  }

  /** The constructor `generate_new_method` emits. */
  function NewMethodOf(props: seq<PropertyDecl>, temps: seq<Param>, subs: seq<SubscribeDecl>, withContext: bool): NewMethod
  {
    NewMethod(RequiredParams(props) + temps + ContextParams(subs, withContext), CtorBody(props, subs))
  }

  // ---------------------------------------------------------------------------
  // The synthesiser.

  /** `generate_new_method`: one pass over the properties sorts each into the parameter
      list or the let-bindings and records its name for the struct literal. */
  method GenerateNewMethod(properties: seq<PropertyDecl>, tempProperties: seq<Param>,
                           subscribes: seq<SubscribeDecl>, withContext: bool)
    returns (m: NewMethod)
    ensures m == NewMethodOf(properties, tempProperties, subscribes, withContext)
  {
    var noInitiatedFields: seq<Param> := [];
    var initiatedFields: seq<LetBinding> := [];
    var fieldInits: seq<Ident> := [];
    for i := 0 to |properties|
      invariant noInitiatedFields == RequiredParams(properties[..i])
      invariant initiatedFields == InitialisedLets(properties[..i])
      invariant fieldInits == PropertyNames(properties[..i])
    {
      var p := properties[i];
      match p.init {
        case Some(e) => initiatedFields := initiatedFields + [LetBinding(p.name, p.ty, e)];
        case None => noInitiatedFields := noInitiatedFields + [Param(p.name, p.ty)];
      }
      fieldInits := fieldInits + [p.name];
      assert properties[..i + 1][..i] == properties[..i];
    }
    assert properties[..|properties|] == properties;
    if |subscribes| > 0 {
      fieldInits := fieldInits + [SubscriptionsName];
    }

    var funcParams := noInitiatedFields + tempProperties;
    if |subscribes| > 0 && withContext {
      funcParams := funcParams + [CxParam, WindowParam];
    }

    var varInits := LetStmts(initiatedFields);
    var subscribeInits := SubscribeCalls(subscribes);
    var subscriptionsInit := if |subscribes| > 0 then [SubscriptionsVec(subscribeInits)] else [];
    assert fieldInits == LiteralFields(properties, subscribes);
    assert funcParams == RequiredParams(properties) + tempProperties + ContextParams(subscribes, withContext);
    m := NewMethod(funcParams, varInits + subscriptionsInit + [StructLiteral(fieldInits)]);
  }

  /** `generate_set_method`: one setter per property, named after it. */
  function GenerateSetMethod(properties: seq<PropertyDecl>): seq<Setter>
  {
    seq(|properties|, i requires 0 <= i < |properties| =>
      Setter(properties[i].name, properties[i].ty, properties[i].name))
  }

  /** What calling setter `s` with `value` does to an instance whose field values are `inst`:
      it overwrites one field and hands the instance back. */
  function ApplySetter<V>(s: Setter, inst: map<Ident, V>, value: V): map<Ident, V>
  {
    inst[s.field := value]
  }

  // ---------------------------------------------------------------------------
  // Properties of the constructor.

  /** Sorting into parameters keeps declaration order: it distributes over concatenation. */
  lemma {:induction false} RequiredParamsAppend(a: seq<PropertyDecl>, b: seq<PropertyDecl>)
    ensures RequiredParams(a + b) == RequiredParams(a) + RequiredParams(b)
    decreases |b|
  {
    if b != [] {
      var b' := b[..|b| - 1];
      assert (a + b)[..|a + b| - 1] == a + b';
      RequiredParamsAppend(a, b');
    } else {
      assert a + b == a;
    }
  }

  /** Sorting into let-bindings keeps declaration order: it distributes over concatenation. */
  lemma {:induction false} InitialisedLetsAppend(a: seq<PropertyDecl>, b: seq<PropertyDecl>)
    ensures InitialisedLets(a + b) == InitialisedLets(a) + InitialisedLets(b)
    decreases |b|
  {
    if b != [] {
      var b' := b[..|b| - 1];
      assert (a + b)[..|a + b| - 1] == a + b';
      InitialisedLetsAppend(a, b');
    } else {
      assert a + b == a;
    }
  }

  /** A property is a required parameter exactly when it has no initializer. */
  lemma {:induction false} RequiredParamsMembership(props: seq<PropertyDecl>, name: Ident, ty: Type)
    ensures Param(name, ty) in RequiredParams(props) <==> PropertyDecl(name, ty, None) in props
  {
    if props != [] {
      var init := props[..|props| - 1];
      RequiredParamsMembership(init, name, ty);
      assert props == init + [props[|props| - 1]];
    }
  }

  /** A property is let-bound exactly when it has an initializer, and with that initializer. */
  lemma {:induction false} InitialisedLetsMembership(props: seq<PropertyDecl>, name: Ident, ty: Type, e: Expr)
    ensures LetBinding(name, ty, e) in InitialisedLets(props) <==> PropertyDecl(name, ty, Some(e)) in props
  {
    if props != [] {
      var init := props[..|props| - 1];
      InitialisedLetsMembership(init, name, ty, e);
      assert props == init + [props[|props| - 1]];
    }
  }

  /** Every property goes to exactly one of the two partitions. */
  lemma {:induction false} PartitionSizes(props: seq<PropertyDecl>)
    ensures |RequiredParams(props)| + |InitialisedLets(props)| == |props|
  {
    if props != [] {
      PartitionSizes(props[..|props| - 1]);
    }
  }

  /** The stage of a constructor statement: bindings, then the vector, then the literal. */
  function Stage(s: CtorStmt): nat
  {
    match s
    case Let(_) => 0
    case SubscriptionsVec(_) => 1
    case StructLiteral(_) => 2
  }

  predicate HasSubscriptionsVec(body: seq<CtorStmt>)
  {
    exists i :: 0 <= i < |body| && body[i].SubscriptionsVec?
  }

  /** The constructor body runs all let-bindings first, then builds the subscriptions
      vector (present exactly when there are subscriptions, one call per subscription in
      order), and ends with the struct literal. */
  lemma CtorBodyShape(props: seq<PropertyDecl>, subs: seq<SubscribeDecl>)
    ensures var body := CtorBody(props, subs);
      && (forall i, j :: 0 <= i < j < |body| ==> Stage(body[i]) <= Stage(body[j]))
      && body[|body| - 1] == StructLiteral(LiteralFields(props, subs))
      && (forall i :: 0 <= i < |body| - 1 ==> !body[i].StructLiteral?)
      && (HasSubscriptionsVec(body) <==> |subs| > 0)
      && (forall i :: 0 <= i < |body| && body[i].SubscriptionsVec? ==>
            |body[i].calls| == |subs|
            && forall k :: 0 <= k < |subs| ==> body[i].calls[k] == SubscribeIn(subs[k].source, subs[k].handler))
  {
    var body := CtorBody(props, subs);
    var lets := LetStmts(InitialisedLets(props));
    assert forall i :: 0 <= i < |lets| ==> body[i] == lets[i] && Stage(body[i]) == 0;
    if |subs| > 0 {
      assert body[|lets|].SubscriptionsVec?;
    }
  }

  /** Every field the struct literal names is bound earlier in the constructor: a property
      without an initializer by its parameter, one with an initializer by its let-binding,
      and `_subscriptions` by the vector. */
  lemma LiteralFieldsBound(props: seq<PropertyDecl>, temps: seq<Param>, subs: seq<SubscribeDecl>, withContext: bool)
    ensures var m := NewMethodOf(props, temps, subs, withContext);
      && (forall i :: 0 <= i < |props| && props[i].init.None? ==>
            Param(props[i].name, props[i].ty) in m.params)
      && (forall i :: 0 <= i < |props| && props[i].init.Some? ==>
            Let(LetBinding(props[i].name, props[i].ty, props[i].init.value)) in m.body)
      && (SubscriptionsName in LiteralFields(props, subs)[|props|..] <==> HasSubscriptionsVec(m.body))
  {
    var m := NewMethodOf(props, temps, subs, withContext);
    forall i | 0 <= i < |props| && props[i].init.None?
      ensures Param(props[i].name, props[i].ty) in m.params
    {
      RequiredParamsMembership(props, props[i].name, props[i].ty);
      assert props[i] == PropertyDecl(props[i].name, props[i].ty, None);
    }
    forall i | 0 <= i < |props| && props[i].init.Some?
      ensures Let(LetBinding(props[i].name, props[i].ty, props[i].init.value)) in m.body
    {
      var b := LetBinding(props[i].name, props[i].ty, props[i].init.value);
      InitialisedLetsMembership(props, b.name, b.ty, b.init);
      assert props[i] == PropertyDecl(b.name, b.ty, Some(b.init));
      var lets := InitialisedLets(props);
      var k :| 0 <= k < |lets| && lets[k] == b;
      assert m.body[k] == Let(b);
    }
    CtorBodyShape(props, subs);
    assert LiteralFields(props, subs)[|props|..] == if |subs| > 0 then [SubscriptionsName] else [];
  }

  // ---------------------------------------------------------------------------
  // Properties of the setters.

  /** A setter writes its own field and leaves every other field as it was. */
  lemma SetterWritesOnlyItsField<V>(props: seq<PropertyDecl>, i: nat, inst: map<Ident, V>, value: V)
    requires i < |props|
    ensures var after := ApplySetter(GenerateSetMethod(props)[i], inst, value);
      && after.Keys == inst.Keys + {props[i].name}
      && after[props[i].name] == value
      && forall f :: f in inst && f != props[i].name ==> after[f] == inst[f]
  {
  }

  /** Setters of different properties are independent: applying them in either order
      gives the same instance. */
  lemma SettersCommute<V>(props: seq<PropertyDecl>, i: nat, j: nat, inst: map<Ident, V>, x: V, y: V)
    requires i < |props| && j < |props| && props[i].name != props[j].name
    ensures var setters := GenerateSetMethod(props);
      ApplySetter(setters[j], ApplySetter(setters[i], inst, x), y)
        == ApplySetter(setters[i], ApplySetter(setters[j], inst, y), x)
  {
  }
}
