/** The `#[component]` attribute macro of `simple_gpui_core/src/lib.rs`. It walks the body of
    the annotated function once, sorts every statement into properties, subscriptions,
    context/window parameters or ordinary statements, and assembles a struct, its inherent
    impl (constructor and setters) and a `Render` impl whose body is the ordinary statements.

    Two collaborators are parameters here, because their code is not part of this model:
    `uses`, the classifier that reports whether a statement asks for the context and/or the
    window, and `toCamel`, the snake-case to camel-case renaming of the function name. */
module ComponentMacro {
  import opened Syntax
  import opened Extractors
  import opened Methods

  datatype ReturnType = DefaultReturn | Returns(ty: Type)

  /** The annotated function: its name, parameter list, return type and body. */
  datatype ItemFn = ItemFn(name: Ident, inputs: seq<Param>, output: ReturnType, body: seq<Stmt>)

  /** A struct field `name: ty`. */
  datatype Field = Field(name: Ident, ty: Type)

  /** What the macro emits:
        pub struct structName { fields }
        impl implName { newMethod  setters }
        impl Render for renderImplName { fn render(&mut self, renderInputs) renderOutput { renderBody } } */
  datatype Output = Output(
    structName: Ident,
    fields: seq<Field>,
    implName: Ident,
    newMethod: NewMethod,
    setters: seq<Setter>,
    renderImplName: Ident,
    renderInputs: seq<Param>,
    renderOutput: ReturnType,
    renderBody: seq<Stmt>)

  const SubscriptionsField := Field(SubscriptionsName, TypeTerm("Vec<Subscription>"))

  /** The bucket a statement goes to. */
  datatype Kind =
    | PropertyStmt(property: PropertyDecl)
    | SubscribeStmt(subscribe: SubscribeDecl)
    | TempParamStmt(param: Param)
    | OrdinaryStmt

  /** The four buckets the loop fills. */
  datatype Buckets = Buckets(
    properties: seq<PropertyDecl>,
    subscribes: seq<SubscribeDecl>,
    tempProperties: seq<Param>,
    newStmts: seq<Stmt>)

  /** The classification of one statement, in the loop's priority order: a property, else
      a subscription, else (by `uses`) a context parameter, else a window parameter, else an
      ordinary statement. */
  function Classify(s: Stmt, uses: Stmt -> (bool, bool)): (k: Kind)
    ensures k.PropertyStmt? <==> ExtractComponentProperty(s).Some?
    ensures k.PropertyStmt? ==> Some(k.property) == ExtractComponentProperty(s)
    ensures k.SubscribeStmt? <==> ExtractComponentProperty(s).None? && ExtractSubscribe(s).Some?
    ensures k.SubscribeStmt? ==> Some(k.subscribe) == ExtractSubscribe(s)
    ensures k.TempParamStmt? <==>
      ExtractComponentProperty(s).None? && ExtractSubscribe(s).None? && (uses(s).0 || uses(s).1)
    ensures k.TempParamStmt? ==> k.param == if uses(s).0 then CxParam else WindowParam
  {
    match ExtractComponentProperty(s)
    case Some(p) => PropertyStmt(p)
    case None =>
      match ExtractSubscribe(s)
      case Some(d) => SubscribeStmt(d)
      case None =>
        var (context, window) := uses(s);
        if context then TempParamStmt(CxParam)
        else if window then TempParamStmt(WindowParam)
        else OrdinaryStmt
  }

  /** A property statement, written with or without `=`, goes to the properties whatever
      `uses` reports for it. */
  lemma ClassifyPrintedProperty(p: PropertyDecl, withEq: bool, uses: Stmt -> (bool, bool))
    ensures Classify(MacroStmt(SimplePath("component_property"), PropertyTokens(p, withEq)), uses) == PropertyStmt(p)
  {
    ExtractComponentPropertyIff(MacroStmt(SimplePath("component_property"), PropertyTokens(p, withEq)), p);
  }

  /** A subscription statement goes to the subscriptions whatever `uses` reports for it. */
  lemma ClassifyPrintedSubscribe(d: SubscribeDecl, uses: Stmt -> (bool, bool))
    ensures Classify(MacroStmt(SimplePath("subscribe"), SubscribeTokens(d)), uses) == SubscribeStmt(d)
  {
    var s := MacroStmt(SimplePath("subscribe"), SubscribeTokens(d));
    ExtractSubscribeIff(s, d);
    MarkersExclusive(s);
  }

  /** Puts a statement of kind `k` into its bucket. */
  function Add(b: Buckets, s: Stmt, k: Kind): Buckets
  {
    match k
    case PropertyStmt(p) => b.(properties := b.properties + [p])
    case SubscribeStmt(d) => b.(subscribes := b.subscribes + [d])
    case TempParamStmt(t) => b.(tempProperties := b.tempProperties + [t])
    case OrdinaryStmt => b.(newStmts := b.newStmts + [s])
  }

  /** The buckets after the loop has seen `stmts`. */
  function Collect(stmts: seq<Stmt>, uses: Stmt -> (bool, bool)): Buckets
  {
    if stmts == [] then Buckets([], [], [], [])
    else
      var last := stmts[|stmts| - 1];
      Add(Collect(stmts[..|stmts| - 1], uses), last, Classify(last, uses))
  }

  function Join(a: Buckets, b: Buckets): Buckets
  {
    Buckets(a.properties + b.properties, a.subscribes + b.subscribes,
            a.tempProperties + b.tempProperties, a.newStmts + b.newStmts)
  }

  /** The struct's fields: one per property, then `_subscriptions` if there are subscriptions. */
  function StructFields(props: seq<PropertyDecl>, subs: seq<SubscribeDecl>): seq<Field>
  {
    seq(|props|, i requires 0 <= i < |props| => Field(props[i].name, props[i].ty))
      + (if |subs| > 0 then [SubscriptionsField] else [])
  }

  /** The expansion of `#[component]` on `f`. */
  function Expansion(f: ItemFn, uses: Stmt -> (bool, bool), toCamel: Ident -> Ident, withContext: bool): (out: Output)
    ensures out.structName == toCamel(f.name)
    ensures out.implName == out.structName && out.renderImplName == out.structName
    ensures out.renderInputs == f.inputs && out.renderOutput == f.output
  {
    Assemble(toCamel(f.name), f, Collect(f.body, uses), withContext)
  }

  /** The struct, impl and `Render` impl built from filled buckets. */
  function Assemble(name: Ident, f: ItemFn, b: Buckets, withContext: bool): Output
  {
    Output(name, StructFields(b.properties, b.subscribes), name,
           NewMethodOf(b.properties, b.tempProperties, b.subscribes, withContext),
           GenerateSetMethod(b.properties), name, f.inputs, f.output, b.newStmts)
  }

  /** `component`: the single pass over the body, then the assembly. */
  method Component(f: ItemFn, uses: Stmt -> (bool, bool), toCamel: Ident -> Ident, withContext: bool)
    returns (out: Output)
    ensures out == Expansion(f, uses, toCamel, withContext)
  {
    var structName := toCamel(f.name);
    var properties: seq<PropertyDecl> := [];
    var tempProperties: seq<Param> := [];
    var newStmts: seq<Stmt> := [];
    var subscribes: seq<SubscribeDecl> := [];

    for i := 0 to |f.body|
      invariant Buckets(properties, subscribes, tempProperties, newStmts) == Collect(f.body[..i], uses)
    {
      var stmt := f.body[i];
      CollectSnoc(f.body[..i], stmt, uses);
      assert f.body[..i] + [stmt] == f.body[..i + 1];
      var property := ExtractComponentProperty(stmt);
      if property.Some? {
        properties := properties + [property.value];
      } else {
        var subscribe := ExtractSubscribe(stmt);
        if subscribe.Some? {
          subscribes := subscribes + [subscribe.value];
        } else {
          var (context, window) := uses(stmt);
          if context {
            tempProperties := tempProperties + [CxParam];
          } else if window {
            tempProperties := tempProperties + [WindowParam];
          } else {
            newStmts := newStmts + [stmt];
          }
        }
      }
    }
    assert f.body[..|f.body|] == f.body;

    var fieldDefs := seq(|properties|, j requires 0 <= j < |properties| => Field(properties[j].name, properties[j].ty));
    if |subscribes| > 0 {
      fieldDefs := fieldDefs + [SubscriptionsField];
    }

    var functionNew := GenerateNewMethod(properties, tempProperties, subscribes, withContext);
    var functionSetters := GenerateSetMethod(properties);

    out := Output(structName, fieldDefs, structName, functionNew, functionSetters,
                  structName, f.inputs, f.output, newStmts);
  }

  // ---------------------------------------------------------------------------
  // Properties of the bucketing loop.

  /** A non-empty sequence's elements are those of its front and its last element. */
  lemma MembershipSplit<T>(s: seq<T>)
    requires s != []
    ensures forall x :: x in s <==> x in s[..|s| - 1] || x == s[|s| - 1]
  {
    assert s == s[..|s| - 1] + [s[|s| - 1]];
  }

  /** One more statement adds its item to its own bucket. */
  lemma CollectSnoc(stmts: seq<Stmt>, s: Stmt, uses: Stmt -> (bool, bool))
    ensures Collect(stmts + [s], uses) == Add(Collect(stmts, uses), s, Classify(s, uses))
  {
    assert (stmts + [s])[..|stmts|] == stmts;
  }

  /** The buckets that statements of the given kinds fill. */
  function Distribute(stmts: seq<Stmt>, ks: seq<Kind>): Buckets
    requires |ks| == |stmts|
  {
    if stmts == [] then Buckets([], [], [], [])
    else Add(Distribute(stmts[..|stmts| - 1], ks[..|ks| - 1]), stmts[|stmts| - 1], ks[|ks| - 1])
  }

  /** The loop's result depends on nothing but the kind of each statement. */
  lemma {:induction false} CollectByKinds(stmts: seq<Stmt>, uses: Stmt -> (bool, bool), ks: seq<Kind>)
    requires |ks| == |stmts|
    requires forall i :: 0 <= i < |stmts| ==> Classify(stmts[i], uses) == ks[i]
    ensures Collect(stmts, uses) == Distribute(stmts, ks)
  {
    if stmts != [] {
      var n := |stmts| - 1;
      CollectByKinds(stmts[..n], uses, ks[..n]);
    }
  }

  /** The loop keeps declaration order in every bucket: running it over `a + b` fills each
      bucket with what `a` puts there followed by what `b` puts there. */
  lemma {:induction false} CollectAppend(a: seq<Stmt>, b: seq<Stmt>, uses: Stmt -> (bool, bool))
    ensures Collect(a + b, uses) == Join(Collect(a, uses), Collect(b, uses))
    decreases |b|
  {
    if b == [] {
      assert a + b == a;
    } else {
      var b', last := b[..|b| - 1], b[|b| - 1];
      assert (a + b)[..|a + b| - 1] == a + b';
      assert (a + b)[|a + b| - 1] == last;
      var k := Classify(last, uses);
      calc {
        Collect(a + b, uses);
        Add(Collect(a + b', uses), last, k);
        { CollectAppend(a, b', uses); }
        Add(Join(Collect(a, uses), Collect(b', uses)), last, k);
        { JoinAdd(Collect(a, uses), Collect(b', uses), last, k); }
        Join(Collect(a, uses), Add(Collect(b', uses), last, k));
        Join(Collect(a, uses), Collect(b, uses));
      }
    }
  }

  lemma JoinAdd(x: Buckets, y: Buckets, s: Stmt, k: Kind)
    ensures Add(Join(x, y), s, k) == Join(x, Add(y, s, k))
  {
  }

  /** Every statement lands in exactly one bucket. */
  lemma {:induction false} CollectSizes(stmts: seq<Stmt>, uses: Stmt -> (bool, bool))
    ensures var b := Collect(stmts, uses);
      |b.properties| + |b.subscribes| + |b.tempProperties| + |b.newStmts| == |stmts|
  {
    if stmts != [] {
      CollectSizes(stmts[..|stmts| - 1], uses);
    }
  }

  /** A statement reaches the `render` body exactly when it is in the function body and is
      not a marker of any kind. */
  lemma {:induction false} OrdinaryStatements(stmts: seq<Stmt>, uses: Stmt -> (bool, bool), s: Stmt)
    ensures s in Collect(stmts, uses).newStmts <==>
      && s in stmts
      && ExtractComponentProperty(s).None? && ExtractSubscribe(s).None?
      && !uses(s).0 && !uses(s).1
  {
    if stmts != [] {
      var init, last := stmts[..|stmts| - 1], stmts[|stmts| - 1];
      OrdinaryStatements(init, uses, s);
      var k := Classify(last, uses);
      var before, after := Collect(init, uses).newStmts, Collect(stmts, uses).newStmts;
      assert after == before + (if k.OrdinaryStmt? then [last] else []);
      MembershipSplit(stmts);
    }
  }

  /** A declaration is among the properties exactly when some statement of the body is a
      `component_property!` that parses to it. */
  lemma {:induction false} PropertySources(stmts: seq<Stmt>, uses: Stmt -> (bool, bool), p: PropertyDecl)
    ensures p in Collect(stmts, uses).properties <==>
      exists s :: s in stmts && ExtractComponentProperty(s) == Some(p)
  {
    if stmts != [] {
      var init, last := stmts[..|stmts| - 1], stmts[|stmts| - 1];
      PropertySources(init, uses, p);
      var k := Classify(last, uses);
      var before, after := Collect(init, uses).properties, Collect(stmts, uses).properties;
      assert after == before + (if k.PropertyStmt? then [k.property] else []);
      MembershipSplit(stmts);
      if p in after {
        if p !in before {
          assert ExtractComponentProperty(last) == Some(p);
        }
      }
      if exists s :: s in stmts && ExtractComponentProperty(s) == Some(p) {
        var s :| s in stmts && ExtractComponentProperty(s) == Some(p);
        if s == last {
          assert k == PropertyStmt(p);
        }
      }
    }
  }

  /** A declaration is among the subscriptions exactly when some statement of the body is a
      `subscribe!` that parses to it and is not a property. */
  lemma {:induction false} SubscribeSources(stmts: seq<Stmt>, uses: Stmt -> (bool, bool), d: SubscribeDecl)
    ensures d in Collect(stmts, uses).subscribes <==>
      exists s :: s in stmts && ExtractSubscribe(s) == Some(d)
  {
    if stmts != [] {
      var init, last := stmts[..|stmts| - 1], stmts[|stmts| - 1];
      SubscribeSources(init, uses, d);
      var k := Classify(last, uses);
      var before, after := Collect(init, uses).subscribes, Collect(stmts, uses).subscribes;
      assert after == before + (if k.SubscribeStmt? then [k.subscribe] else []);
      MembershipSplit(stmts);
      if d in after {
        if d !in before {
          assert ExtractSubscribe(last) == Some(d);
        }
      }
      if exists s :: s in stmts && ExtractSubscribe(s) == Some(d) {
        var s :| s in stmts && ExtractSubscribe(s) == Some(d);
        if s == last {
          MarkersExclusive(last);
          assert k == SubscribeStmt(d);
        }
      }
    }
  }

  // ---------------------------------------------------------------------------
  // Properties of the whole expansion.

  /** The struct has one field per property, in declaration order and with the declared
      type, and the `_subscriptions` field after them exactly when there are subscriptions;
      the constructor builds the subscriptions vector under the same condition. */
  lemma SubscriptionsStorage(f: ItemFn, uses: Stmt -> (bool, bool), toCamel: Ident -> Ident, withContext: bool)
    ensures var out := Expansion(f, uses, toCamel, withContext);
      var b := Collect(f.body, uses);
      && |out.fields| >= |b.properties|
      && (forall i :: 0 <= i < |b.properties| ==> out.fields[i] == Field(b.properties[i].name, b.properties[i].ty))
      && (|b.subscribes| > 0 <==> |out.fields| == |b.properties| + 1 && out.fields[|b.properties|] == SubscriptionsField)
      && (|b.subscribes| > 0 <==> HasSubscriptionsVec(out.newMethod.body))
  {
    var b := Collect(f.body, uses);
    CtorBodyShape(b.properties, b.subscribes);
  }

  /** The struct literal that ends the constructor initialises exactly the struct's fields,
      in order; each property field is bound before it by a parameter of the same name and
      type (no initializer) or a let-binding of the same name and type (initializer). */
  lemma ConstructorInitialisesEveryField(f: ItemFn, uses: Stmt -> (bool, bool), toCamel: Ident -> Ident, withContext: bool)
    ensures var out := Expansion(f, uses, toCamel, withContext);
      var body := out.newMethod.body;
      && body[|body| - 1].StructLiteral?
      && body[|body| - 1].fields == seq(|out.fields|, i requires 0 <= i < |out.fields| => out.fields[i].name)
      && forall i :: 0 <= i < |out.fields| && out.fields[i] != SubscriptionsField ==>
           || Param(out.fields[i].name, out.fields[i].ty) in out.newMethod.params
           || exists e :: Let(LetBinding(out.fields[i].name, out.fields[i].ty, e)) in body
  {
    AssembledConstructor(toCamel(f.name), f, Collect(f.body, uses), withContext);
  }

  lemma AssembledConstructor(name: Ident, f: ItemFn, b: Buckets, withContext: bool)
    ensures var out := Assemble(name, f, b, withContext);
      var body := out.newMethod.body;
      && body[|body| - 1].StructLiteral?
      && body[|body| - 1].fields == seq(|out.fields|, i requires 0 <= i < |out.fields| => out.fields[i].name)
      && forall i :: 0 <= i < |out.fields| && out.fields[i] != SubscriptionsField ==>
           || Param(out.fields[i].name, out.fields[i].ty) in out.newMethod.params
           || exists e :: Let(LetBinding(out.fields[i].name, out.fields[i].ty, e)) in body
  {
    var out := Assemble(name, f, b, withContext);
    var props := b.properties;
    CtorBodyShape(props, b.subscribes);
    LiteralFieldsBound(props, b.tempProperties, b.subscribes, withContext);
    forall i | 0 <= i < |out.fields| && out.fields[i] != SubscriptionsField
      ensures || Param(out.fields[i].name, out.fields[i].ty) in out.newMethod.params
              || exists e :: Let(LetBinding(out.fields[i].name, out.fields[i].ty, e)) in out.newMethod.body
    {
      assert i < |props|;
      if props[i].init.Some? {
        assert Let(LetBinding(props[i].name, props[i].ty, props[i].init.value)) in out.newMethod.body;
      }
    }
  }

  /** The constructor's parameters are the properties without an initializer in declaration
      order, then the context/window parameters in marker order, then `cx` and `window`
      exactly when there are subscriptions and context was requested. A property with an
      initializer is never a parameter. */
  lemma ConstructorParams(f: ItemFn, uses: Stmt -> (bool, bool), toCamel: Ident -> Ident, withContext: bool)
    ensures var out := Expansion(f, uses, toCamel, withContext);
      var b := Collect(f.body, uses);
      var n := |RequiredParams(b.properties)|;
      var params := out.newMethod.params;
      && n + |InitialisedLets(b.properties)| == |b.properties|
      && (forall name, ty :: Param(name, ty) in params[..n] <==> PropertyDecl(name, ty, None) in b.properties)
      && params[n..n + |b.tempProperties|] == b.tempProperties
      && params[n + |b.tempProperties|..] == if |b.subscribes| > 0 && withContext then [CxParam, WindowParam] else []
  {
    var b := Collect(f.body, uses);
    var required := RequiredParams(b.properties);
    var params := Expansion(f, uses, toCamel, withContext).newMethod.params;
    var n := |required|;
    PartitionSizes(b.properties);
    assert params == required + b.tempProperties + ContextParams(b.subscribes, withContext);
    assert params[..n] == required;
    assert params[n..n + |b.tempProperties|] == b.tempProperties;
    assert params[n + |b.tempProperties|..] == ContextParams(b.subscribes, withContext);
    forall name, ty
      ensures Param(name, ty) in required <==> PropertyDecl(name, ty, None) in b.properties
    {
      RequiredParamsMembership(b.properties, name, ty);
    }
  }

  /** There is one setter per struct field other than `_subscriptions`, at the same
      position, named after the field, taking the field's type and writing that field. */
  lemma SettersMatchFields(f: ItemFn, uses: Stmt -> (bool, bool), toCamel: Ident -> Ident, withContext: bool)
    ensures var out := Expansion(f, uses, toCamel, withContext);
      var b := Collect(f.body, uses);
      && |out.setters| == |b.properties| == |out.fields| - (if |b.subscribes| > 0 then 1 else 0)
      && forall i :: 0 <= i < |out.setters| ==>
           && out.setters[i].name == out.fields[i].name
           && out.setters[i].field == out.fields[i].name
           && out.setters[i].valueType == out.fields[i].ty
  {
  }

  /** The `render` body holds the ordinary statements and nothing else, in their original
      relative order. */
  lemma RenderBodyIsOrdinary(f: ItemFn, uses: Stmt -> (bool, bool), toCamel: Ident -> Ident, withContext: bool, s: Stmt)
    ensures var out := Expansion(f, uses, toCamel, withContext);
      && (s in out.renderBody <==>
            s in f.body && ExtractComponentProperty(s).None? && ExtractSubscribe(s).None? && !uses(s).0 && !uses(s).1)
      && forall a, b :: Collect(a + b, uses).newStmts == Collect(a, uses).newStmts + Collect(b, uses).newStmts
  {
    OrdinaryStatements(f.body, uses, s);
    forall a, b
      ensures Collect(a + b, uses).newStmts == Collect(a, uses).newStmts + Collect(b, uses).newStmts
    {
      CollectAppend(a, b, uses);
    }
  }
}
