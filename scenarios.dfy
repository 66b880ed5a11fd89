/** The expansion of `#[component]` on the two annotated functions of the repository's
    binaries. */
module Scenarios {
  import opened Syntax
  import opened Extractors
  import opened Methods
  import opened ComponentMacro
  import opened BinaryExamples

  // ---------------------------------------------------------------------------
  // hello_world

  const HelloText := PropertyDecl(Text, SharedString, Some(Single(World1)))
  const HelloText2 := PropertyDecl(Text2, SharedString, None)
  const HelloKinds := [PropertyStmt(HelloText), PropertyStmt(HelloText2), OrdinaryStmt]

  /** Both `component_property!` statements are properties and the element tree is an
      ordinary statement. */
  lemma HelloWorldKinds(uses: Stmt -> (bool, bool))
    requires uses(HelloBody) == (false, false)
    ensures forall i :: 0 <= i < 3 ==>
      Classify(HelloWorld().body[i], uses) == HelloKinds[i]
  {
    var body := HelloWorld().body;
    forall i | 0 <= i < 3
      ensures Classify(body[i], uses) == HelloKinds[i]
    {
      if i == 0 {
        assert body[0] == MacroStmt(SimplePath("component_property"), PropertyTokens(HelloText, true));
        ClassifyPrintedProperty(HelloText, true, uses);
      } else if i == 1 {
        assert body[1] == MacroStmt(SimplePath("component_property"), PropertyTokens(HelloText2, false));
        ClassifyPrintedProperty(HelloText2, false, uses);
      }
    }
  }

  /** Two properties and an ordinary statement, in that order, fill two buckets. */
  lemma HelloWorldShape(body: seq<Stmt>, p1: PropertyDecl, p2: PropertyDecl)
    requires |body| == 3
    ensures Distribute(body, [PropertyStmt(p1), PropertyStmt(p2), OrdinaryStmt]) == Buckets([p1, p2], [], [], [body[2]])
  {
    var ks := [PropertyStmt(p1), PropertyStmt(p2), OrdinaryStmt];
    assert Distribute(body[..1], ks[..1]) == Buckets([p1], [], [], []) by {
      assert body[..1][..0] == [] && ks[..1][..0] == [];
    }
    assert body[..2][..1] == body[..1] && ks[..2][..1] == ks[..1];
    assert body[..2] == body[..|body| - 1] && ks[..2] == ks[..|ks| - 1];
  }

  /** The buckets the loop fills for `hello_world`. */
  lemma HelloWorldBuckets(uses: Stmt -> (bool, bool))
    requires uses(HelloBody) == (false, false)
    ensures Collect(HelloWorld().body, uses) == Buckets([HelloText, HelloText2], [], [], [HelloBody])
  {
    HelloWorldKinds(uses);
    CollectByKinds(HelloWorld().body, uses, HelloKinds);
    HelloWorldShape(HelloWorld().body, HelloText, HelloText2);
  }

  /** The constructor `generate_new_method` builds from the example's buckets. */
  lemma HelloWorldConstructor(withContext: bool)
    ensures NewMethodOf([HelloText, HelloText2], [], [], withContext)
         == NewMethod([Param(Text2, SharedString)],
                      [Let(LetBinding(Text, SharedString, Single(World1))), StructLiteral([Text, Text2])])
  {
    var props := [HelloText, HelloText2];
    var let1 := LetBinding(Text, SharedString, Single(World1));
    assert props[..1] == [HelloText] && [HelloText][..0] == [];
    assert InitialisedLets([HelloText]) == [let1];
    assert RequiredParams([HelloText]) == [];
    assert InitialisedLets(props) == [let1];
    assert RequiredParams(props) == [Param(Text2, SharedString)];
    assert LetStmts([let1]) == [Let(let1)];
    assert LiteralFields(props, []) == [Text, Text2];
  }

  /** `text` has an initializer and `text2` has none, so the constructor takes `text2`
      alone and binds `text` itself; both are fields with a setter each. */
  lemma HelloWorldExpansion(uses: Stmt -> (bool, bool), toCamel: Ident -> Ident, withContext: bool)
    requires uses(HelloBody) == (false, false)
    ensures var out := Expansion(HelloWorld(), uses, toCamel, withContext);
      && out.fields == [Field(Text, SharedString), Field(Text2, SharedString)]
      && out.newMethod.params == [Param(Text2, SharedString)]
      && out.newMethod.body == [Let(LetBinding(Text, SharedString, Single(World1))), StructLiteral([Text, Text2])]
      && out.setters == [Setter(Text, SharedString, Text), Setter(Text2, SharedString, Text2)]
      && out.renderBody == [HelloBody]
  {
    HelloWorldBuckets(uses);
    HelloWorldAssembled(toCamel(HelloWorld().name), HelloWorld(), withContext);
  }

  /** The output assembled from the buckets of `hello_world`. */
  lemma HelloWorldAssembled(name: Ident, f: ItemFn, withContext: bool)
    ensures var out := Assemble(name, f, Buckets([HelloText, HelloText2], [], [], [HelloBody]), withContext);
      && out.fields == [Field(Text, SharedString), Field(Text2, SharedString)]
      && out.newMethod.params == [Param(Text2, SharedString)]
      && out.newMethod.body == [Let(LetBinding(Text, SharedString, Single(World1))), StructLiteral([Text, Text2])]
      && out.setters == [Setter(Text, SharedString, Text), Setter(Text2, SharedString, Text2)]
      && out.renderBody == [HelloBody]
  {
    HelloWorldConstructor(withContext);
    assert StructFields([HelloText, HelloText2], []) == [Field(Text, SharedString), Field(Text2, SharedString)];
    assert GenerateSetMethod([HelloText, HelloText2])
        == [Setter(Text, SharedString, Text), Setter(Text2, SharedString, Text2)];
  }

  // ---------------------------------------------------------------------------
  // gpui_component_input

  const InputStateProp := PropertyDecl(InputState, EntityInputState, Some(Single(NewInput)))
  const InputTextProp := PropertyDecl(Text, SharedString, Some(Single(World)))
  const InputSubscription := SubscribeDecl(InputState, Single(Handler))
  const InputKinds := [TempParamStmt(CxParam), TempParamStmt(WindowParam), PropertyStmt(InputStateProp),
                       PropertyStmt(InputTextProp), SubscribeStmt(InputSubscription), OrdinaryStmt]

  /** `with_context!()` and `with_window!()` become the `cx` and `window` parameters (when
      `uses` reports them so), the two `component_property!` statements are properties, the
      `subscribe!` statement is a subscription, and the element tree is ordinary. */
  lemma InputExampleKinds(uses: Stmt -> (bool, bool))
    requires uses(WithContext) == (true, false) && uses(WithWindow) == (false, true)
    requires uses(InputBody) == (false, false)
    ensures forall i :: 0 <= i < 6 ==> Classify(InputExample().body[i], uses) == InputKinds[i]
  {
    var body := InputExample().body;
    forall i | 0 <= i < 6
      ensures Classify(body[i], uses) == InputKinds[i]
    {
      if i == 2 {
        assert body[2] == MacroStmt(SimplePath("component_property"), PropertyTokens(InputStateProp, true));
        ClassifyPrintedProperty(InputStateProp, true, uses);
      } else if i == 3 {
        assert body[3] == MacroStmt(SimplePath("component_property"), PropertyTokens(InputTextProp, true));
        ClassifyPrintedProperty(InputTextProp, true, uses);
      } else if i == 4 {
        assert body[4] == MacroStmt(SimplePath("subscribe"), SubscribeTokens(InputSubscription));
        ClassifyPrintedSubscribe(InputSubscription, uses);
      }
    }
  }

  /** Two markers, two properties, a subscription and an ordinary statement, in that order,
      fill all four buckets. */
  lemma InputExampleShape(body: seq<Stmt>, p1: PropertyDecl, p2: PropertyDecl, d: SubscribeDecl)
    requires |body| == 6
    ensures Distribute(body, [TempParamStmt(CxParam), TempParamStmt(WindowParam), PropertyStmt(p1),
                              PropertyStmt(p2), SubscribeStmt(d), OrdinaryStmt])
         == Buckets([p1, p2], [d], [CxParam, WindowParam], [body[5]])
  {
    var ks := [TempParamStmt(CxParam), TempParamStmt(WindowParam), PropertyStmt(p1),
               PropertyStmt(p2), SubscribeStmt(d), OrdinaryStmt];
    assert Distribute(body[..1], ks[..1]) == Buckets([], [], [CxParam], []) by {
      assert body[..1][..0] == [] && ks[..1][..0] == [];
    }
    assert Distribute(body[..2], ks[..2]) == Buckets([], [], [CxParam, WindowParam], []) by {
      assert body[..2][..1] == body[..1] && ks[..2][..1] == ks[..1];
    }
    assert Distribute(body[..3], ks[..3]) == Buckets([p1], [], [CxParam, WindowParam], []) by {
      assert body[..3][..2] == body[..2] && ks[..3][..2] == ks[..2];
    }
    assert Distribute(body[..4], ks[..4]) == Buckets([p1, p2], [], [CxParam, WindowParam], []) by {
      assert body[..4][..3] == body[..3] && ks[..4][..3] == ks[..3];
    }
    assert Distribute(body[..5], ks[..5]) == Buckets([p1, p2], [d], [CxParam, WindowParam], []) by {
      assert body[..5][..4] == body[..4] && ks[..5][..4] == ks[..4];
    }
    assert body[..5] == body[..|body| - 1] && ks[..5] == ks[..|ks| - 1];
  }

  /** The buckets the loop fills for `gpui_component_input`. */
  lemma InputExampleBuckets(uses: Stmt -> (bool, bool))
    requires uses(WithContext) == (true, false) && uses(WithWindow) == (false, true)
    requires uses(InputBody) == (false, false)
    ensures Collect(InputExample().body, uses) ==
      Buckets([InputStateProp, InputTextProp], [InputSubscription], [CxParam, WindowParam], [InputBody])
  {
    InputExampleKinds(uses);
    CollectByKinds(InputExample().body, uses, InputKinds);
    InputExampleShape(InputExample().body, InputStateProp, InputTextProp, InputSubscription);
  }

  /** The constructor `generate_new_method` builds from the example's buckets. */
  lemma InputExampleConstructor(withContext: bool)
    ensures NewMethodOf([InputStateProp, InputTextProp], [CxParam, WindowParam], [InputSubscription], withContext)
         == NewMethod([CxParam, WindowParam] + (if withContext then [CxParam, WindowParam] else []), [
              Let(LetBinding(InputState, EntityInputState, Single(NewInput))),
              Let(LetBinding(Text, SharedString, Single(World))),
              SubscriptionsVec([SubscribeIn(InputState, Single(Handler))]),
              StructLiteral([InputState, Text, SubscriptionsName])])
  {
    var props := [InputStateProp, InputTextProp];
    var subs := [InputSubscription];
    var let1 := LetBinding(InputState, EntityInputState, Single(NewInput));
    var let2 := LetBinding(Text, SharedString, Single(World));
    assert props[..1] == [InputStateProp] && [InputStateProp][..0] == [];
    assert InitialisedLets([InputStateProp]) == [let1];
    assert RequiredParams([InputStateProp]) == [];
    assert InitialisedLets(props) == [let1, let2];
    assert RequiredParams(props) == [];
    assert LetStmts([let1, let2]) == [Let(let1), Let(let2)];
    assert SubscribeCalls(subs) == [SubscribeIn(InputState, Single(Handler))];
    assert LiteralFields(props, subs) == [InputState, Text, SubscriptionsName];
  }

  /** With `uses` reporting the context for `with_context!()` and the window for
      `with_window!()`, the constructor is `new(cx, window)`, builds one subscription on
      `input_state`, and the struct gains `_subscriptions`. When `with_context` is also
      set, `cx` and `window` are appended a second time. */
  lemma InputExampleExpansion(uses: Stmt -> (bool, bool), toCamel: Ident -> Ident, withContext: bool)
    requires uses(WithContext) == (true, false) && uses(WithWindow) == (false, true)
    requires uses(InputBody) == (false, false)
    ensures var out := Expansion(InputExample(), uses, toCamel, withContext);
      && out.fields == [Field(InputState, EntityInputState), Field(Text, SharedString), SubscriptionsField]
      && out.newMethod.params == [CxParam, WindowParam] + (if withContext then [CxParam, WindowParam] else [])
      && out.newMethod.body == [
           Let(LetBinding(InputState, EntityInputState, Single(NewInput))),
           Let(LetBinding(Text, SharedString, Single(World))),
           SubscriptionsVec([SubscribeIn(InputState, Single(Handler))]),
           StructLiteral([InputState, Text, SubscriptionsName])]
      && out.renderBody == [InputBody]
  {
    InputExampleBuckets(uses);
    InputExampleAssembled(toCamel(InputExample().name), InputExample(), withContext);
  }

  /** The output assembled from the buckets of `gpui_component_input`. */
  lemma InputExampleAssembled(name: Ident, f: ItemFn, withContext: bool)
    ensures var out := Assemble(name, f, Buckets([InputStateProp, InputTextProp], [InputSubscription],
                                                 [CxParam, WindowParam], [InputBody]), withContext);
      && out.fields == [Field(InputState, EntityInputState), Field(Text, SharedString), SubscriptionsField]
      && out.newMethod.params == [CxParam, WindowParam] + (if withContext then [CxParam, WindowParam] else [])
      && out.newMethod.body == [
           Let(LetBinding(InputState, EntityInputState, Single(NewInput))),
           Let(LetBinding(Text, SharedString, Single(World))),
           SubscriptionsVec([SubscribeIn(InputState, Single(Handler))]),
           StructLiteral([InputState, Text, SubscriptionsName])]
      && out.renderBody == [InputBody]
  {
    InputExampleConstructor(withContext);
    assert StructFields([InputStateProp, InputTextProp], [InputSubscription])
        == [Field(InputState, EntityInputState), Field(Text, SharedString), SubscriptionsField];
  }
}
