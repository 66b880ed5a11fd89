/** The two annotated functions of the repository's binaries, `src/bin/hello_world.rs` and
    `src/bin/gpui_component_input.rs`, as the macro receives them. */
module BinaryExamples {
  import opened Syntax
  import opened Methods
  import opened ComponentMacro

  const SharedString := PathType(Ident("SharedString"))
  const RenderInputs := [Param(Ident("_window"), TypeTerm("&mut Window")),
                         Param(Ident("_cx"), TypeTerm("&mut Context<Self>"))]
  const RenderOutput := Returns(TypeTerm("impl IntoElement"))

  // ---------------------------------------------------------------------------
  // hello_world: one property with an initializer, one without.

  const Text := Ident("text")
  const Text2 := Ident("text2")
  const World1 := ExprTerm("SharedString::new(\"World1\")")
  const HelloBody := Plain("div().flex().flex_col() /* ... */")

  function HelloWorld(): ItemFn
  {
    ItemFn(Ident("hello_world"), RenderInputs, RenderOutput, [
      MacroStmt(SimplePath("component_property"), [TIdent(Text), TColon, TIdent(Ident("SharedString")), TEq, TExpr(World1.text)]),
      MacroStmt(SimplePath("component_property"), [TIdent(Text2), TColon, TIdent(Ident("SharedString"))]),
      HelloBody])
  }

  // ---------------------------------------------------------------------------
  // gpui_component_input: context and window markers, two initialised properties and
  // one subscription.

  const InputState := Ident("input_state")
  const EntityInputState := TypeTerm("Entity<InputState>")
  const NewInput := ExprTerm("cx.new(|cx| InputState::new(window, cx).placeholder(\"Enter your name\"))")
  const World := ExprTerm("SharedString::new(\"World\")")
  const Handler := ExprTerm("{ let input_state = input_state.clone(); move |this, _, ev, _window, cx| /* ... */ }")
  const WithContext := MacroStmt(SimplePath("with_context"), [])
  const WithWindow := MacroStmt(SimplePath("with_window"), [])
  const InputBody := Plain("v_flex().p_5().gap_2() /* ... */")

  function InputExample(): ItemFn
  {
    ItemFn(Ident("hello_world"), RenderInputs, RenderOutput, [
      WithContext,
      WithWindow,
      MacroStmt(SimplePath("component_property"), [TIdent(InputState), TColon, TType(EntityInputState.text), TEq, TExpr(NewInput.text)]),
      MacroStmt(SimplePath("component_property"), [TIdent(Text), TColon, TIdent(Ident("SharedString")), TEq, TExpr(World.text)]),
      MacroStmt(SimplePath("subscribe"), [TIdent(InputState), TComma, TExpr(Handler.text)]),
      InputBody])
  }
}
