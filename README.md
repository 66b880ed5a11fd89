# simple-gpui `#[component]`: a Dafny model

This project models the `#[component]` attribute macro of `simple_gpui_core`. The macro
rewrites a function whose body is written with marker macros into three things:

- a struct;
- an inherent impl holding a `new` constructor and one fluent setter per property;
- a `Render` impl whose `render` body is the function's remaining statements.

The model has four parts.

- `syntax.dfy` (module `Syntax`) holds the syntax values the macro looks at.
  - Identifiers, types and expressions are opaque values.
  - A statement is either a macro statement (a path and an argument token list) or any other statement.
  - `is_ident` is exact equality with a one-segment plain path.
- `extractors.dfy` (module `Extractors`) models `extract_component_property`, `extract_subscribe` and `extract_with_context`.
  - The argument lists are parsed by a small recursive-descent parser over tokens.
  - Properties follow `Ident : Type [=] [Expr]`, then the end of input.
  - Subscriptions follow `Ident , Expr`, then the end of input.
  - Each grammar has a printer as its partner. The lemmas prove that the parser accepts exactly what the printer produces.
  - `property.rs` is a byte-identical copy of `extractors.rs:1-46` and is not declared as a module. One model serves both files.
- `methods.dfy` (module `Methods`) models `generate_new_method` and `generate_set_method`.
  - `generate_new_method` is a method with a loop, proved equal to the specification `NewMethodOf`. That specification is assembled from the parameter partition, the let-bindings, the subscriptions vector and the struct literal.
  - `generate_set_method` is a function. The setters' effect on an instance is given by `ApplySetter`.
- `component.dfy` (module `ComponentMacro`) models `component`.
  - The single-pass bucketing loop is a method proved equal to `Expansion`.
  - `Expansion` is the specification, built on `Collect`, the buckets after a prefix of the body.
  - The lemmas state the order, partition and correspondence properties of the whole expansion.

`examples.dfy` and `scenarios.dfy` hold the annotated functions of `src/bin/hello_world.rs`
and `src/bin/gpui_component_input.rs`. They prove what the macro expands each one to.

The generated code is modelled as a structured value (`Output`, `NewMethod`, `Setter`), not as tokens.

Two collaborators whose code is not part of this model are parameters.
- `uses: Stmt -> (bool, bool)` stands for `extract_uses`, which reports whether a statement asks for the context and/or the window.
- `toCamel: Ident -> Ident` stands for the `to_camel` renaming of the function name.

`with_context` is an explicit input of `Component`.
- `lib.rs:62` calls `generate_new_method` with three arguments.
- `methods.rs:4-9` declares four.
- The model follows the four-argument declaration.

## Model

| member | source | states |
|---|---|---|
| Syntax.IsIdentExactly | simple_gpui_core/src/extractors.rs:11 | `path.is_ident(name)` holds for exactly one path: the bare, argument-free, single-segment `name` |
| Extractors.ParseExpr | simple_gpui_core/src/extractors.rs:28 | the greedy expression parser consumes at least one token whenever it succeeds |
| Extractors.ParseExprSound | simple_gpui_core/src/extractors.rs:28 | whatever the expression parser accepts is a printed expression followed by the rest, and it stops only where no `=` follows |
| Extractors.ParseExprComplete | simple_gpui_core/src/extractors.rs:28 | a printed expression followed by anything that does not start with `=` parses back to that expression, leaving exactly that rest |
| Extractors.ParsePropertyRest | simple_gpui_core/src/extractors.rs:27-28 | after the type, an optional `=` and then an optional initializer must make up the whole remaining input; the name and type pass through unchanged |
| Extractors.ParsePropertyRestPrinted | simple_gpui_core/src/extractors.rs:27-28 | the tail after the type, printed with or without `=`, parses back to the same initializer (or to none) |
| Extractors.ParsePropertySound | simple_gpui_core/src/extractors.rs:23-36 | whatever the property grammar accepts is `name : Type`, an optional `=`, and its initializer, with nothing left over |
| Extractors.ParsePropertyPrinted | simple_gpui_core/src/extractors.rs:23-36 | a printed property, with or without its `=`, parses back to itself |
| Extractors.ParsePropertyIff | simple_gpui_core/src/property.rs:22-45 | the property grammar yields `p` if and only if the tokens are `p` printed with or without `=`; a missing name, colon or type, or leftover tokens, give `None` |
| Extractors.EqualsSignDiscarded | simple_gpui_core/src/extractors.rs:27-28 | `name : Type = init` and `name : Type init` give the same declaration: the `=` is parsed and dropped |
| Extractors.ParseSubscribe | simple_gpui_core/src/extractors.rs:64-80 | an accepted subscription's tokens are exactly `source , handler` |
| Extractors.ParseSubscribeIff | simple_gpui_core/src/extractors.rs:64-80 | the subscription grammar yields `d` if and only if the tokens are exactly `d` printed |
| Extractors.ExtractComponentProperty | simple_gpui_core/src/extractors.rs:8-46 | a result is only ever produced for a macro statement whose path is exactly `component_property` |
| Extractors.ExtractComponentPropertyIff | simple_gpui_core/src/property.rs:8-46 | `extract_component_property` gives `p` exactly for `component_property!(name : Type [=] [init])` statements that print `p` |
| Extractors.ExtractSubscribe | simple_gpui_core/src/extractors.rs:51-84 | a result is only produced for a `subscribe` macro statement, and its tokens print the result |
| Extractors.ExtractSubscribeIff | simple_gpui_core/src/extractors.rs:51-84 | `extract_subscribe` gives `d` exactly for `subscribe!(source, handler)` statements that print `d` |
| Extractors.ExtractWithContext | simple_gpui_core/src/extractors.rs:89-97 | true exactly for a macro statement whose path is `init_with_context`, whatever its arguments |
| Extractors.MarkersExclusive | simple_gpui_core/src/extractors.rs:8-97 | no statement is recognised by two of the three extractors |
| Methods.GenerateNewMethod | simple_gpui_core/src/methods.rs:4-82 | the loop's parameters and body equal the constructor specification `NewMethodOf`: the required parameters, then the temp parameters, then the context parameters; the lets, then the vector, then the literal |
| Methods.RequiredParamsAppend | simple_gpui_core/src/methods.rs:10-26 | sorting properties into parameters keeps declaration order (it distributes over concatenation) |
| Methods.InitialisedLetsAppend | simple_gpui_core/src/methods.rs:49-54 | sorting properties into let-bindings keeps declaration order (it distributes over concatenation) |
| Methods.RequiredParamsMembership | simple_gpui_core/src/methods.rs:17-22 | `name: ty` is a required parameter if and only if a property `name: ty` has no initializer |
| Methods.InitialisedLetsMembership | simple_gpui_core/src/methods.rs:13-19 | `let name: ty = e` is emitted if and only if a property `name: ty = e` is declared |
| Methods.PartitionSizes | simple_gpui_core/src/methods.rs:10-26 | every property becomes exactly one of a parameter or a let-binding |
| Methods.CtorBodyShape | simple_gpui_core/src/methods.rs:56-81 | the constructor body is ordered lets, then the vector, then the literal; it ends in the struct literal and holds no other literal; the vector is there iff there are subscriptions, with one `subscribe_in` call per subscription, in order |
| Methods.LiteralFieldsBound | simple_gpui_core/src/methods.rs:13-29 | every field the struct literal names is bound earlier: an uninitialised property by a parameter, an initialised one by its let-binding, `_subscriptions` by the vector |
| Methods.SetterWritesOnlyItsField | simple_gpui_core/src/methods.rs:85-103 | setter `i` assigns the field of property `i` and leaves every other field unchanged |
| Methods.SettersCommute | simple_gpui_core/src/methods.rs:85-103 | setters of two different properties can be applied in either order with the same result |
| ComponentMacro.Classify | simple_gpui_core/src/lib.rs:24-46 | a statement is a property iff `extract_component_property` matches; otherwise a subscription iff `extract_subscribe` matches; otherwise a temp parameter iff a `uses` flag is set (`cx` winning over `window`); otherwise ordinary |
| ComponentMacro.ClassifyPrintedProperty | simple_gpui_core/src/lib.rs:25-26 | a printed `component_property!` statement goes to the properties whatever `uses` says about it |
| ComponentMacro.ClassifyPrintedSubscribe | simple_gpui_core/src/lib.rs:27-28 | a printed `subscribe!` statement goes to the subscriptions whatever `uses` says about it |
| ComponentMacro.Expansion | simple_gpui_core/src/lib.rs:16-86 | the struct, its impl and its `Render` impl share one camel-cased name, and `render` keeps the function's parameters and return type verbatim |
| ComponentMacro.Component | simple_gpui_core/src/lib.rs:12-89 | the single pass with four mutable buckets, then the assembly, produces exactly `Expansion` |
| ComponentMacro.CollectSnoc | simple_gpui_core/src/lib.rs:24-46 | one more statement adds its item to the end of its own bucket and leaves the others alone |
| ComponentMacro.CollectByKinds | simple_gpui_core/src/lib.rs:24-46 | the buckets depend on nothing but the kind of each statement |
| ComponentMacro.CollectAppend | simple_gpui_core/src/lib.rs:24-46 | every bucket keeps declaration order: running over `a + b` gives `a`'s items followed by `b`'s, bucket by bucket |
| ComponentMacro.CollectSizes | simple_gpui_core/src/lib.rs:24-46 | every statement lands in exactly one bucket |
| ComponentMacro.OrdinaryStatements | simple_gpui_core/src/lib.rs:41-43 | a statement is kept for `render` iff it is in the body, neither extractor matches it, and neither `uses` flag is set |
| ComponentMacro.PropertySources | simple_gpui_core/src/lib.rs:25-26 | a declaration is among the properties iff some body statement parses to it as a property |
| ComponentMacro.SubscribeSources | simple_gpui_core/src/lib.rs:27-28 | a declaration is among the subscriptions iff some body statement parses to it as a subscription |
| ComponentMacro.SubscriptionsStorage | simple_gpui_core/src/lib.rs:49-59 | the fields are the properties, in order, with their types; `_subscriptions` follows iff there is a subscription, and the constructor builds the vector under the same condition |
| ComponentMacro.ConstructorInitialisesEveryField | simple_gpui_core/src/methods.rs:73-81 | the constructor ends in a struct literal naming exactly the struct's fields, in order, and each property field is bound before it by a parameter or let-binding of the same name and type |
| ComponentMacro.ConstructorParams | simple_gpui_core/src/methods.rs:31-47 | the parameters are the uninitialised properties (and no initialised one), then the temp parameters in marker order, then `cx` and `window` iff there are subscriptions and context was requested |
| ComponentMacro.SettersMatchFields | simple_gpui_core/src/lib.rs:63 | there is one setter per non-`_subscriptions` field, at the same position, with the field's name and type, writing that field |
| ComponentMacro.RenderBodyIsOrdinary | simple_gpui_core/src/lib.rs:67-69 | the `render` body holds exactly the ordinary statements, in their original relative order |
| Scenarios.HelloWorldKinds | src/bin/hello_world.rs:11-14 | both `component_property!` statements are properties and the element tree is ordinary |
| Scenarios.HelloWorldBuckets | src/bin/hello_world.rs:9-39 | the loop's buckets for `hello_world` are the two properties and the element tree |
| Scenarios.HelloWorldConstructor | src/bin/hello_world.rs:11-12 | the constructor takes `text2` alone and binds `text` itself before the struct literal |
| Scenarios.HelloWorldExpansion | src/bin/hello_world.rs:9-51 | `hello_world` expands to fields `text` and `text2`, `new(text2)` (the call at line 51), two setters and the element tree as `render` body |
| Scenarios.InputExampleKinds | src/bin/gpui_component_input.rs:9-26 | the two markers are `cx` and `window`, the two properties and the subscription are recognised, and the element tree is ordinary |
| Scenarios.InputExampleBuckets | src/bin/gpui_component_input.rs:8-34 | the loop fills all four buckets in declaration order |
| Scenarios.InputExampleConstructor | src/bin/gpui_component_input.rs:9-13 | the constructor binds both properties, builds one `subscribe_in` on `input_state`, and initialises `_subscriptions` |
| Scenarios.InputExampleExpansion | src/bin/gpui_component_input.rs:8-50 | the example expands to `new(cx, window)` (the call at line 50) with a `_subscriptions` field; with `with_context` set, `cx` and `window` are appended a second time |

## Left out

- The parsing internals of `syn`, `quote` and `proc_macro` are not modelled. Types and expressions are opaque tokens (`TType`, `TExpr`) or bare identifiers. The only binary operator modelled is `=`, the one that matters for the property grammar.
- When an optional parse fails, the model consumes nothing. `syn` may leave its cursor partly advanced; this is not modelled.
- `extract_uses` is not part of this model. It is the parameter `uses`.
- `to_camel` from the `case` crate is not part of this model. It is the parameter `toCamel`.
- `eprintln!` at `lib.rs:42` is diagnostic output and is left out.
- The code does not check for duplicate fields or for subscriptions on unknown sources, so the model does not either.
- The runtime behaviour of the generated code is left out: gpui subscriptions, entities and windows.
- The binaries are used only as two worked expansions. Their `main` functions, event loops and the temperature example are left out.
- The three-argument call at `lib.rs:62` is modelled as the four-argument `generate_new_method`, with `with_context` supplied by the caller.
- With `with_context` set, a body that also uses the `with_context!()`/`with_window!()` markers and has subscriptions gets `cx` and `window` twice; `Scenarios.InputExampleExpansion` states this as it happens.
- GenerateSetMethod: has no contract of its own; what its setters are and do is stated by `ComponentMacro.SettersMatchFields`, `Methods.SetterWritesOnlyItsField` and `Methods.SettersCommute`.
