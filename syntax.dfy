/** The pieces of a Rust syntax tree that the `#[component]` attribute macro looks at,
    reduced to what the macro tells apart. Identifiers, types and expressions are kept
    as opaque values: the macro copies them into its output and never looks inside. */
module Syntax {

  datatype Option<T> = None | Some(value: T)

  /** An identifier, compared by its text. */
  datatype Ident = Ident(text: string)

  /** A type: a bare path such as `SharedString`, or any other type (`Entity<InputState>`,
      `&mut Window`) kept as its text. */
  datatype Type = PathType(name: Ident) | TypeTerm(text: string)

  /** One operand of an expression: a bare path such as `input_state`, or any other
      complete expression (a call, a block, a closure) kept as its text. */
  datatype Operand = PathExpr(name: Ident) | ExprTerm(text: string)

  /** An expression: one operand, or an assignment `target = value`, which the expression
      parser reads right-associatively and greedily. */
  datatype Expr = Single(operand: Operand) | Assign(target: Operand, value: Expr)

  /** The tokens of a macro invocation's argument list. */
  datatype Token =
    | TIdent(id: Ident)         // an identifier
    | TColon                    // `:`
    | TComma                    // `,`
    | TEq                       // `=`
    | TType(typeText: string)   // a token tree that reads as one non-path type
    | TExpr(exprText: string)   // a token tree that reads as one non-path operand

  /** A segment of a macro path; `hasArguments` is true for `name::<...>`. */
  datatype PathSegment = PathSegment(ident: Ident, hasArguments: bool)

  /** The path before the `!` of a macro invocation; `leadingColon` is true for `::name!`. */
  datatype MacroPath = MacroPath(leadingColon: bool, segments: seq<PathSegment>)

  /** A statement of the annotated function's body: a macro statement `path!(tokens);`,
      or any other statement, kept as its text (the trailing expression included). */
  datatype Stmt = MacroStmt(path: MacroPath, tokens: seq<Token>) | Plain(code: string)

  /** `path.is_ident(name)`: the path is exactly the single plain identifier `name`. */
  predicate IsIdent(p: MacroPath, name: string)
  {
    && !p.leadingColon
    && |p.segments| == 1
    && p.segments[0].ident == Ident(name)
    && !p.segments[0].hasArguments
  }

  /** The path written as the bare identifier `name`. */
  function SimplePath(name: string): MacroPath
  {
    MacroPath(false, [PathSegment(Ident(name), false)])
  }

  /** `is_ident` accepts exactly one path per name. */
  lemma IsIdentExactly(p: MacroPath, name: string)
    ensures IsIdent(p, name) <==> p == SimplePath(name)
  {
    if IsIdent(p, name) {
      assert p.segments == [PathSegment(Ident(name), false)];
    }
  }
}
