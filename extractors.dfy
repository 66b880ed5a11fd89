/** The three statement classifiers of `simple_gpui_core/src/extractors.rs` (and its
    identical copy `property.rs`). Each looks at one statement, checks the macro path and
    parses the argument tokens; a path that does not match, or arguments that do not parse,
    give "no marker" rather than an error. */
module Extractors {
  import opened Syntax

  /** `component_property!(name: Type [= init])`. */
  datatype PropertyDecl = PropertyDecl(name: Ident, ty: Type, init: Option<Expr>)

  /** `subscribe!(source, handler)`. */
  datatype SubscribeDecl = SubscribeDecl(source: Ident, handler: Expr)

  /** A parsed value together with the tokens left after it. */
  datatype Parsed<T> = Parsed(value: T, rest: seq<Token>)

  // ---------------------------------------------------------------------------
  // Printing: the tokens a value is written as. The partner of the parsers below.

  function TypeTokens(t: Type): seq<Token>
  {
    match t
    case PathType(n) => [TIdent(n)]
    case TypeTerm(s) => [TType(s)]
  }

  function OperandTokens(o: Operand): seq<Token>
  {
    match o
    case PathExpr(n) => [TIdent(n)]
    case ExprTerm(s) => [TExpr(s)]
  }

  function ExprTokens(e: Expr): (ts: seq<Token>)
    ensures |ts| > 0 && ts[0] != TEq
  {
    match e
    case Single(o) => OperandTokens(o)
    case Assign(target, value) => OperandTokens(target) + [TEq] + ExprTokens(value)
  }

  /** `name : Type`, an optional `=`, then the initializer if there is one. */
  function PropertyTokens(p: PropertyDecl, withEq: bool): seq<Token>
  {
    [TIdent(p.name)] + ([TColon] + (TypeTokens(p.ty) + InitTokens(p.init, withEq)))
  }

  /** What follows the type: an optional `=`, then the initializer if there is one. */
  function InitTokens(init: Option<Expr>, withEq: bool): seq<Token>
  {
    (if withEq then [TEq] else []) + (match init case None => [] case Some(e) => ExprTokens(e))
  }

  /** `source , handler`. */
  function SubscribeTokens(d: SubscribeDecl): seq<Token>
  {
    [TIdent(d.source), TComma] + ExprTokens(d.handler)
  }

  // ---------------------------------------------------------------------------
  // Parsing, one grammar rule per function. A failure consumes nothing.

  /** Parses an identifier. */
  function ParseIdent(ts: seq<Token>): (r: Option<Parsed<Ident>>)
    ensures r.Some? <==> |ts| > 0 && ts[0].TIdent?
    ensures r.Some? ==> ts == [TIdent(r.value.value)] + r.value.rest
  {
    if |ts| > 0 && ts[0].TIdent? then Some(Parsed(ts[0].id, ts[1..])) else None
  }

  /** Parses one punctuation token `t`, returning what follows it. */
  function ParsePunct(ts: seq<Token>, t: Token): (r: Option<seq<Token>>)
    ensures r.Some? <==> |ts| > 0 && ts[0] == t
    ensures r.Some? ==> ts == [t] + r.value
  {
    if |ts| > 0 && ts[0] == t then Some(ts[1..]) else None
  }

  /** Parses a type: a bare identifier is a path type. */
  function ParseType(ts: seq<Token>): (r: Option<Parsed<Type>>)
    ensures r.Some? <==> |ts| > 0 && (ts[0].TIdent? || ts[0].TType?)
    ensures r.Some? ==> ts == TypeTokens(r.value.value) + r.value.rest
  {
    if |ts| == 0 then None
    else match ts[0]
      case TIdent(n) => Some(Parsed(PathType(n), ts[1..]))
      case TType(s) => Some(Parsed(TypeTerm(s), ts[1..]))
      case _ => None
  }

  /** Parses one operand: a bare identifier is a path expression. */
  function ParseOperand(ts: seq<Token>): (r: Option<Parsed<Operand>>)
    ensures r.Some? <==> |ts| > 0 && (ts[0].TIdent? || ts[0].TExpr?)
    ensures r.Some? ==> ts == OperandTokens(r.value.value) + r.value.rest
    ensures r.Some? ==> |r.value.rest| == |ts| - 1
  {
    if |ts| == 0 then None
    else match ts[0]
      case TIdent(n) => Some(Parsed(PathExpr(n), ts[1..]))
      case TExpr(s) => Some(Parsed(ExprTerm(s), ts[1..]))
      case _ => None
  }

  /** Parses an expression, taking as much as it can: an operand followed by `=` must be
      followed by a further expression, and the whole parse fails if it is not. */
  function ParseExpr(ts: seq<Token>): (r: Option<Parsed<Expr>>)
    decreases |ts|
    ensures r.Some? ==> |r.value.rest| < |ts|
  {
    match ParseOperand(ts)
    case None => None
    case Some(Parsed(target, afterTarget)) =>
      match ParsePunct(afterTarget, TEq)
      case None => Some(Parsed(Single(target), afterTarget))
      case Some(afterEq) =>
        match ParseExpr(afterEq)
        case None => None
        case Some(Parsed(value, rest)) => Some(Parsed(Assign(target, value), rest))
  }

  /** The argument grammar of `component_property!`: `name : Type`, then the rest. */
  function ParseProperty(ts: seq<Token>): Option<PropertyDecl>
  {
    match ParseIdent(ts)
    case None => None
    case Some(Parsed(name, afterName)) =>
      match ParsePunct(afterName, TColon)
      case None => None
      case Some(afterColon) =>
        match ParseType(afterColon)
        case None => None
        case Some(Parsed(ty, afterType)) => ParsePropertyRest(name, ty, afterType)
  }

  /** What follows `name : Type`: an optional `=` that is thrown away, then an optional
      expression, then the end of the tokens. */
  function ParsePropertyRest(name: Ident, ty: Type, ts: seq<Token>): (r: Option<PropertyDecl>)
    ensures r.Some? ==> r.value.name == name && r.value.ty == ty
    ensures r.Some? ==> ts == InitTokens(r.value.init, false) || ts == InitTokens(r.value.init, true)
  {
    var afterEq := match ParsePunct(ts, TEq) case Some(rest) => rest case None => ts;
    ParseExprSound(afterEq);
    match ParseExpr(afterEq)
    case None =>
      if afterEq == [] then Some(PropertyDecl(name, ty, None)) else None
    case Some(Parsed(init, rest)) =>
      if rest == [] then Some(PropertyDecl(name, ty, Some(init))) else None
  }

  /** The argument grammar of `subscribe!`: `source , handler`, then the end of the tokens. */
  function ParseSubscribe(ts: seq<Token>): (r: Option<SubscribeDecl>)
    ensures r.Some? ==> ts == SubscribeTokens(r.value)
  {
    match ParseIdent(ts)
    case None => None
    case Some(Parsed(source, afterSource)) =>
      match ParsePunct(afterSource, TComma)
      case None => None
      case Some(afterComma) =>
        ParseExprSound(afterComma);
        match ParseExpr(afterComma)
        case None => None
        case Some(Parsed(handler, rest)) =>
          if rest == [] then Some(SubscribeDecl(source, handler)) else None
  }

  // ---------------------------------------------------------------------------
  // The classifiers.

  /** `extract_component_property`. */
  function ExtractComponentProperty(s: Stmt): (r: Option<PropertyDecl>)
    ensures r.Some? ==> s.MacroStmt? && IsIdent(s.path, "component_property")
  {
    if s.MacroStmt? && IsIdent(s.path, "component_property") then ParseProperty(s.tokens) else None
  }

  /** `extract_subscribe`. */
  function ExtractSubscribe(s: Stmt): (r: Option<SubscribeDecl>)
    ensures r.Some? ==> s.MacroStmt? && IsIdent(s.path, "subscribe") && s.tokens == SubscribeTokens(r.value)
  {
    if s.MacroStmt? && IsIdent(s.path, "subscribe") then ParseSubscribe(s.tokens) else None
  }

  /** `extract_with_context`: only the path counts, the arguments are never looked at. */
  function ExtractWithContext(s: Stmt): (r: bool)
    ensures r <==> s.MacroStmt? && s.path == SimplePath("init_with_context")
  {
    IsIdentExactly(if s.MacroStmt? then s.path else SimplePath(""), "init_with_context");
    s.MacroStmt? && IsIdent(s.path, "init_with_context")
  }

  // ---------------------------------------------------------------------------
  // Properties of the parsers and classifiers.

  /** An expression followed by anything but `=` parses back to itself, leaving the rest. */
  /** Whatever the expression grammar accepts is a printed expression, and it stops only
      where no `=` follows. */
  lemma {:induction false} ParseExprSound(ts: seq<Token>)
    decreases |ts|
    ensures ParseExpr(ts).Some? ==>
      && ts == ExprTokens(ParseExpr(ts).value.value) + ParseExpr(ts).value.rest
      && (ParseExpr(ts).value.rest == [] || ParseExpr(ts).value.rest[0] != TEq)
  {
    match ParseOperand(ts)
    case None =>
    case Some(Parsed(target, afterTarget)) =>
      match ParsePunct(afterTarget, TEq)
      case None =>
      case Some(afterEq) =>
        ParseExprSound(afterEq);
        match ParseExpr(afterEq)
        case None =>
        case Some(Parsed(value, rest)) =>
          assert ts == OperandTokens(target) + ([TEq] + (ExprTokens(value) + rest));
  }

  lemma {:induction false} ParseExprComplete(e: Expr, rest: seq<Token>)
    requires rest == [] || rest[0] != TEq
    ensures ParseExpr(ExprTokens(e) + rest) == Some(Parsed(e, rest))
  {
    match e
    case Single(o) =>
      var ts := ExprTokens(e) + rest;
      assert ts == [OperandTokens(o)[0]] + rest;
      assert ParseOperand(ts) == Some(Parsed(o, rest));
      assert ParsePunct(rest, TEq) == None;
    case Assign(target, value) =>
      var ts := ExprTokens(e) + rest;
      var afterTarget := [TEq] + (ExprTokens(value) + rest);
      assert ts == [OperandTokens(target)[0]] + afterTarget;
      assert ParseOperand(ts) == Some(Parsed(target, afterTarget));
      assert ParsePunct(afterTarget, TEq) == Some(ExprTokens(value) + rest);
      ParseExprComplete(value, rest);
  }

  /** What follows the type, printed with or without `=`, parses back to the initializer. */
  lemma ParsePropertyRestPrinted(name: Ident, ty: Type, init: Option<Expr>, withEq: bool)
    ensures ParsePropertyRest(name, ty, InitTokens(init, withEq)) == Some(PropertyDecl(name, ty, init))
  {
    var tail := match init case None => [] case Some(e) => ExprTokens(e);
    var ts := InitTokens(init, withEq);
    assert !withEq ==> ts == tail;
    assert ParsePunct(ts, TEq) == if withEq then Some(tail) else None;
    match init
    case None =>
      assert ParseExpr(tail) == None;
    case Some(e) =>
      ParseExprComplete(e, []);
      assert ExprTokens(e) + [] == tail;
  }

  /** Whatever the property grammar accepts is a printed property. */
  lemma ParsePropertySound(ts: seq<Token>)
    ensures ParseProperty(ts).Some? ==>
      ts == PropertyTokens(ParseProperty(ts).value, false) || ts == PropertyTokens(ParseProperty(ts).value, true)
  {
    if ParseProperty(ts).Some? {
      var name := ParseIdent(ts).value;
      var afterColon := ParsePunct(name.rest, TColon).value;
      var ty := ParseType(afterColon).value;
      assert ts == [TIdent(name.value)] + ([TColon] + (TypeTokens(ty.value) + ty.rest));
    }
  }

  /** A printed property parses back to itself, with or without its `=`. */
  lemma ParsePropertyPrinted(p: PropertyDecl, withEq: bool)
    ensures ParseProperty(PropertyTokens(p, withEq)) == Some(p)
  {
    var afterType := InitTokens(p.init, withEq);
    assert ParseType(TypeTokens(p.ty) + afterType) == Some(Parsed(p.ty, afterType));
    ParsePropertyRestPrinted(p.name, p.ty, p.init, withEq);
  }

  /** The property grammar accepts exactly `name : Type`, an optional `=`, and the
      initializer if there is one; nothing may follow. In particular `name : Type =` with
      no expression yields no initializer. */
  lemma ParsePropertyIff(ts: seq<Token>, p: PropertyDecl)
    ensures ParseProperty(ts) == Some(p) <==> ts == PropertyTokens(p, false) || ts == PropertyTokens(p, true)
  {
    ParsePropertySound(ts);
    if ts == PropertyTokens(p, false) {
      ParsePropertyPrinted(p, false);
    } else if ts == PropertyTokens(p, true) {
      ParsePropertyPrinted(p, true);
    }
  }

  /** The `=` of a property is thrown away: with or without it, `name : Type init` gives
      the same declaration. */
  lemma EqualsSignDiscarded(name: Ident, ty: Type, init: Expr)
    ensures ParseProperty([TIdent(name)] + ([TColon] + (TypeTokens(ty) + ([TEq] + ExprTokens(init)))))
         == ParseProperty([TIdent(name)] + ([TColon] + (TypeTokens(ty) + ExprTokens(init))))
         == Some(PropertyDecl(name, ty, Some(init)))
  {
    var p := PropertyDecl(name, ty, Some(init));
    ParsePropertyPrinted(p, true);
    ParsePropertyPrinted(p, false);
    assert InitTokens(Some(init), true) == [TEq] + ExprTokens(init);
    assert InitTokens(Some(init), false) == ExprTokens(init);
  }

  /** The subscription grammar accepts exactly `source , handler`; nothing may follow. */
  lemma ParseSubscribeIff(ts: seq<Token>, d: SubscribeDecl)
    ensures ParseSubscribe(ts) == Some(d) <==> ts == SubscribeTokens(d)
  {
    if ts == SubscribeTokens(d) {
      assert ts == [TIdent(d.source)] + ([TComma] + (ExprTokens(d.handler) + []));
      ParseExprComplete(d.handler, []);
    }
  }

  /** `extract_component_property` recognises exactly the statements
      `component_property!(name : Type [=] [init])`. */
  lemma ExtractComponentPropertyIff(s: Stmt, p: PropertyDecl)
    ensures ExtractComponentProperty(s) == Some(p)
        <==> && s.MacroStmt? && IsIdent(s.path, "component_property")
             && (s.tokens == PropertyTokens(p, false) || s.tokens == PropertyTokens(p, true))
  {
    if s.MacroStmt? {
      ParsePropertyIff(s.tokens, p);
    }
  }

  /** `extract_subscribe` recognises exactly the statements `subscribe!(source, handler)`. */
  lemma ExtractSubscribeIff(s: Stmt, d: SubscribeDecl)
    ensures ExtractSubscribe(s) == Some(d)
        <==> s.MacroStmt? && IsIdent(s.path, "subscribe") && s.tokens == SubscribeTokens(d)
  {
    if s.MacroStmt? {
      ParseSubscribeIff(s.tokens, d);
    }
  }

  /** The three classifiers test different paths, so at most one of them fires. */
  lemma MarkersExclusive(s: Stmt)
    ensures !(ExtractComponentProperty(s).Some? && ExtractSubscribe(s).Some?)
    ensures !(ExtractComponentProperty(s).Some? && ExtractWithContext(s))
    ensures !(ExtractSubscribe(s).Some? && ExtractWithContext(s))
  {
  }
}
