/** Printing a type, lexing the text and parsing the tokens gives the type back. */
module TypeRoundTrip {
  import opened Options
  import opened TypeSyntax
  import opened TypeParser

  // --------------------------------------------------------------- types and their tokens

  /** Identifiers that are no keywords, separated by dots. */
  predicate IsQualified(s: string)
    decreases |s|
  {
    var n := WordLength(s);
    n > 0 && StartsWord(s[0]) && WordToken(s[..n]) == Identifier(s[..n]) && (n == |s| || (s[n] == '.' && IsQualified(s[n + 1..])))
  }

  /** A type built from qualified names, primitives, generics, tuples, arrays and
      function pointers. */
  predicate IsProper(t: TypeInfo)
    decreases t, 0
  {
    !t.isVariadicPack &&
    if t.isFunctionPointer then
      !t.isTuple && t.typeArgs == [] && AllProper(t.paramTypes) && (t.returnType.Some? ==> IsProper(t.returnType.value))
    else
      t.returnType.None? && t.paramTypes == [] && AllProper(t.typeArgs) &&
      (if t.isTuple then t.name == "tuple" else IsQualified(t.name) || (t.name in PRIMITIVES && t.typeArgs == []))
  }

  predicate AllProper(ts: seq<TypeInfo>)
    decreases ts, 0
  {
    forall i :: 0 <= i < |ts| ==> IsProper(ts[i])
  }

  /** No function pointer in it lacks its return type. */
  predicate HasResults(t: TypeInfo)
    decreases t, 0
  {
    (t.isFunctionPointer ==> t.returnType.Some? && HasResults(t.returnType.value)) &&
    AllHaveResults(if t.isFunctionPointer then t.paramTypes else t.typeArgs)
  }

  predicate AllHaveResults(ts: seq<TypeInfo>)
    decreases ts, 0
  {
    forall i :: 0 <= i < |ts| ==> HasResults(ts[i])
  }

  const VOID := Named("void", [])

  /** The type as the parser builds it: missing results are void, and function
      pointers carry their printed form as name. */
  function Normal(t: TypeInfo): TypeInfo
    decreases t, 0
  {
    if t.isFunctionPointer then
      PointerTo(if t.returnType.Some? then Normal(t.returnType.value) else VOID, AllNormal(t.paramTypes), t.arrayDepth)
    else
      t.(typeArgs := AllNormal(t.typeArgs))
  }

  function AllNormal(ts: seq<TypeInfo>): (r: seq<TypeInfo>)
    ensures |r| == |ts|
    decreases ts, 1
  {
    if ts == [] then [] else [Normal(ts[0])] + AllNormal(ts[1..])
  }

  function NameTokens(s: string): seq<Token>
    requires IsQualified(s)
    decreases |s|
  {
    var n := WordLength(s);
    [Identifier(s[..n])] + (if n == |s| then [] else [Dot]) + (if n == |s| then [] else NameTokens(s[n + 1..]))
  }

  function BracketTokens(n: nat): seq<Token> {
    if n == 0 then [] else [ArrayBrackets] + BracketTokens(n - 1)
  }

  function HeadTokens(t: TypeInfo): seq<Token> {
    if t.isTuple then [TupleKeyword]
    else if IsQualified(t.name) then NameTokens(t.name)
    else [Primitive(t.name)]
  }

  const STAR_PREFIX := [OpenParen, Star, CloseParen, OpenParen]

  function Tokens(t: TypeInfo): seq<Token>
    decreases t, 0
  {
    if t.isFunctionPointer then
      (if t.returnType.Some? then Tokens(t.returnType.value) else [Primitive("void")]) + STAR_PREFIX + ListTokens(t.paramTypes) + [CloseParen] +
      BracketTokens(t.arrayDepth)
    else
      HeadTokens(t) + AngledTokens(t.typeArgs) + BracketTokens(t.arrayDepth)
  }

  function AngledTokens(ts: seq<TypeInfo>): seq<Token>
    decreases ts, 2
  {
    if ts == [] then [] else [Less] + ListTokens(ts) + [Greater]
  }

  function ListTokens(ts: seq<TypeInfo>): seq<Token>
    decreases ts, 1
  {
    if ts == [] then []
    else if |ts| == 1 then Tokens(ts[0])
    else Tokens(ts[0]) + [Comma] + ListTokens(ts[1..])
  }

  // ------------------------------------------------------------------- lexing the text

  /** A text whose start extends no token of a type. */
  predicate Apart(rest: string) {
    rest != "" ==> !InWord(rest[0]) && rest[0] != '.' && rest[0] != '='
  }

  lemma {:induction false} WordStops(w: string, rest: string)
    requires (forall i :: 0 <= i < |w| ==> InWord(w[i])) && (rest != "" ==> !InWord(rest[0]))
    ensures WordLength(w + rest) == |w|
  {
    if w == "" {
      assert w + rest == rest;
    } else {
      assert (w + rest)[1..] == w[1..] + rest;
      WordStops(w[1..], rest);
    }
  }

  /** Lexing one text after another. */
  lemma Compose(a: string, b: string, rest: string, ta: seq<Token>, tb: seq<Token>)
    requires Lex(a + (b + rest)) == ta + Lex(b + rest) && Lex(b + rest) == tb + Lex(rest)
    ensures Lex((a + b) + rest) == (ta + tb) + Lex(rest)
  {
    hide Lex;
    assert (a + b) + rest == a + (b + rest);
    assert ta + (tb + Lex(rest)) == (ta + tb) + Lex(rest);
  }

  lemma LexWord(w: string, rest: string)
    requires w != "" && StartsWord(w[0]) && (forall i :: 0 <= i < |w| ==> InWord(w[i])) && (rest != "" ==> !InWord(rest[0]))
    ensures Lex(w + rest) == [WordToken(w)] + Lex(rest)
  {
    hide WordToken;
    WordStops(w, rest);
    LexStep(w + rest);
    assert (w + rest)[..|w|] == w && (w + rest)[|w|..] == rest;
  }

  lemma {:induction false} LexName(s: string, rest: string)
    requires IsQualified(s) && Apart(rest)
    ensures Lex(s + rest) == NameTokens(s) + Lex(rest)
    decreases |s|
  {
    hide WordToken, Lex, Scan, WordLength, IsQualified, NameTokens;
    var n := WordLength(s);
    QualifiedParts(s, n);
    NameUnfolds(s, n);
    if n == |s| {
      FirstWord(s, n, rest);
      assert s[..n] == s;
    } else {
      var more := s[n + 1..];
      NameBegins(more);
      FirstWord(s, n, "." + (more + rest));
      LexDot(more + rest);
      LexName(more, rest);
      assert s == s[..n] + "." + more;
      DotBetween(s[..n], more, rest);
    }
  }

  /** A qualified name's first part and what follows it. */
  lemma QualifiedParts(s: string, n: nat)
    requires IsQualified(s) && n == WordLength(s)
    ensures 0 < n <= |s| && StartsWord(s[0])
    ensures WordToken(s[..n]) == Identifier(s[..n])
    ensures n < |s| ==> s[n] == '.'
    ensures n < |s| ==> IsQualified(s[n + 1..])
  {
    hide WordToken, WordLength, StartsWord;
  }

  lemma NameUnfolds(s: string, n: nat)
    requires IsQualified(s) && n == WordLength(s)
    ensures n == |s| ==> NameTokens(s) == [Identifier(s[..n])]
    ensures n < |s| ==> NameTokens(s) == [Identifier(s[..n])] + [Dot] + NameTokens(s[n + 1..])
  {
    hide WordToken, WordLength, StartsWord;
  }

  lemma NameBegins(s: string)
    requires IsQualified(s)
    ensures s != "" && s[0] != '.'
  {
    hide WordToken, WordLength;
  }

  lemma FirstWord(s: string, n: nat, rest: string)
    requires n == WordLength(s) && 0 < n && StartsWord(s[0]) && WordToken(s[..n]) == Identifier(s[..n]) && (rest != "" ==> !InWord(rest[0]))
    ensures Lex(s[..n] + rest) == [Identifier(s[..n])] + Lex(rest)
  {
    hide WordToken, Lex, WordLength, StartsWord;
    LexWord(s[..n], rest);
  }

  lemma DotBetween(first: string, more: string, rest: string)
    requires IsQualified(more) && Lex(first + ("." + (more + rest))) == [Identifier(first)] + Lex("." + (more + rest))
    requires Lex("." + (more + rest)) == [Dot] + Lex(more + rest) && Lex(more + rest) == NameTokens(more) + Lex(rest)
    ensures Lex((first + "." + more) + rest) == ([Identifier(first)] + [Dot] + NameTokens(more)) + Lex(rest)
  {
    hide Lex, NameTokens, IsQualified;
    Compose(first, ".", more + rest, [Identifier(first)], [Dot]);
    Compose(first + ".", more, rest, [Identifier(first)] + [Dot], NameTokens(more));
  }

  lemma LexDot(rest: string)
    requires rest != "" && rest[0] != '.'
    ensures Lex("." + rest) == [Dot] + Lex(rest)
  {
    hide WordToken, WordLength;
    LexStep("." + rest);
    assert ("." + rest)[1..] == rest;
  }

  /** A character that is a token of its own. */
  function Single(c: char): Token {
    if c == '(' then OpenParen else if c == ')' then CloseParen else if c == ',' then Comma
    else if c == '<' then Less else if c == '>' then Greater else Star
  }

  lemma LexSingle(c: char, rest: string)
    requires c in {'(', ')', ',', '<', '>', '*'} && (rest != "" ==> rest[0] != '=')
    ensures Lex([c] + rest) == [Single(c)] + Lex(rest)
  {
    hide WordToken, WordLength;
    LexStep([c] + rest);
    assert ([c] + rest)[1..] == rest;
  }

  lemma LexPair(rest: string)
    ensures Lex("[]" + rest) == [ArrayBrackets] + Lex(rest)
  {
    hide WordToken, WordLength;
    LexStep("[]" + rest);
    assert ("[]" + rest)[2..] == rest;
  }

  lemma {:induction false} LexBrackets(n: nat, rest: string)
    requires Apart(rest)
    ensures Lex(Brackets(n) + rest) == BracketTokens(n) + Lex(rest) && Apart(Brackets(n) + rest)
  {
    hide Lex;
    if n == 0 {
      assert Brackets(0) + rest == rest;
    } else {
      LexBrackets(n - 1, rest);
      LexPair(Brackets(n - 1) + rest);
      Compose("[]", Brackets(n - 1), rest, [ArrayBrackets], BracketTokens(n - 1));
    }
  }

  lemma {:induction false} LexType(t: TypeInfo, rest: string)
    requires IsProper(t) && Apart(rest)
    ensures Lex(ToString(t) + rest) == Tokens(t) + Lex(rest)
    decreases t, 2
  {
    hide Lex, IsQualified, Brackets, BracketTokens;
    if t.isFunctionPointer {
      LexPointerType(t, rest);
    } else {
      var brackets := Brackets(t.arrayDepth);
      LexBrackets(t.arrayDepth, rest);
      LexAngled(t.typeArgs, brackets + rest);
      var head := if t.isTuple then "tuple" else t.name;
      LexHead(t, Angled(t.typeArgs) + (brackets + rest));
      Compose(head, Angled(t.typeArgs), brackets + rest, HeadTokens(t), AngledTokens(t.typeArgs));
      Compose(head + Angled(t.typeArgs), brackets, rest, HeadTokens(t) + AngledTokens(t.typeArgs), BracketTokens(t.arrayDepth));
    }
  }

  lemma {:induction false} LexPointerType(t: TypeInfo, rest: string)
    requires IsProper(t) && t.isFunctionPointer && Apart(rest)
    ensures Lex(ToString(t) + rest) == Tokens(t) + Lex(rest)
    decreases t, 1
  {
    hide Lex, IsProper, AllProper, Brackets, BracketTokens, ListText, ListTokens, ToString, Tokens;
    PointerOf(t);
    PointerString(t);
    var brackets, list := Brackets(t.arrayDepth), ListText(t.paramTypes, ", ");
    var r3 := ")" + (brackets + rest);
    LexBrackets(t.arrayDepth, rest);
    LexList(t.paramTypes, ", ", r3);
    LexResult(t, "(*)(" + (list + r3));
    PointerText(ResultText(t), ResultTokens(t), list, ListTokens(t.paramTypes), brackets, BracketTokens(t.arrayDepth), rest);
  }

  function ResultText(t: TypeInfo): string {
    if t.returnType.Some? then ToString(t.returnType.value) else "void"
  }

  function ResultTokens(t: TypeInfo): seq<Token> {
    if t.returnType.Some? then Tokens(t.returnType.value) else [Primitive("void")]
  }

  lemma {:induction false} LexResult(t: TypeInfo, rest: string)
    requires IsProper(t) && t.isFunctionPointer && Apart(rest)
    ensures Lex(ResultText(t) + rest) == ResultTokens(t) + Lex(rest)
    decreases t, 0
  {
    hide Lex, AllProper, ToString, Tokens;
    if t.returnType.Some? {
      LexType(t.returnType.value, rest);
    } else {
      VoidIsPrimitive();
      LexWord("void", rest);
    }
  }

  lemma PointerString(t: TypeInfo)
    requires t.isFunctionPointer
    ensures ToString(t) == (if t.returnType.Some? then ToString(t.returnType.value) else "void") + "(*)(" + ListText(t.paramTypes, ", ") + ")" + Brackets(t.arrayDepth)
  {
    hide ListText, Brackets;
  }

  /** The text of a function pointer, lexed part by part. */
  lemma PointerText(head: string, headTokens: seq<Token>, list: string, listTokens: seq<Token>, brackets: string, bracketTokens: seq<Token>, rest: string)
    requires var r3 := ")" + (brackets + rest);
             Lex(head + ("(*)(" + (list + r3))) == headTokens + Lex("(*)(" + (list + r3)) &&
             Lex(list + r3) == listTokens + Lex(r3) && Lex(brackets + rest) == bracketTokens + Lex(rest)
    requires brackets + rest != "" ==> (brackets + rest)[0] != '='
    requires list + (")" + (brackets + rest)) != "" ==> (list + (")" + (brackets + rest)))[0] != '='
    ensures Lex((head + "(*)(" + list + ")" + brackets) + rest) ==
            (headTokens + STAR_PREFIX + listTokens + [CloseParen] + bracketTokens) + Lex(rest)
  {
    hide Lex;
    var r4 := brackets + rest;
    var r3 := ")" + r4;
    LexSingle(')', r4);
    LexPointer(list + r3);
    Compose(head, "(*)(", list + r3, headTokens, STAR_PREFIX);
    Compose(head + "(*)(", list, r3, headTokens + STAR_PREFIX, listTokens);
    Compose(head + "(*)(" + list, ")", r4, headTokens + STAR_PREFIX + listTokens, [CloseParen]);
    Compose(head + "(*)(" + list + ")", brackets, rest, headTokens + STAR_PREFIX + listTokens + [CloseParen], bracketTokens);
  }

  lemma VoidIsPrimitive()
    ensures WordToken("void") == Primitive("void") && WordToken("tuple") == TupleKeyword
  {
  }

  lemma LexPointer(rest: string)
    requires rest != "" ==> rest[0] != '='
    ensures Lex("(*)(" + rest) == STAR_PREFIX + Lex(rest)
  {
    hide Lex;
    LexSingle('(', rest);
    LexSingle(')', "(" + rest);
    LexSingle('*', ")" + ("(" + rest));
    LexSingle('(', "*" + (")" + ("(" + rest)));
    assert "(*)(" + rest == "(" + ("*" + (")" + ("(" + rest)));
  }

  lemma LexHead(t: TypeInfo, rest: string)
    requires IsProper(t) && !t.isFunctionPointer && Apart(rest)
    ensures Lex((if t.isTuple then "tuple" else t.name) + rest) == HeadTokens(t) + Lex(rest)
  {
    hide Lex;
    if t.isTuple {
      VoidIsPrimitive();
      LexWord("tuple", rest);
    } else if IsQualified(t.name) {
      LexName(t.name, rest);
    } else {
      PrimitivesAreWords(t.name);
      LexWord(t.name, rest);
    }
  }

  lemma PrimitivesAreWords(w: string)
    requires w in PRIMITIVES
    ensures w != "" && StartsWord(w[0]) && (forall i :: 0 <= i < |w| ==> InWord(w[i])) && WordToken(w) == Primitive(w)
  {
  }

  lemma {:induction false} LexAngled(ts: seq<TypeInfo>, rest: string)
    requires AllProper(ts) && Apart(rest)
    ensures Lex(Angled(ts) + rest) == AngledTokens(ts) + Lex(rest) && Apart(Angled(ts) + rest)
    decreases ts, 2
  {
    hide Lex, IsQualified, ListText, ListTokens;
    if ts == [] {
      assert Angled(ts) + rest == rest;
    } else {
      var list := ListText(ts, ",");
      LexSingle('>', rest);
      LexList(ts, ",", ">" + rest);
      LexSingle('<', list + (">" + rest));
      Compose("<", list, ">" + rest, [Less], ListTokens(ts));
      Compose("<" + list, ">", rest, [Less] + ListTokens(ts), [Greater]);
    }
  }

  /** The printed form of a type begins with a letter or an underscore. */
  lemma {:induction false} TextStarts(t: TypeInfo)
    requires IsProper(t)
    ensures ToString(t) != "" && StartsWord(ToString(t)[0])
    decreases t, 0
  {
    if t.isFunctionPointer {
      if t.returnType.Some? { TextStarts(t.returnType.value); }
    } else if !t.isTuple && t.name in PRIMITIVES {
      PrimitivesAreWords(t.name);
    }
  }

  lemma ListTextStarts(ts: seq<TypeInfo>, separator: string)
    requires AllProper(ts) && ts != []
    ensures ListText(ts, separator) != "" && StartsWord(ListText(ts, separator)[0])
  {
    TextStarts(ts[0]);
  }

  lemma {:induction false} LexList(ts: seq<TypeInfo>, separator: string, rest: string)
    requires AllProper(ts) && Apart(rest) && separator in {",", ", "}
    ensures Lex(ListText(ts, separator) + rest) == ListTokens(ts) + Lex(rest)
    ensures ListText(ts, separator) + rest != "" ==> (ListText(ts, separator) + rest)[0] != '='
    decreases ts, 1
  {
    hide Lex, IsQualified, ToString, Tokens;
    if ts == [] {
      assert ListText(ts, separator) + rest == rest;
    } else {
      ListTextStarts(ts, separator);
      if |ts| == 1 {
        LexType(ts[0], rest);
      } else {
        var more := ListText(ts[1..], separator);
        LexList(ts[1..], separator, rest);
        ListTextStarts(ts[1..], separator);
        LexSeparator(separator, more + rest);
        LexType(ts[0], separator + (more + rest));
        Compose(ToString(ts[0]), separator, more + rest, Tokens(ts[0]), [Comma]);
        Compose(ToString(ts[0]) + separator, more, rest, Tokens(ts[0]) + [Comma], ListTokens(ts[1..]));
      }
    }
  }

  lemma LexSeparator(separator: string, more: string)
    requires separator in {",", ", "} && more != "" && more[0] != '='
    ensures Lex(separator + more) == [Comma] + Lex(more) && Apart(separator + more)
  {
    hide WordToken, WordLength, Scan, Lex;
    if separator == "," {
      LexSingle(',', more);
    } else {
      LexStep(" " + more);
      assert (" " + more)[1..] == more;
      assert ", " + more == "," + (" " + more);
      LexSingle(',', " " + more);
    }
  }

  // --------------------------------------------------------------- parsing the tokens

  predicate At(tokens: seq<Token>, p: nat, part: seq<Token>) {
    p + |part| < |tokens| && tokens[p..p + |part|] == part
  }

  lemma AtSplit(tokens: seq<Token>, p: nat, a: seq<Token>, b: seq<Token>)
    requires At(tokens, p, a + b)
    ensures At(tokens, p, a) && At(tokens, p + |a|, b) && p + |a| + |b| < |tokens|
  {
    assert tokens[p..p + |a + b|][..|a|] == tokens[p..p + |a|];
    assert tokens[p..p + |a + b|][|a|..] == tokens[p + |a|..p + |a| + |b|];
  }

  /** What comes before the end leaves another token. */
  lemma NotLast(tokens: seq<Token>, p: nat)
    requires Ended(tokens) && p < |tokens| && tokens[p] != Eof
    ensures p < |tokens| - 1
  {
  }

  lemma AtInside(tokens: seq<Token>, p: nat, part: seq<Token>)
    requires At(tokens, p, part)
    ensures p + |part| < |tokens|
  {
  }

  lemma AtFirst(tokens: seq<Token>, p: nat, part: seq<Token>)
    requires At(tokens, p, part) && part != []
    ensures p + |part| < |tokens| && tokens[p] == part[0]
  {
    assert tokens[p..p + |part|][0] == tokens[p];
  }

  /** A token that extends no type but by a pointer suffix. */
  predicate EndsBase(t: Token) {
    t !in {Less, Dot, DoubleColon, ArrayBrackets, OpenBracket}
  }

  /** A token that extends no type. */
  predicate EndsType(t: Token) {
    EndsBase(t) && t != OpenParen
  }

  lemma {:induction false} DimensionsOf(tokens: seq<Token>, p: nat, n: nat)
    requires Ended(tokens) && At(tokens, p, BracketTokens(n)) && EndsBase(tokens[p + |BracketTokens(n)|])
    ensures Dimensions(tokens, p) == (n, p + |BracketTokens(n)|)
    decreases n
  {
    if n != 0 {
      AtFirst(tokens, p, BracketTokens(n));
      AtSplit(tokens, p, [ArrayBrackets], BracketTokens(n - 1));
      DimensionsOf(tokens, p + 1, n - 1);
    }
  }

  lemma {:induction false} PathOf(tokens: seq<Token>, p: nat, prefix: string, s: string)
    requires Ended(tokens) && IsQualified(s) && At(tokens, p, NameTokens(s))
    requires tokens[p + |NameTokens(s)|] != Dot && tokens[p + |NameTokens(s)|] != DoubleColon
    ensures QualifiedPath(tokens, prefix + s[..WordLength(s)], p + 1) == ParsedName(prefix + s, p + |NameTokens(s)|)
    ensures tokens[p] == Identifier(s[..WordLength(s)])
    decreases |s|
  {
    hide At, WordLength, Ended, QualifiedPath, NameTokens, IsQualified;
    var n := WordLength(s);
    NameParts(tokens, p, s);
    AtFits(tokens, p, NameTokens(s));
    if n == |s| {
      assert s[..n] == s;
      PathEnd(tokens, p + 1, prefix + s);
    } else {
      var more := s[n + 1..];
      PathOf(tokens, p + 2, prefix + s[..n] + ".", more);
      PathStep(tokens, p + 1, prefix + s[..n], more[..WordLength(more)]);
      PathText(prefix, s, n);
    }
  }

  lemma NameParts(tokens: seq<Token>, p: nat, s: string)
    requires IsQualified(s) && At(tokens, p, NameTokens(s))
    ensures tokens[p] == Identifier(s[..WordLength(s)]) && 0 < WordLength(s)
    ensures if WordLength(s) == |s| then |NameTokens(s)| == 1
            else var more := s[WordLength(s) + 1..];
                 s[WordLength(s)] == '.' && IsQualified(more) && |NameTokens(s)| == 2 + |NameTokens(more)| && tokens[p + 1] == Dot && At(tokens, p + 2, NameTokens(more))
  {
    hide At, WordToken, WordLength;
    var n := WordLength(s);
    AtFirst(tokens, p, NameTokens(s));
    if n != |s| {
      var more := s[n + 1..];
      assert NameTokens(s) == [Identifier(s[..n])] + [Dot] + NameTokens(more);
      AtSplit(tokens, p, [Identifier(s[..n])] + [Dot], NameTokens(more));
      AtSplit(tokens, p, [Identifier(s[..n])], [Dot]);
      AtFirst(tokens, p + 1, [Dot]);
    }
  }

  lemma PathEnd(tokens: seq<Token>, p: nat, name: string)
    requires Ended(tokens) && p < |tokens| && tokens[p] != Dot && tokens[p] != DoubleColon
    ensures QualifiedPath(tokens, name, p) == ParsedName(name, p)
  {
  }

  lemma PathStep(tokens: seq<Token>, p: nat, name: string, word: string)
    requires Ended(tokens) && p + 2 < |tokens| && tokens[p] == Dot && tokens[p + 1] == Identifier(word)
    ensures QualifiedPath(tokens, name, p) == QualifiedPath(tokens, name + "." + word, p + 2)
  {
  }

  lemma PathText(prefix: string, s: string, n: nat)
    requires n < |s| && s[n] == '.'
    ensures prefix + s[..n] + "." + s[n + 1..] == prefix + s
  {
    assert s == s[..n] + "." + s[n + 1..];
  }

  /** What the tokens of a type begin with. */
  lemma {:induction false} FirstToken(t: TypeInfo)
    requires IsProper(t)
    ensures Tokens(t) != [] && (Tokens(t)[0].Identifier? || Tokens(t)[0].Primitive? || Tokens(t)[0].TupleKeyword?)
    decreases t
  {
    if t.isFunctionPointer && t.returnType.Some? { FirstToken(t.returnType.value); }
  }

  /** Parsing the tokens of a type arrives at its pointer suffixes. */
  lemma {:induction false} ParseType(tokens: seq<Token>, p: nat, t: TypeInfo)
    requires Ended(tokens) && IsProper(t) && At(tokens, p, Tokens(t)) && EndsBase(tokens[p + |Tokens(t)|])
    ensures tokens[p] != Eof && Parse(tokens, p) == Suffixes(tokens, Normal(t), p + |Tokens(t)|)
    decreases t, 3
  {
    hide Parse, Suffixes, Normal, IsQualified;
    FirstToken(t);
    AtFirst(tokens, p, Tokens(t));
    if t.isFunctionPointer {
      ParsePointerType(tokens, p, t);
    } else {
      ParsePlainType(tokens, p, t);
    }
  }

  lemma {:induction false} ParsePlainType(tokens: seq<Token>, p: nat, t: TypeInfo)
    requires Ended(tokens) && IsProper(t) && !t.isFunctionPointer && At(tokens, p, Tokens(t)) && EndsBase(tokens[p + |Tokens(t)|])
    requires tokens[p] != Eof
    ensures Parse(tokens, p) == Suffixes(tokens, Normal(t), p + |Tokens(t)|)
    decreases t, 2
  {
    hide Suffixes, IsQualified, BracketTokens, Dimensions, At, AllProper, HeadTokens, AngledTokens, Parse, Normal;
    var front := HeadTokens(t) + AngledTokens(t.typeArgs);
    AtSplit(tokens, p, front, BracketTokens(t.arrayDepth));
    DimensionsOf(tokens, p + |front|, t.arrayDepth);
    BracketsOrEnd(tokens, p + |front|, t.arrayDepth);
    ParseFront(tokens, p, t);
    NormalDepth(t);
  }

  lemma NormalDepth(t: TypeInfo)
    requires !t.isFunctionPointer
    ensures Normal(t).(arrayDepth := 0).(arrayDepth := t.arrayDepth) == Normal(t)
  {
  }

  /** A type up to its brackets. */
  lemma {:induction false} ParseFront(tokens: seq<Token>, p: nat, t: TypeInfo)
    requires Ended(tokens) && IsProper(t) && !t.isFunctionPointer && At(tokens, p, HeadTokens(t) + AngledTokens(t.typeArgs))
    requires tokens[p + |HeadTokens(t) + AngledTokens(t.typeArgs)|] !in {Less, Dot, DoubleColon} && tokens[p] != Eof
    ensures Parse(tokens, p) == Tail(tokens, Normal(t).(arrayDepth := 0), p + |HeadTokens(t) + AngledTokens(t.typeArgs)|)
    decreases t, 1
  {
    hide IsQualified, NameTokens, QualifiedPath, TypeArguments, At, AllProper, HeadTokens, Tail;
    var head, args := HeadTokens(t), AngledTokens(t.typeArgs);
    AtSplit(tokens, p, head, args);
    ArgumentsOf(tokens, p + |head|, t.typeArgs);
    HeadOf(tokens, p, t);
  }

  /** Brackets, or the token behind them, extend no name. */
  lemma BracketsOrEnd(tokens: seq<Token>, p: nat, n: nat)
    requires At(tokens, p, BracketTokens(n)) && EndsBase(tokens[p + |BracketTokens(n)|])
    ensures tokens[p] !in {Less, Dot, DoubleColon}
  {
    if n != 0 { AtFirst(tokens, p, BracketTokens(n)); }
  }

  lemma NameStarts(t: TypeInfo)
    ensures HeadTokens(t) != []
  {
  }

  lemma HeadOf(tokens: seq<Token>, p: nat, t: TypeInfo)
    requires Ended(tokens) && IsProper(t) && !t.isFunctionPointer && At(tokens, p, HeadTokens(t))
    requires tokens[p + |HeadTokens(t)|] != Dot && tokens[p + |HeadTokens(t)|] != DoubleColon
    ensures if t.isTuple then tokens[p] == TupleKeyword && |HeadTokens(t)| == 1
            else if IsQualified(t.name) then tokens[p].Identifier? && QualifiedPath(tokens, tokens[p].text, p + 1) == ParsedName(t.name, p + |HeadTokens(t)|)
            else tokens[p] == Primitive(t.name) && |HeadTokens(t)| == 1 && t.typeArgs == []
  {
    hide At, WordToken, QualifiedPath, NameTokens, WordLength, AllProper;
    NameStarts(t);
    AtFirst(tokens, p, HeadTokens(t));
    if !t.isTuple && IsQualified(t.name) {
      PathOf(tokens, p, "", t.name);
      assert "" + t.name == t.name && "" + t.name[..WordLength(t.name)] == t.name[..WordLength(t.name)];
    }
  }

  lemma {:induction false} ArgumentsOf(tokens: seq<Token>, p: nat, ts: seq<TypeInfo>)
    requires Ended(tokens) && AllProper(ts) && At(tokens, p, AngledTokens(ts)) && (ts == [] ==> tokens[p] != Less)
    ensures TypeArguments(tokens, p) == ParsedList(AllNormal(ts), p + |AngledTokens(ts)|)
    ensures tokens[p + |AngledTokens(ts)|] !in {Dot, DoubleColon} ==> tokens[p] !in {Dot, DoubleColon}
    decreases ts, 2
  {
    hide IsProper, ListTokens, ParseList, AllNormal;
    if ts != [] {
      AtFirst(tokens, p, AngledTokens(ts));
      AtSplit(tokens, p, [Less] + ListTokens(ts), [Greater]);
      AtSplit(tokens, p, [Less], ListTokens(ts));
      var q := p + 1 + |ListTokens(ts)|;
      AtFirst(tokens, q, [Greater]);
      ListOf(tokens, p + 1, [], ts);
      assert [] + AllNormal(ts) == AllNormal(ts);
    } else {
      NoneNormal();
    }
  }

  lemma NoTokens()
    ensures ListTokens([]) == []
  {
  }

  lemma NoneNormal()
    ensures AllNormal([]) == []
  {
  }

  lemma AllNormalStep(ts: seq<TypeInfo>)
    requires ts != []
    ensures AllNormal(ts) == [Normal(ts[0])] + AllNormal(ts[1..])
  {
  }

  lemma {:induction false} ListOf(tokens: seq<Token>, p: nat, done: seq<TypeInfo>, ts: seq<TypeInfo>)
    requires Ended(tokens) && p > 0 && ts != [] && AllProper(ts) && At(tokens, p, ListTokens(ts))
    requires tokens[p + |ListTokens(ts)|] == Greater || tokens[p + |ListTokens(ts)|] == CloseParen
    ensures ParseList(tokens, done, p) == ParsedList(done + AllNormal(ts), p + |ListTokens(ts)|)
    ensures tokens[p] != CloseParen
    decreases ts, 1
  {
    hide IsProper, Parse, Tokens, Normal, At, AllNormal, ParseList, ListTokens, Suffixes;
    FirstToken(ts[0]);
    ListTokensStep(ts);
    AtFirst(tokens, p, ListTokens(ts));
    AllNormalStep(ts);
    var first := Tokens(ts[0]);
    if |ts| == 1 {
      NoneNormal();
      AtInside(tokens, p, first);
      NotLast(tokens, p + |first|);
      ListItem(tokens, p, p + |first|, done, ts[0]);
    } else {
      CommaBehind(tokens, p, first, ListTokens(ts[1..]));
      ListItem(tokens, p, p + |first|, done, ts[0]);
      ListOf(tokens, p + |first| + 1, done + [Normal(ts[0])], ts[1..]);
      Regrouped(done, Normal(ts[0]), AllNormal(ts[1..]));
    }
  }

  lemma CommaBehind(tokens: seq<Token>, p: nat, first: seq<Token>, more: seq<Token>)
    requires Ended(tokens) && At(tokens, p, first + [Comma] + more)
    ensures At(tokens, p, first) && tokens[p + |first|] == Comma && p + |first| < |tokens| - 1 && At(tokens, p + |first| + 1, more)
  {
    hide At;
    AtSplit(tokens, p, first + [Comma], more);
    AtSplit(tokens, p, first, [Comma]);
    AtFirst(tokens, p + |first|, [Comma]);
    NotLast(tokens, p + |first|);
  }

  lemma Regrouped<T>(a: seq<T>, x: T, b: seq<T>)
    ensures a + [x] + b == a + ([x] + b)
  {
  }

  /** One item of a list. */
  lemma {:induction false} ListItem(tokens: seq<Token>, p: nat, next: nat, done: seq<TypeInfo>, t: TypeInfo)
    requires Ended(tokens) && 0 < p <= next < |tokens| - 1 && IsProper(t) && At(tokens, p, Tokens(t)) && next == p + |Tokens(t)|
    requires tokens[next] == Comma || tokens[next] == Greater || tokens[next] == CloseParen
    ensures ParseList(tokens, done, p) ==
            if tokens[next] == Comma then ParseList(tokens, done + [Normal(t)], next + 1) else ParsedList(done + [Normal(t)], next)
    decreases t, 4
  {
    hide IsProper, Parse, Tokens, Normal, At, ParseList, Suffixes;
    ParseType(tokens, p, t);
    NothingFollows(tokens, Normal(t), next);
    ParseListStep(tokens, done, p);
  }

  lemma ListTokensStep(ts: seq<TypeInfo>)
    requires ts != []
    ensures ListTokens(ts) == if |ts| == 1 then Tokens(ts[0]) else Tokens(ts[0]) + [Comma] + ListTokens(ts[1..])
  {
    hide Tokens;
  }

  lemma ParseListStep(tokens: seq<Token>, done: seq<TypeInfo>, p: nat)
    requires Ended(tokens) && 0 < p < |tokens| && Parse(tokens, p).Parsed?
    ensures var first := Parse(tokens, p);
            ParseList(tokens, done, p) ==
              if tokens[first.next] == Comma then ParseList(tokens, done + [first.result], first.next + 1)
              else ParsedList(done + [first.result], first.next)
  {
    hide Parse;
  }

  /** A comma or a closing bracket is no suffix. */
  lemma NothingFollows(tokens: seq<Token>, t: TypeInfo, p: nat)
    requires Ended(tokens) && p < |tokens| && (tokens[p] == Comma || tokens[p] == Greater || tokens[p] == CloseParen)
    ensures Suffixes(tokens, t, p) == Parsed(t, p)
  {
  }

  lemma {:induction false} ParsePointerType(tokens: seq<Token>, p: nat, t: TypeInfo)
    requires Ended(tokens) && IsProper(t) && t.isFunctionPointer && At(tokens, p, Tokens(t)) && EndsBase(tokens[p + |Tokens(t)|])
    requires tokens[p] != Eof
    ensures Parse(tokens, p) == Suffixes(tokens, Normal(t), p + |Tokens(t)|)
    decreases t, 2
  {
    hide Parse, Suffixes, At, Ended, Normal, AllProper, BracketTokens, ListTokens, IsProper, Tokens;
    PointerOf(t);
    var result := if t.returnType.Some? then Tokens(t.returnType.value) else [Primitive("void")];
    PointerParts(tokens, p, result, ListTokens(t.paramTypes), BracketTokens(t.arrayDepth));
    var p1 := p + |result|;
    PointerAt(tokens, p1);
    if t.returnType.Some? {
      ParseType(tokens, p, t.returnType.value);
      SuffixOf(tokens, p1, Normal(t.returnType.value), t);
    } else {
      AtFirst(tokens, p, result);
      ParseVoid(tokens, p);
      SuffixOf(tokens, p1, VOID, t);
    }
  }

  /** What a function pointer is made of. */
  lemma PointerOf(t: TypeInfo)
    requires IsProper(t) && t.isFunctionPointer
    ensures AllProper(t.paramTypes) && (t.returnType.Some? ==> IsProper(t.returnType.value))
    ensures Tokens(t) == (if t.returnType.Some? then Tokens(t.returnType.value) else [Primitive("void")]) + STAR_PREFIX + ListTokens(t.paramTypes) + [CloseParen] + BracketTokens(t.arrayDepth)
    ensures Normal(t) == PointerTo(if t.returnType.Some? then Normal(t.returnType.value) else VOID, AllNormal(t.paramTypes), t.arrayDepth)
  {
    hide AllProper, AllNormal, ListTokens, BracketTokens;
  }

  lemma PointerParts(tokens: seq<Token>, p: nat, result: seq<Token>, list: seq<Token>, brackets: seq<Token>)
    requires At(tokens, p, result + STAR_PREFIX + list + [CloseParen] + brackets)
    ensures At(tokens, p, result) && At(tokens, p + |result|, STAR_PREFIX) && At(tokens, p + |result| + 4, list)
    ensures At(tokens, p + |result| + 4 + |list|, [CloseParen]) && At(tokens, p + |result| + 5 + |list|, brackets)
  {
    hide At;
    AtSplit(tokens, p, result + STAR_PREFIX + list + [CloseParen], brackets);
    AtSplit(tokens, p, result + STAR_PREFIX + list, [CloseParen]);
    AtSplit(tokens, p, result + STAR_PREFIX, list);
    AtSplit(tokens, p, result, STAR_PREFIX);
  }

  /** One function-pointer suffix, from its first parenthesis to its brackets. */
  lemma {:induction false} SuffixOf(tokens: seq<Token>, p: nat, base: TypeInfo, t: TypeInfo)
    requires Ended(tokens) && AllProper(t.paramTypes) && At(tokens, p, STAR_PREFIX) && At(tokens, p + 4, ListTokens(t.paramTypes))
    requires At(tokens, p + 4 + |ListTokens(t.paramTypes)|, [CloseParen])
    requires At(tokens, p + 5 + |ListTokens(t.paramTypes)|, BracketTokens(t.arrayDepth))
    requires EndsBase(tokens[p + 5 + |ListTokens(t.paramTypes)| + |BracketTokens(t.arrayDepth)|])
    ensures Suffixes(tokens, base, p)
            == Suffixes(tokens, PointerTo(base, AllNormal(t.paramTypes), t.arrayDepth), p + 5 + |ListTokens(t.paramTypes)| + |BracketTokens(t.arrayDepth)|)
    decreases t, 0
  {
    hide Suffixes, At, Ended, PointerTo, AllNormal, AllProper, BracketTokens, ListTokens, Dimensions, Parameters, IsPointerSuffix;
    var list, brackets := ListTokens(t.paramTypes), BracketTokens(t.arrayDepth);
    PointerAt(tokens, p);
    var q := p + 4 + |list|;
    AtFirst(tokens, q, [CloseParen]);
    AtFits(tokens, q + 1, brackets);
    ParametersOf(tokens, p + 4, t.paramTypes);
    DimensionsOf(tokens, q + 1, t.arrayDepth);
    OneSuffix(tokens, base, p, AllNormal(t.paramTypes), q + 1, t.arrayDepth, q + 1 + |brackets|);
  }

  lemma AtFits(tokens: seq<Token>, p: nat, part: seq<Token>)
    requires At(tokens, p, part)
    ensures p + |part| < |tokens|
  {
  }

  lemma PointerAt(tokens: seq<Token>, p: nat)
    requires At(tokens, p, STAR_PREFIX)
    ensures IsPointerSuffix(tokens, p) && tokens[p + 3] == OpenParen
  {
    var part := tokens[p..p + 4];
    assert part[0] == tokens[p] && part[1] == tokens[p + 1] && part[2] == tokens[p + 2] && part[3] == tokens[p + 3];
  }

  lemma ParseVoid(tokens: seq<Token>, p: nat)
    requires Ended(tokens) && p + 1 < |tokens| && tokens[p] == Primitive("void") && tokens[p + 1] == OpenParen
    ensures Parse(tokens, p) == Suffixes(tokens, VOID, p + 1)
  {
    hide Suffixes;
  }

  lemma OneSuffix(tokens: seq<Token>, t: TypeInfo, p: nat, parameters: seq<TypeInfo>, q: nat, depth: nat, r: nat)
    requires Ended(tokens) && p + 4 < |tokens| && IsPointerSuffix(tokens, p) && tokens[p + 3] == OpenParen
    requires Parameters(tokens, p + 4) == ParsedList(parameters, q) && q < |tokens| && Dimensions(tokens, q) == (depth, r)
    ensures r < |tokens| && Suffixes(tokens, t, p) == Suffixes(tokens, PointerTo(t, parameters, depth), r)
  {
    hide Parameters, Dimensions, PointerTo;
  }

  lemma {:induction false} ParametersOf(tokens: seq<Token>, p: nat, ts: seq<TypeInfo>)
    requires Ended(tokens) && p > 0 && AllProper(ts) && At(tokens, p, ListTokens(ts))
    requires tokens[p + |ListTokens(ts)|] == CloseParen && p + |ListTokens(ts)| + 1 < |tokens|
    ensures Parameters(tokens, p) == ParsedList(AllNormal(ts), p + |ListTokens(ts)| + 1)
    decreases ts, 2
  {
    hide IsProper, ParseList, At, AllNormal, ListTokens, AllProper, Ended;
    NoneNormal();
    AtFits(tokens, p, ListTokens(ts));
    if ts == [] {
      NoTokens();
    } else {
      ListOf(tokens, p, [], ts);
      assert [] + AllNormal(ts) == AllNormal(ts);
    }
  }

  // ------------------------------------------------------------------------ round trip

  /** Parsing the tokens of a type, followed by one that extends no type, consumes
      exactly those tokens and builds the normal form. */
  lemma ParsesBack(tokens: seq<Token>, p: nat, t: TypeInfo)
    requires Ended(tokens) && IsProper(t) && At(tokens, p, Tokens(t)) && EndsType(tokens[p + |Tokens(t)|])
    ensures tokens[p] != Eof && Parse(tokens, p) == Parsed(Normal(t), p + |Tokens(t)|)
  {
    hide IsProper, Parse, Tokens, Normal;
    ParseType(tokens, p, t);
  }

  /** Printing, lexing and parsing. */
  lemma RoundTrip(t: TypeInfo)
    requires IsProper(t)
    ensures Lex(ToString(t)) == Tokens(t) + [Eof]
    ensures Lex(ToString(t))[0] != Eof && Parse(Lex(ToString(t)), 0) == Parsed(Normal(t), |Tokens(t)|)
    ensures Same(Normal(t), t) <==> HasResults(t)
  {
    hide IsProper, Parse, Tokens, Normal, ToString, Same, HasResults, Lex;
    LexType(t, "");
    assert ToString(t) + "" == ToString(t);
    LexStep("");
    var tokens := Tokens(t) + [Eof];
    assert tokens[0..|Tokens(t)|] == Tokens(t);
    ParsesBack(tokens, 0, t);
    NormalIsSame(t);
  }

  /** The normal form is the same type exactly when no function pointer lacks its
      return type. */
  lemma {:induction false} NormalIsSame(t: TypeInfo)
    requires IsProper(t)
    ensures Same(Normal(t), t) <==> HasResults(t)
    decreases t
  {
    hide IsQualified, ToString;
    if t.isFunctionPointer {
      if t.returnType.Some? { NormalIsSame(t.returnType.value); }
      AllNormalSame(t.paramTypes);
    } else {
      AllNormalSame(t.typeArgs);
    }
  }

  lemma {:induction false} AllNormalSame(ts: seq<TypeInfo>)
    requires AllProper(ts)
    ensures AllSame(AllNormal(ts), ts) <==> AllHaveResults(ts)
    decreases ts
  {
    hide IsProper, Same, HasResults, Normal;
    forall i | 0 <= i < |ts| ensures AllNormal(ts)[i] == Normal(ts[i]) && (Same(Normal(ts[i]), ts[i]) <==> HasResults(ts[i])) {
      AllNormalAt(ts, i);
      NormalIsSame(ts[i]);
    }
    if AllSame(AllNormal(ts), ts) {
      forall i | 0 <= i < |ts| ensures HasResults(ts[i]) { assert Same(AllNormal(ts)[i], ts[i]); }
    }
  }

  lemma {:induction false} AllNormalAt(ts: seq<TypeInfo>, i: nat)
    requires i < |ts|
    ensures AllNormal(ts)[i] == Normal(ts[i])
    decreases ts
  {
    hide Normal;
    if i > 0 { AllNormalAt(ts[1..], i - 1); }
  }

  // ------------------------------------------------------------- equality and the text

  lemma {:induction false} SameSymmetric(a: TypeInfo, b: TypeInfo)
    requires Same(a, b)
    ensures Same(b, a)
    decreases a
  {
    if a.isFunctionPointer {
      if a.returnType.Some? { SameSymmetric(a.returnType.value, b.returnType.value); }
      forall i | 0 <= i < |a.paramTypes| ensures Same(b.paramTypes[i], a.paramTypes[i]) { SameSymmetric(a.paramTypes[i], b.paramTypes[i]); }
    } else {
      forall i | 0 <= i < |a.typeArgs| ensures Same(b.typeArgs[i], a.typeArgs[i]) { SameSymmetric(a.typeArgs[i], b.typeArgs[i]); }
    }
  }

  lemma {:induction false} SameTransitive(a: TypeInfo, b: TypeInfo, c: TypeInfo)
    requires Same(a, b) && Same(b, c)
    ensures Same(a, c)
    decreases a
  {
    if a.isFunctionPointer {
      if a.returnType.Some? { SameTransitive(a.returnType.value, b.returnType.value, c.returnType.value); }
      forall i | 0 <= i < |a.paramTypes| ensures Same(a.paramTypes[i], c.paramTypes[i]) {
        SameTransitive(a.paramTypes[i], b.paramTypes[i], c.paramTypes[i]);
      }
    } else {
      forall i | 0 <= i < |a.typeArgs| ensures Same(a.typeArgs[i], c.typeArgs[i]) { SameTransitive(a.typeArgs[i], b.typeArgs[i], c.typeArgs[i]); }
    }
  }

  lemma {:induction false} SamePrintsAlike(a: TypeInfo, b: TypeInfo)
    requires Same(a, b)
    ensures ToString(a) == ToString(b)
    decreases a, 1
  {
    if a.isFunctionPointer {
      if a.returnType.Some? { SamePrintsAlike(a.returnType.value, b.returnType.value); }
      AllPrintAlike(a.paramTypes, b.paramTypes, ", ");
    } else {
      AllPrintAlike(a.typeArgs, b.typeArgs, ",");
    }
  }

  lemma {:induction false} AllPrintAlike(a: seq<TypeInfo>, b: seq<TypeInfo>, separator: string)
    requires AllSame(a, b)
    ensures ListText(a, separator) == ListText(b, separator)
    decreases a, 0
  {
    hide Same, ToString;
    if a != [] {
      SamePrintsAlike(a[0], b[0]);
      AllPrintAlike(a[1..], b[1..], separator);
    }
  }

  /** Types are equal exactly when they print alike, unless a function pointer in them lacks
      its return type. */
  lemma EqualExactlyWhenPrintedAlike(a: TypeInfo, b: TypeInfo)
    requires IsProper(a) && IsProper(b) && HasResults(a) && HasResults(b)
    ensures Same(a, b) <==> ToString(a) == ToString(b)
  {
    hide IsProper, Parse, Tokens, Normal, ToString, Same, HasResults, Lex;
    if Same(a, b) { SamePrintsAlike(a, b); }
    if ToString(a) == ToString(b) {
      RoundTrip(a);
      RoundTrip(b);
      SameSymmetric(Normal(a), a);
      SameTransitive(a, Normal(a), b);
    }
  }
}
