/** The recursive-descent parser for types. */
module TypeParser {
  import opened Options
  import opened TypeSyntax

  /** Token lists end in EOF. */
  predicate Ended(tokens: seq<Token>) {
    tokens != [] && tokens[|tokens| - 1] == Eof
  }

  datatype Parsed = Parsed(result: TypeInfo, next: nat) | Failed

  datatype ParsedList = ParsedList(results: seq<TypeInfo>, next: nat) | ListFailed

  datatype ParsedName = ParsedName(name: string, next: nat) | NameFailed

  function Named(name: string, args: seq<TypeInfo>): TypeInfo {
    TypeInfo(name, 0, args, false, None, [], false, false)
  }

  function TupleOf(args: seq<TypeInfo>): TypeInfo {
    TypeInfo("tuple", 0, args, false, None, [], true, false)
  }

  /** A function pointer, named by its own printed form. */
  function PointerTo(result: TypeInfo, parameters: seq<TypeInfo>, depth: nat): TypeInfo {
    var fp := TypeInfo("", depth, [], true, Some(result), parameters, false, false);
    fp.(name := ToString(fp))
  }

  // ------------------------------------------------------------- what is to be parsed

  /** Runs of `[]`, as one token or as two. */
  function Dimensions(tokens: seq<Token>, p: nat): (r: (nat, nat))
    requires Ended(tokens) && p < |tokens|
    ensures p <= r.1 < |tokens|
    decreases |tokens| - p
  {
    if tokens[p] == ArrayBrackets then
      var d := Dimensions(tokens, p + 1);
      (d.0 + 1, d.1)
    else SplitDimensions(tokens, p)
  }

  function SplitDimensions(tokens: seq<Token>, p: nat): (r: (nat, nat))
    requires Ended(tokens) && p < |tokens|
    ensures p <= r.1 < |tokens|
    decreases |tokens| - p
  {
    if tokens[p] == OpenBracket && tokens[p + 1] == CloseBracket then
      var d := SplitDimensions(tokens, p + 2);
      (d.0 + 1, d.1)
    else (0, p)
  }

  function QualifiedPath(tokens: seq<Token>, name: string, p: nat): (r: ParsedName)
    requires Ended(tokens) && p < |tokens|
    ensures r.ParsedName? ==> p <= r.next < |tokens|
    decreases |tokens| - p
  {
    if tokens[p] != Dot && tokens[p] != DoubleColon then ParsedName(name, p)
    else if !tokens[p + 1].Identifier? then NameFailed
    else QualifiedPath(tokens, name + "." + tokens[p + 1].text, p + 2)
  }

  /** A type starting at pos.  At the end of the list the parser looks at the token
      before it again. */
  function Parse(tokens: seq<Token>, pos: nat): (r: Parsed)
    requires Ended(tokens) && pos < |tokens| && (tokens[pos] == Eof ==> pos > 0)
    ensures r.Parsed? ==> pos <= r.next < |tokens|
    decreases |tokens| - pos, 2
  {
    var p := if tokens[pos] == Eof then pos else pos + 1;
    match tokens[p - 1]
    case Primitive(name) => Tail(tokens, Named(name, []), p)
    case TupleKeyword =>
      var args := TypeArguments(tokens, p);
      if args.ListFailed? then Failed else Tail(tokens, TupleOf(args.results), args.next)
    case Identifier(text) =>
      var name := QualifiedPath(tokens, text, p);
      if name.NameFailed? then Failed
      else
        var args := TypeArguments(tokens, name.next);
        if args.ListFailed? then Failed else Tail(tokens, Named(name.name, args.results), args.next)
    case _ => Failed
  }

  function TypeArguments(tokens: seq<Token>, p: nat): (r: ParsedList)
    requires Ended(tokens) && p < |tokens|
    ensures r.ParsedList? ==> p <= r.next < |tokens|
    decreases |tokens| - p, 1
  {
    if tokens[p] != Less then ParsedList([], p)
    else
      var list := ParseList(tokens, [], p + 1);
      if list.ListFailed? || tokens[list.next] != Greater then ListFailed else ParsedList(list.results, list.next + 1)
  }

  /** One or more types, separated by commas. */
  function ParseList(tokens: seq<Token>, done: seq<TypeInfo>, p: nat): (r: ParsedList)
    requires Ended(tokens) && 0 < p < |tokens|
    ensures r.ParsedList? ==> p <= r.next < |tokens|
    decreases |tokens| - p, 3
  {
    var first := Parse(tokens, p);
    if first.Failed? then ListFailed
    else if tokens[first.next] == Comma then ParseList(tokens, done + [first.result], first.next + 1)
    else ParsedList(done + [first.result], first.next)
  }

  function Tail(tokens: seq<Token>, t: TypeInfo, p: nat): (r: Parsed)
    requires Ended(tokens) && p < |tokens|
    ensures r.Parsed? ==> p <= r.next < |tokens|
    decreases |tokens| - p, 1
  {
    var d := Dimensions(tokens, p);
    Suffixes(tokens, t.(arrayDepth := d.0), d.1)
  }

  predicate IsPointerSuffix(tokens: seq<Token>, p: nat)
    requires p < |tokens|
  {
    tokens[p] == OpenParen && p + 2 < |tokens| && tokens[p + 1] == Star && tokens[p + 2] == CloseParen
  }

  /** Any number of function-pointer suffixes. */
  function Suffixes(tokens: seq<Token>, t: TypeInfo, p: nat): (r: Parsed)
    requires Ended(tokens) && p < |tokens|
    ensures r.Parsed? ==> p <= r.next < |tokens|
    decreases |tokens| - p, 0
  {
    if !IsPointerSuffix(tokens, p) then Parsed(t, p)
    else if tokens[p + 3] != OpenParen then Failed
    else
      var list := Parameters(tokens, p + 4);
      if list.ListFailed? then Failed
      else
        var d := Dimensions(tokens, list.next);
        Suffixes(tokens, PointerTo(t, list.results, d.0), d.1)
  }

  /** A parameter list and its closing parenthesis. */
  function Parameters(tokens: seq<Token>, p: nat): (r: ParsedList)
    requires Ended(tokens) && 0 < p < |tokens|
    ensures r.ParsedList? ==> p < r.next < |tokens|
    decreases |tokens| - p, 4
  {
    var list := if tokens[p] == CloseParen then ParsedList([], p) else ParseList(tokens, [], p);
    if list.ListFailed? || tokens[list.next] != CloseParen then ListFailed else ParsedList(list.results, list.next + 1)
  }

  // ------------------------------------------------------------------------ the parser

  class ParserState {
    const tokens: seq<Token>
    var current: nat

    ghost predicate Valid()
      reads this
    {
      Ended(tokens) && current < |tokens|
    }

    constructor (tokens: seq<Token>)
      requires Ended(tokens)
      ensures Valid() && this.tokens == tokens && current == 0
    {
      this.tokens, current := tokens, 0;
    }

    method Advance() returns (t: Token)
      requires Valid() && (tokens[current] == Eof ==> current > 0)
      modifies this
      ensures Valid() && current == (if tokens[old(current)] == Eof then old(current) else old(current) + 1) && t == tokens[current - 1]
    {
      if tokens[current] != Eof { current := current + 1; }
      t := tokens[current - 1];
    }

    method Match(t: Token) returns (ok: bool)
      requires Valid() && t != Eof
      modifies this
      ensures Valid() && ok == (tokens[old(current)] == t) && current == (if ok then old(current) + 1 else old(current))
    {
      ok := tokens[current] == t;
      if ok { current := current + 1; }
    }

    /** False stands for the ParseError thrown. */
    method ParseTypeInfo() returns (ok: bool, t: TypeInfo)
      requires Valid() && (tokens[current] == Eof ==> current > 0)
      modifies this
      ensures Valid() && old(current) <= current && ok == Parse(tokens, old(current)).Parsed?
      ensures ok ==> Parse(tokens, old(current)) == Parsed(t, current)
      decreases |tokens| - current, 2
    {
      hide Ended, QualifiedPath, Dimensions, Suffixes, TypeArguments;
      t := Named("", []);
      var first := Advance();
      var args;
      match first {
        case Primitive(name) => t := Named(name, []);
        case TupleKeyword =>
          ok, args := ParseTypeArguments();
          if !ok { return; }
          t := TupleOf(args);
        case Identifier(text) =>
          var name;
          ok, name := ParsePath(text);
          if !ok { return; }
          ok, args := ParseTypeArguments();
          if !ok { return; }
          t := Named(name, args);
        case _ => return false, t;
      }
      var depth := ParseDimensions();
      t := t.(arrayDepth := depth);
      ok, t := ParseSuffixes(t);
    }

    method ParsePath(first: string) returns (ok: bool, name: string)
      requires Valid()
      modifies this
      ensures Valid() && old(current) <= current && ok == QualifiedPath(tokens, first, old(current)).ParsedName?
      ensures ok ==> QualifiedPath(tokens, first, old(current)) == ParsedName(name, current)
    {
      name := first;
      while tokens[current] == Dot || tokens[current] == DoubleColon
        invariant Valid() && old(current) <= current && QualifiedPath(tokens, first, old(current)) == QualifiedPath(tokens, name, current)
        decreases |tokens| - current
      {
        current := current + 1;
        if !tokens[current].Identifier? { return false, name; }
        name := name + "." + tokens[current].text;
        current := current + 1;
      }
      ok := true;
    }

    method ParseDimensions() returns (depth: nat)
      requires Valid()
      modifies this
      ensures Valid() && old(current) <= current && Dimensions(tokens, old(current)) == (depth, current)
    {
      depth := 0;
      ghost var all := Dimensions(tokens, current);
      while tokens[current] == ArrayBrackets
        invariant Valid() && old(current) <= current && all == (depth + Dimensions(tokens, current).0, Dimensions(tokens, current).1)
        decreases |tokens| - current
      {
        current := current + 1;
        depth := depth + 1;
      }
      while tokens[current] == OpenBracket && tokens[current + 1] == CloseBracket
        invariant Valid() && old(current) <= current && all == (depth + SplitDimensions(tokens, current).0, SplitDimensions(tokens, current).1)
        decreases |tokens| - current
      {
        current := current + 2;
        depth := depth + 1;
      }
    }

    method ParseTypeArguments() returns (ok: bool, args: seq<TypeInfo>)
      requires Valid()
      modifies this
      ensures Valid() && old(current) <= current && ok == TypeArguments(tokens, old(current)).ParsedList?
      ensures ok ==> TypeArguments(tokens, old(current)) == ParsedList(args, current)
      decreases |tokens| - current, 1
    {
      var generic := Match(Less);
      if !generic { return true, []; }
      ok, args := ParseTypes();
      if ok { ok := Match(Greater); }
    }

    method ParseTypes() returns (ok: bool, list: seq<TypeInfo>)
      requires Valid() && current > 0
      modifies this
      ensures Valid() && old(current) <= current && ok == ParseList(tokens, [], old(current)).ParsedList?
      ensures ok ==> ParseList(tokens, [], old(current)) == ParsedList(list, current)
      decreases |tokens| - current, 3
    {
      hide Ended, Parse;
      list := [];
      var more := true;
      while more
        invariant Valid() && old(current) <= current && current > 0
        invariant if more then ParseList(tokens, list, current) == ParseList(tokens, [], old(current))
                  else ParsedList(list, current) == ParseList(tokens, [], old(current))
        decreases |tokens| - current, more
      {
        var t;
        ok, t := ParseTypeInfo();
        if !ok { return; }
        list := list + [t];
        more := Match(Comma);
      }
      ok := true;
    }

    method ParseSuffixes(start: TypeInfo) returns (ok: bool, t: TypeInfo)
      requires Valid()
      modifies this
      ensures Valid() && old(current) <= current && ok == Suffixes(tokens, start, old(current)).Parsed?
      ensures ok ==> Suffixes(tokens, start, old(current)) == Parsed(t, current)
      decreases |tokens| - current, 0
    {
      hide Dimensions, Parameters, PointerTo;
      t := start;
      while tokens[current] == OpenParen && current + 2 < |tokens| && tokens[current + 1] == Star && tokens[current + 2] == CloseParen
        invariant Valid() && old(current) <= current && Suffixes(tokens, start, old(current)) == Suffixes(tokens, t, current)
        decreases |tokens| - current
      {
        current := current + 3;
        ok := Match(OpenParen);
        if !ok { return; }
        var parameters;
        ok, parameters := ParseParameters();
        if !ok { return; }
        var depth := ParseDimensions();
        t := PointerTo(t, parameters, depth);
      }
      ok := true;
    }

    method ParseParameters() returns (ok: bool, list: seq<TypeInfo>)
      requires Valid() && current > 0
      modifies this
      ensures Valid() && old(current) <= current && ok == Parameters(tokens, old(current)).ParsedList?
      ensures ok ==> Parameters(tokens, old(current)) == ParsedList(list, current)
      decreases |tokens| - current, 4
    {
      ok, list := true, [];
      if tokens[current] != CloseParen {
        ok, list := ParseTypes();
      }
      if ok { ok := Match(CloseParen); }
    }
  }
}
