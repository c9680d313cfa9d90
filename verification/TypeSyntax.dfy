/** Types as written: their printed form, and the lexer's tokens for it. */
module TypeSyntax {
  import opened Options

  datatype TypeInfo = TypeInfo(name: string, arrayDepth: nat, typeArgs: seq<TypeInfo>,
                               isFunctionPointer: bool, returnType: Option<TypeInfo>, paramTypes: seq<TypeInfo>,
                               isTuple: bool, isVariadicPack: bool)

  /** Equality as the compiler defines it: the name of a function pointer is ignored. */
  predicate Same(a: TypeInfo, b: TypeInfo)
    decreases a
  {
    a.isTuple == b.isTuple && a.isVariadicPack == b.isVariadicPack && a.isFunctionPointer == b.isFunctionPointer &&
    a.arrayDepth == b.arrayDepth &&
    if a.isFunctionPointer then
      a.returnType.Some? == b.returnType.Some? && (a.returnType.Some? ==> Same(a.returnType.value, b.returnType.value)) &&
      AllSame(a.paramTypes, b.paramTypes)
    else
      a.name == b.name && AllSame(a.typeArgs, b.typeArgs)
  }

  predicate AllSame(a: seq<TypeInfo>, b: seq<TypeInfo>)
    decreases a
  {
    |a| == |b| && forall i :: 0 <= i < |a| ==> Same(a[i], b[i])
  }

  // --------------------------------------------------------------------- the printer

  function Brackets(n: nat): string {
    if n == 0 then "" else "[]" + Brackets(n - 1)
  }

  function ToString(t: TypeInfo): string
    decreases t, 0
  {
    if t.isFunctionPointer then
      (if t.returnType.Some? then ToString(t.returnType.value) else "void") + "(*)(" + ListText(t.paramTypes, ", ") + ")" + Brackets(t.arrayDepth)
    else
      (if t.isTuple then "tuple" else t.name) + Angled(t.typeArgs) + Brackets(t.arrayDepth)
  }

  function Angled(ts: seq<TypeInfo>): string
    decreases ts, 1
  {
    if ts == [] then "" else "<" + ListText(ts, ",") + ">"
  }

  function ListText(ts: seq<TypeInfo>, separator: string): string
    decreases ts, 0
  {
    if ts == [] then ""
    else if |ts| == 1 then ToString(ts[0])
    else ToString(ts[0]) + separator + ListText(ts[1..], separator)
  }

  // ------------------------------------------------------------------------ the lexer

  datatype Token =
    | Identifier(text: string)
    | Primitive(name: string)
    | TupleKeyword
    | Keyword(word: string)
    | Less | Greater | Comma | Dot | DoubleColon | ArrayBrackets | OpenBracket | CloseBracket
    | OpenParen | CloseParen | Star
    | Unmodelled  // numbers, literals, comments, other punctuation and operators
    | Eof

  const PRIMITIVES := {"void", "bool", "int8", "int16", "int32", "int64", "uint8", "uint16", "uint32", "uint64", "float32", "float64", "char"}

  const KEYWORDS := {
    "if", "else", "for", "while", "do", "return", "break", "continue", "switch", "case", "default", "try", "catch",
    "finally", "throw", "const", "class", "enum", "static", "inline", "alias", "import", "public", "native", "protected",
    "private", "internal", "package", "new", "operator", "extends", "super", "virtual", "override", "weak", "abstract",
    "interface", "implements", "instanceof", "sizeof", "assert", "exit"}

  predicate StartsWord(c: char) {
    'a' <= c <= 'z' || 'A' <= c <= 'Z' || c == '_'
  }

  predicate InWord(c: char) {
    StartsWord(c) || '0' <= c <= '9'
  }

  predicate IsBlank(c: char) {
    c == ' ' || c == '\t' || c == '\r' || c == '\n'
  }

  function WordLength(s: string): (n: nat)
    ensures n <= |s| && (forall i :: 0 <= i < n ==> InWord(s[i])) && (n < |s| ==> !InWord(s[n]))
  {
    if s == "" || !InWord(s[0]) then 0 else 1 + WordLength(s[1..])
  }

  function WordToken(w: string): Token {
    if w in PRIMITIVES then Primitive(w)
    else if w == "tuple" then TupleKeyword
    else if w in KEYWORDS then Keyword(w)
    else Identifier(w)
  }

  datatype Scanned = Scanned(token: Token, length: nat)

  /** The token at the start of a text, and its length. */
  function Scan(s: string): (r: Scanned)
    requires s != ""
    ensures 1 <= r.length <= |s|
  {
    var next := if |s| > 1 then s[1] else '\0';
    if StartsWord(s[0]) then Scanned(WordToken(s[..WordLength(s)]), WordLength(s))
    else if s[0] == '(' then Scanned(OpenParen, 1)
    else if s[0] == ')' then Scanned(CloseParen, 1)
    else if s[0] == '[' then if next == ']' then Scanned(ArrayBrackets, 2) else Scanned(OpenBracket, 1)
    else if s[0] == ']' then Scanned(CloseBracket, 1)
    else if s[0] == ',' then Scanned(Comma, 1)
    else if s[0] == '.' then if |s| > 2 && next == '.' && s[2] == '.' then Scanned(Unmodelled, 3) else Scanned(Dot, 1)
    else if s[0] == ':' then if next == ':' then Scanned(DoubleColon, 2) else Scanned(Unmodelled, 1)
    else if s[0] == '<' then if next == '=' then Scanned(Unmodelled, 2) else Scanned(Less, 1)
    else if s[0] == '>' then if next == '=' then Scanned(Unmodelled, 2) else Scanned(Greater, 1)
    else if s[0] == '*' then if next == '=' then Scanned(Unmodelled, 2) else Scanned(Star, 1)
    else Scanned(Unmodelled, 1)
  }

  function Lex(s: string): (tokens: seq<Token>)
    ensures tokens != [] && tokens[|tokens| - 1] == Eof
    decreases |s|
  {
    if s == "" then [Eof]
    else if IsBlank(s[0]) then Lex(s[1..])
    else [Scan(s).token] + Lex(s[Scan(s).length..])
  }

  lemma LexStep(s: string)
    ensures Lex(s) == if s == "" then [Eof] else if IsBlank(s[0]) then Lex(s[1..]) else [Scan(s).token] + Lex(s[Scan(s).length..])
  {
  }

  class LexerState {
    const source: string
    var currentPos: nat
    var tokens: seq<Token>

    constructor (source: string)
      ensures this.source == source && currentPos == 0 && tokens == []
    {
      this.source, currentPos, tokens := source, 0, [];
    }

    method Tokenize() returns (r: seq<Token>)
      requires currentPos == 0 && tokens == []
      modifies this
      ensures r == Lex(source)
    {
      hide Lex, Scan, IsBlank;
      LexStep("");
      assert source[0..] == source;
      while currentPos < |source|
        invariant currentPos <= |source| && tokens + Lex(source[currentPos..]) == Lex(source)
      {
        ghost var rest := source[currentPos..];
        LexStep(rest);
        if IsBlank(source[currentPos]) {
          assert source[currentPos + 1..] == rest[1..];
          currentPos := currentPos + 1;
        } else {
          assert source[currentPos + Scan(rest).length..] == rest[Scan(rest).length..];
          assert tokens + ([Scan(rest).token] + Lex(rest[Scan(rest).length..])) == (tokens + [Scan(rest).token]) + Lex(rest[Scan(rest).length..]);
          ScanOne();
        }
      }
      assert source[currentPos..] == "";
      tokens := tokens + [Eof];
      r := tokens;
    }

    method ScanOne()
      requires currentPos < |source| && !IsBlank(source[currentPos])
      modifies this
      ensures currentPos == old(currentPos) + Scan(source[old(currentPos)..]).length
      ensures tokens == old(tokens) + [Scan(source[old(currentPos)..]).token]
    {
      hide WordToken, WordLength;
      if StartsWord(source[currentPos]) {
        ScanWord();
      } else {
        ScanPunctuation();
      }
    }

    method ScanWord()
      requires currentPos < |source| && StartsWord(source[currentPos])
      modifies this
      ensures currentPos == old(currentPos) + WordLength(source[old(currentPos)..])
      ensures tokens == old(tokens) + [WordToken(source[old(currentPos)..][..WordLength(source[old(currentPos)..])])]
    {
      hide WordToken;
      ghost var rest := source[currentPos..];
      var start := currentPos;
      currentPos := currentPos + 1;
      while currentPos < |source| && InWord(source[currentPos])
        modifies this`currentPos
        invariant start < currentPos <= |source|
        invariant WordLength(rest) == currentPos - start + WordLength(source[currentPos..])
      {
        assert source[currentPos..][1..] == source[currentPos + 1..];
        currentPos := currentPos + 1;
      }
      assert rest[..WordLength(rest)] == source[start..currentPos];
      tokens := tokens + [WordToken(source[start..currentPos])];
    }

    method ScanPunctuation()
      requires currentPos < |source| && !StartsWord(source[currentPos])
      modifies this
      ensures currentPos == old(currentPos) + Scan(source[old(currentPos)..]).length
      ensures tokens == old(tokens) + [Scan(source[old(currentPos)..]).token]
    {
      hide WordToken, WordLength;
      ghost var rest := source[currentPos..];
      var c := source[currentPos];
      currentPos := currentPos + 1;
      var next := if currentPos < |source| then source[currentPos] else '\0';
      assert next == if |rest| > 1 then rest[1] else '\0';
      assert |rest| > 2 ==> rest[2] == source[currentPos + 1];
      var token, more := Unmodelled, 0;
      match c {
        case '(' => token := OpenParen;
        case ')' => token := CloseParen;
        case '[' => if next == ']' { token, more := ArrayBrackets, 1; } else { token := OpenBracket; }
        case ']' => token := CloseBracket;
        case ',' => token := Comma;
        case '.' =>
          if currentPos + 1 < |source| && next == '.' && source[currentPos + 1] == '.' { more := 2; } else { token := Dot; }
        case ':' => if next == ':' { token, more := DoubleColon, 1; }
        case '<' => if next == '=' { more := 1; } else { token := Less; }
        case '>' => if next == '=' { more := 1; } else { token := Greater; }
        case '*' => if next == '=' { more := 1; } else { token := Star; }
        case _ =>
      }
      currentPos := currentPos + more;
      tokens := tokens + [token];
    }
  }
}
