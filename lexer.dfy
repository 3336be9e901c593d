/** The lexer: a cursor over the source text that yields one token per call to `Next`.
    Operators are looked up in a table, three characters first, then two, then one;
    then a maximal digit run becomes a NUMBER and a maximal letter run a KEYWORD or
    an IDENTIFIER. A character that matches nothing yields no token (the `null` of
    `lexer.js`). */
module Lexer {
  import opened Wrappers

  /** The operator table: operator text to token kind. It has no three-character entry. */
  const TOKENS: map<string, string> := map[
    "{" := "OPEN_CURLY_BRACKET",
    "}" := "CLOSE_CURLY_BRACKET",
    "(" := "OPEN_PARENT_BRACKET",
    ")" := "CLOSE_PARENT_BRACKET",
    "[" := "OPEN_SQUARE_BRACKET",
    "]" := "CLOSE_SQUARE_BRACKET",
    "<" := "OPEN_ANGLE_BRACKET",
    ">" := "CLOSE_ANGLE_BRACKET",
    "=" := "EQUAL",
    "+" := "PLUS",
    "-" := "MINES",
    "*" := "STAR",
    "&" := "BITWISE_AND",
    "|" := "BITWISE_OR",
    "^" := "BITWISE_XOR",
    "'" := "SINGLE_QUOAT",
    "\"" := "DOUBLE_QUOAT",
    "," := "COMMA",
    "<<" := "SHIFT_LEFT",
    ">>" := "SHIFT_RIGHT",
    "||" := "LOGICAL_OR",
    "&&" := "LOGICAL_AND"
  ]

  const KEYWORDS: seq<string> := ["var", "fun", "null", "true", "false", "return"]

  /** A token: its kind, its text, where it starts and how long it is. */
  datatype Token = Token(kind: string, value: string, startPos: nat, length: nat)

  function EofToken(pos: nat): Token
  {
    Token("EOF", "", pos, 0)
  }

  predicate WhiteSpaceChar(c: char)
  {
    c == ' ' || c == '\r' || c == '\n'
  }

  predicate DigitChar(c: char)
  {
    '0' <= c <= '9'
  }

  predicate AlphaChar(c: char)
  {
    ('a' <= c <= 'z') || ('A' <= c <= 'Z')
  }

  /** The end of the maximal run of characters satisfying `inRun` that starts at `pos`. */
  function RunEnd(input: string, pos: nat, inRun: char -> bool): (e: nat)
    requires pos <= |input|
    ensures pos <= e <= |input|
    ensures forall k :: pos <= k < e ==> inRun(input[k])
    ensures e == |input| || !inRun(input[e])
    decreases |input| - pos
  {
    if pos < |input| && inRun(input[pos]) then RunEnd(input, pos + 1, inRun) else pos
  }

  /** String slicing with the clamping of JavaScript's `slice`, for `from <= |s|`. */
  function Slice(s: string, from: nat, to: nat): (r: string)
    requires from <= |s| && from <= to
    ensures |r| <= to - from && |r| <= |s| - from
    ensures r == s[from..from + |r|]
    ensures to <= |s| ==> |r| == to - from
    ensures to > |s| ==> |r| == |s| - from
  {
    if to <= |s| then s[from..to] else s[from..]
  }

  /** A character that can occur in an operator-table key. */
  predicate PunctuationChar(c: char)
  {
    !DigitChar(c) && !AlphaChar(c) && !WhiteSpaceChar(c)
  }

  /** The operator table as a lookup on characters: the kind of the operator `v`, if the
      table has it. */
  function TokenKind(v: string): (k: Option<string>)
    ensures k.Some? ==> 1 <= |v| <= 2 && PunctuationChar(v[0]) && (|v| == 2 ==> PunctuationChar(v[1]))
    ensures k != Some("EOF") && k != Some("NUMBER") && k != Some("IDENTIFIER")
  {
    if |v| == 1 then
      match v[0]
      case '{' => Some("OPEN_CURLY_BRACKET")
      case '}' => Some("CLOSE_CURLY_BRACKET")
      case '(' => Some("OPEN_PARENT_BRACKET")
      case ')' => Some("CLOSE_PARENT_BRACKET")
      case '[' => Some("OPEN_SQUARE_BRACKET")
      case ']' => Some("CLOSE_SQUARE_BRACKET")
      case '<' => Some("OPEN_ANGLE_BRACKET")
      case '>' => Some("CLOSE_ANGLE_BRACKET")
      case '=' => Some("EQUAL")
      case '+' => Some("PLUS")
      case '-' => Some("MINES")
      case '*' => Some("STAR")
      case '&' => Some("BITWISE_AND")
      case '|' => Some("BITWISE_OR")
      case '^' => Some("BITWISE_XOR")
      case '\'' => Some("SINGLE_QUOAT")
      case '"' => Some("DOUBLE_QUOAT")
      case ',' => Some("COMMA")
      case _ => None
    else if |v| == 2 then
      if v[0] == '<' && v[1] == '<' then Some("SHIFT_LEFT")
      else if v[0] == '>' && v[1] == '>' then Some("SHIFT_RIGHT")
      else if v[0] == '|' && v[1] == '|' then Some("LOGICAL_OR")
      else if v[0] == '&' && v[1] == '&' then Some("LOGICAL_AND")
      else None
    else None
  }

  /** The lookup finds exactly the entries of the table, with their kinds. */
  lemma TokenKindIsTable(v: string)
    ensures TokenKind(v) == if v in TOKENS then Some(TOKENS[v]) else None
  {
    if |v| == 1 {
      assert v == [v[0]];
    } else if |v| == 2 {
      assert v == [v[0], v[1]];
    }
  }

  /** The first character of a two-character operator is itself an operator. */
  lemma TableKey(v: string)
    requires TokenKind(v).Some?
    ensures TokenKind(v[..1]).Some?
  {
    assert v[..1] == [v[0]];
  }

  /** The table lookup of `width` characters at `pos`. The token's length is the length
      of the text found, which near the end of the input can be less than `width`. */
  function TableToken(input: string, pos: nat, width: nat): (t: Option<Token>)
    requires pos <= |input|
    ensures t.Some? ==>
              && TokenKind(t.value.value) == Some(t.value.kind)
              && t.value.startPos == pos
              && 0 < t.value.length == |t.value.value| <= width
              && pos + t.value.length <= |input|
              && t.value.value == input[pos..pos + t.value.length]
    ensures t.None? <==> TokenKind(Slice(input, pos, pos + width)).None?
  {
    var v := Slice(input, pos, pos + width);
    match TokenKind(v)
    case Some(kind) => Some(Token(kind, v, pos, |v|))
    case None => None
  }

  /** What one call to `next` returns, and where it leaves the cursor. */
  datatype Lexed = Lexed(token: Option<Token>, pos: nat)

  /** The token at `pos` and the position after it. */
  function NextToken(input: string, pos: nat): (r: Lexed)
    // the cursor never moves backwards
    ensures r.pos >= pos
    // EOF comes exactly from a cursor at or past the end
    ensures r.token.Some? ==> (r.token.value.kind == "EOF" <==> pos >= |input|)
    // every other token is the text it covers, and the cursor stops right after it
    ensures r.token.Some? && pos < |input| ==>
              var t := r.token.value;
              && pos <= t.startPos
              && 0 < t.length
              && r.pos == t.startPos + t.length <= |input|
              && t.value == input[t.startPos..r.pos]
    // only blanks are skipped before a failure
    ensures r.token.None? ==>
              && pos < |input|
              && r.pos == RunEnd(input, pos, WhiteSpaceChar)
  {
    if pos >= |input| then
      Lexed(Some(EofToken(pos)), pos)
    else
      var p := RunEnd(input, pos, WhiteSpaceChar);
      match LookupToken(input, p)
      case Some(t) => Lexed(Some(t), p + t.length)
      case None => RunToken(input, p)
  }

  /** The table lookups of three, two and one characters at `p`, in that order; the first
      that succeeds gives the token. */
  function LookupToken(input: string, p: nat): (t: Option<Token>)
    requires p <= |input|
    ensures t.Some? ==>
              && t.value.kind != "EOF"
              && t.value.startPos == p
              && 0 < t.value.length
              && p + t.value.length <= |input|
              && t.value.value == input[p..p + t.value.length]
  {
    var t3 := TableToken(input, p, 3);
    var t2 := TableToken(input, p, 2);
    var t1 := TableToken(input, p, 1);
    if t3.Some? then t3 else if t2.Some? then t2 else t1
  }

  /** The digit-run and letter-run rules, tried at `p` once no table lookup succeeded. */
  function RunToken(input: string, p: nat): (r: Lexed)
    requires p <= |input|
    ensures r.token.Some? ==>
              && p < r.pos <= |input|
              && r.token.value == Token(r.token.value.kind, input[p..r.pos], p, r.pos - p)
              && r.token.value.kind in {"NUMBER", "KEYWORD", "IDENTIFIER"}
    ensures r.token.None? ==> r.pos == p
  {
    if p < |input| && DigitChar(input[p]) then
      var e := RunEnd(input, p, DigitChar);
      Lexed(Some(Token("NUMBER", input[p..e], p, e - p)), e)
    else if p < |input| && AlphaChar(input[p]) then
      var e := RunEnd(input, p, AlphaChar);
      var v := input[p..e];
      Lexed(Some(Token(if v in KEYWORDS then "KEYWORD" else "IDENTIFIER", v, p, e - p)), e)
    else
      Lexed(None, p)
  }

  /** At or past the end, `next` keeps returning the same EOF token. */
  lemma EofIsSticky(input: string, pos: nat)
    requires pos >= |input|
    ensures NextToken(input, pos) == Lexed(Some(EofToken(pos)), pos)
    ensures NextToken(input, NextToken(input, pos).pos) == NextToken(input, pos)
  {
  }

  /** A two-character operator wins over its one-character prefix. */
  lemma LongestMatch(input: string, pos: nat)
    requires pos < |input|
    requires var p := RunEnd(input, pos, WhiteSpaceChar);
             p + 2 <= |input| && TokenKind(input[p..p + 2]).Some?
    ensures var p := RunEnd(input, pos, WhiteSpaceChar);
            var v := input[p..p + 2];
            NextToken(input, pos) == Lexed(Some(Token(TokenKind(v).value, v, p, 2)), p + 2)
  {
    var p := RunEnd(input, pos, WhiteSpaceChar);
    var v3 := Slice(input, p, p + 3);
    if p + 3 > |input| {
      assert v3 == input[p..p + 2];
    }
  }

  /** No table lookup succeeds at a position whose character is not punctuation. */
  lemma NoTableTokenAt(input: string, p: nat, width: nat)
    requires p < |input| && !PunctuationChar(input[p])
    ensures TableToken(input, p, width).None?
  {
    var v := Slice(input, p, p + width);
    if width > 0 {
      assert v[0] == input[p];
    }
  }

  /** After the blanks, a digit starts a NUMBER token holding the maximal digit run. */
  lemma NumberToken(input: string, pos: nat)
    requires pos < |input|
    requires var p := RunEnd(input, pos, WhiteSpaceChar);
             p < |input| && DigitChar(input[p])
    ensures var p := RunEnd(input, pos, WhiteSpaceChar);
            var r := NextToken(input, pos);
            && r.token.Some?
            && r.token.value.kind == "NUMBER"
            && r.token.value.startPos == p
            && (forall k :: p <= k < r.pos ==> DigitChar(input[k]))
            && (r.pos == |input| || !DigitChar(input[r.pos]))
  {
    var p := RunEnd(input, pos, WhiteSpaceChar);
    NoTableTokenAt(input, p, 3);
    NoTableTokenAt(input, p, 2);
    NoTableTokenAt(input, p, 1);
  }

  /** After the blanks, a letter starts a maximal run of letters (a digit ends it), which
      is a KEYWORD exactly when it is one of the six keywords and an IDENTIFIER otherwise. */
  lemma WordToken(input: string, pos: nat)
    requires pos < |input|
    requires var p := RunEnd(input, pos, WhiteSpaceChar);
             p < |input| && AlphaChar(input[p])
    ensures var p := RunEnd(input, pos, WhiteSpaceChar);
            var r := NextToken(input, pos);
            && r.token.Some?
            && (r.token.value.kind == "KEYWORD" <==> r.token.value.value in KEYWORDS)
            && (r.token.value.kind == "IDENTIFIER" <==> r.token.value.value !in KEYWORDS)
            && r.token.value.startPos == p
            && (forall k :: p <= k < r.pos ==> AlphaChar(input[k]))
            && (r.pos == |input| || !AlphaChar(input[r.pos]))
            && (r.pos < |input| && DigitChar(input[r.pos]) ==> r.token.value.kind in {"KEYWORD", "IDENTIFIER"})
  {
    var p := RunEnd(input, pos, WhiteSpaceChar);
    NoTableTokenAt(input, p, 3);
    NoTableTokenAt(input, p, 2);
    NoTableTokenAt(input, p, 1);
  }

  /** Before the end, `next` yields no token exactly when, after the blanks, the input
      has ended or its character is neither an operator, a digit nor a letter. */
  lemma NoTokenIff(input: string, pos: nat)
    requires pos < |input|
    ensures var p := RunEnd(input, pos, WhiteSpaceChar);
            NextToken(input, pos).token.None? <==>
              (p == |input| || (TokenKind(input[p..p + 1]).None? && !DigitChar(input[p]) && !AlphaChar(input[p])))
  {
    var p := RunEnd(input, pos, WhiteSpaceChar);
    if p < |input| && TokenKind(input[p..p + 1]).None? {
      forall w | 2 <= w <= 3
        ensures TableToken(input, p, w).None?
      {
        var v := Slice(input, p, p + w);
        if TokenKind(v).Some? {
          assert v[..1] == input[p..p + 1];
          TableKey(v);
        }
      }
    }
  }

  /** Tab is not a blank. */
  lemma TabYieldsNoToken()
    ensures NextToken("\t", 0) == Lexed(None, 0)
  {
    NoTokenIff("\t", 0);
  }

  /** `/` is not an operator of the table. */
  lemma SlashYieldsNoToken()
    ensures NextToken("/", 0) == Lexed(None, 0)
  {
    NoTokenIff("/", 0);
  }

  /** Blanks running to the end of the input yield no token rather than EOF, because the
      end test comes before the blanks are skipped. */
  lemma TrailingBlanksYieldNoToken()
    ensures NextToken("x \n", 1) == Lexed(None, 3)
  {
    NoTokenIff("x \n", 1);
  }

  // ----- The table lookups as `lexer.js` writes them -----

  /** The table lookup as written: the token's length is `width` and the cursor moves by
      `width`, even where the slice was clamped by the end of the input. */
  function TableTokenAsWritten(input: string, pos: nat, width: nat): (t: Option<Token>)
    requires pos <= |input|
    ensures t.Some? ==> t.value.length == width && t.value.startPos == pos && TokenKind(t.value.value).Some?
    ensures t.None? <==> TableToken(input, pos, width).None?
  {
    var v := Slice(input, pos, pos + width);
    match TokenKind(v)
    case Some(kind) => Some(Token(kind, v, pos, width))
    case None => None
  }

  /** `next` with the table lookups as written. */
  function NextTokenAsWritten(input: string, pos: nat): (r: Lexed)
    ensures r.pos >= pos
    ensures pos >= |input| ==> r.token == Some(EofToken(pos))
    ensures r.token.Some? && pos < |input| ==> r.pos > pos && r.token.value.kind != "EOF"
  {
    if pos >= |input| then
      Lexed(Some(EofToken(pos)), pos)
    else
      var p := RunEnd(input, pos, WhiteSpaceChar);
      var t3 := TableTokenAsWritten(input, p, 3);
      var t2 := TableTokenAsWritten(input, p, 2);
      var t1 := TableTokenAsWritten(input, p, 1);
      if t3.Some? then
        Lexed(t3, p + 3)
      else if t2.Some? then
        Lexed(t2, p + 2)
      else if t1.Some? then
        Lexed(t1, p + 1)
      else
        RunToken(input, p)
  }

  /** A closing parenthesis at the very end gets length 3 and moves the cursor two places
      past the end; the corrected lookup gives length 1 and stops at the end. */
  lemma AsWrittenOvershoots()
    ensures NextTokenAsWritten(")", 0) == Lexed(Some(Token("CLOSE_PARENT_BRACKET", ")", 0, 3)), 3)
    ensures NextToken(")", 0) == Lexed(Some(Token("CLOSE_PARENT_BRACKET", ")", 0, 1)), 1)
  {
    assert RunEnd(")", 0, WhiteSpaceChar) == 0;
    assert Slice(")", 0, 3) == ")";
  }

  /** The two lookups give tokens of the same kind, text and start; their cursors differ
      exactly when the rest of the input after the blanks is itself an operator, and then
      the written one has gone past the end while the corrected one stops at it. */
  lemma AsWrittenAgrees(input: string, pos: nat)
    requires pos <= |input|
    ensures var a, c := NextTokenAsWritten(input, pos), NextToken(input, pos);
            && (a.token.Some? <==> c.token.Some?)
            && (a.token.Some? ==>
                  && a.token.value.kind == c.token.value.kind
                  && a.token.value.value == c.token.value.value
                  && a.token.value.startPos == c.token.value.startPos)
            && (a.pos == c.pos || c.pos == |input| < a.pos)
            && (a.pos != c.pos <==> pos < |input| && TokenKind(input[RunEnd(input, pos, WhiteSpaceChar)..]).Some?)
  {
    if pos < |input| {
      var p := RunEnd(input, pos, WhiteSpaceChar);
      var rest := input[p..];
      var v3, v2, v1 := Slice(input, p, p + 3), Slice(input, p, p + 2), Slice(input, p, p + 1);
      if |rest| <= 3 {
        assert v3 == rest;
      }
      if TokenKind(rest).Some? {
        assert v3 == rest;
      }
      if TokenKind(v3).Some? {
      } else if TokenKind(v2).Some? {
        TableKey(v2);
        assert |rest| > 2;
      } else if TokenKind(v1).Some? {
        assert |rest| > 1;
        if |rest| == 2 {
          assert v2 == rest;
        }
      }
    }
  }

  // ----- The token stream -----

  /** How the token stream ends: at EOF (with the cursor position `next` reports) or at a
      character no rule matches. */
  datatype End = AtEof(pos: nat) | Invalid

  /** The tokens `next` returns, in order, up to the first EOF or failure. */
  datatype Stream = Stream(toks: seq<Token>, end: End)

  function Remaining(input: string, pos: nat): nat
  {
    if pos <= |input| then |input| - pos else 0
  }

  /** Token `t` is a non-EOF token that covers its own text inside `input`, at or after `pos`. */
  ghost predicate CoversText(input: string, pos: nat, t: Token)
  {
    && t.kind != "EOF"
    && 0 < t.length
    && pos <= t.startPos
    && t.startPos + t.length <= |input|
    && t.value == input[t.startPos..t.startPos + t.length]
  }

  /** The stream produced by calling `next` from `pos` until it yields EOF or nothing. */
  function Scan(input: string, pos: nat): (s: Stream)
    // EOF is reported at the end of the input (or where the cursor already was)
    ensures s.end.AtEof? ==> s.end.pos == if pos < |input| then |input| else pos
    decreases Remaining(input, pos)
  {
    if pos >= |input| then
      Stream([], AtEof(pos))
    else
      var r := NextToken(input, pos);
      match r.token
      case None => Stream([], Invalid)
      case Some(t) =>
        var rest := Scan(input, r.pos);
        Stream([t] + rest.toks, rest.end)
  }

  /** Every token of a scan covers its own text, inside the input and at or after where the
      scan began, and the tokens follow one another without overlapping. */
  lemma ScanCoversText(input: string, pos: nat)
    ensures var s := Scan(input, pos);
            && (forall k :: 0 <= k < |s.toks| ==> CoversText(input, pos, s.toks[k]))
            && (forall k :: 0 <= k < |s.toks| - 1 ==> s.toks[k].startPos + s.toks[k].length <= s.toks[k + 1].startPos)
  {
    var toks := Scan(input, pos).toks;
    ScanIsChained(input, pos);
    forall k | 0 <= k < |toks|
      ensures CoversText(input, pos, toks[k])
      ensures k + 1 < |toks| ==> toks[k].startPos + toks[k].length <= toks[k + 1].startPos
    {
      ChainedToken(input, pos, toks, k);
    }
  }

  /** Each token of `toks` covers its text, at or after where the one before it ends. */
  ghost predicate Chained(input: string, pos: nat, toks: seq<Token>)
    decreases |toks|
  {
    toks == [] ||
    (CoversText(input, pos, toks[0]) && Chained(input, toks[0].startPos + toks[0].length, toks[1..]))
  }

  /** The tokens of a scan are chained from where the scan began. */
  lemma {:induction false} ScanIsChained(input: string, pos: nat)
    ensures Chained(input, pos, Scan(input, pos).toks)
    decreases Remaining(input, pos)
  {
    var toks := Scan(input, pos).toks;
    if toks != [] {
      var r := FirstToken(input, pos);
      ScanIsChained(input, r.pos);
      ChainCons(input, pos, r.token.value, Scan(input, r.pos).toks);
    }
  }

  /** A token that covers its text, followed by a chain from where it ends, is a chain. */
  lemma ChainCons(input: string, pos: nat, t: Token, rest: seq<Token>)
    requires CoversText(input, pos, t) && Chained(input, t.startPos + t.length, rest)
    ensures Chained(input, pos, [t] + rest)
  {
    assert ([t] + rest)[1..] == rest;
  }

  /** Token `k` of a chain covers its text and ends before token `k + 1` starts. */
  lemma {:induction false} ChainedToken(input: string, pos: nat, toks: seq<Token>, k: nat)
    requires Chained(input, pos, toks) && k < |toks|
    ensures CoversText(input, pos, toks[k])
    ensures k + 1 < |toks| ==> toks[k].startPos + toks[k].length <= toks[k + 1].startPos
    decreases k
  {
    var next := toks[0].startPos + toks[0].length;
    if k == 0 {
      if 1 < |toks| {
        assert toks[1..][0] == toks[1];
      }
    } else {
      ChainedToken(input, next, toks[1..], k - 1);
      assert toks[1..][k - 1] == toks[k];
      if k + 1 < |toks| {
        assert toks[1..][k] == toks[k + 1];
      }
    }
  }

  /** A scan that yields a token starts with what `next` returns, which covers its text,
      and goes on from where that call leaves the cursor. */
  lemma FirstToken(input: string, pos: nat) returns (r: Lexed)
    requires Scan(input, pos).toks != []
    ensures r == NextToken(input, pos) && r.token.Some? && pos <= r.pos
    ensures Scan(input, pos).toks == [r.token.value] + Scan(input, r.pos).toks
    ensures CoversText(input, pos, r.token.value) && r.pos == r.token.value.startPos + r.token.value.length
  {
    r := ScanStep(input, pos);
    NextTokenCovers(input, pos);
  }

  /** A scan that yields a token is that token followed by the scan from where `next`
      leaves the cursor. */
  lemma ScanStep(input: string, pos: nat) returns (r: Lexed)
    requires Scan(input, pos).toks != []
    ensures r == NextToken(input, pos) && r.token.Some? && pos < |input| && pos < r.pos
    ensures Scan(input, pos).toks == [r.token.value] + Scan(input, r.pos).toks
    ensures Scan(input, pos).end == Scan(input, r.pos).end
  {
    r := NextToken(input, pos);
  }

  /** A token that `next` returns before the end covers its text, and the cursor stops
      right after it. */
  lemma NextTokenCovers(input: string, pos: nat)
    requires pos < |input| && NextToken(input, pos).token.Some?
    ensures var r := NextToken(input, pos);
            CoversText(input, pos, r.token.value) && r.pos == r.token.value.startPos + r.token.value.length
  {
  }

  /** A number or an identifier token starts with a digit or a letter: it comes from a
      digit or letter run, never from the operator table. */
  predicate WordText(t: Token)
  {
    (t.kind == "NUMBER" || t.kind == "IDENTIFIER") ==> |t.value| > 0 && !PunctuationChar(t.value[0])
  }

  lemma NextTokenWordText(input: string, pos: nat)
    requires NextToken(input, pos).token.Some?
    ensures WordText(NextToken(input, pos).token.value)
  {
  }

  lemma {:induction false} ScanWordText(input: string, pos: nat)
    ensures forall k :: 0 <= k < |Scan(input, pos).toks| ==> WordText(Scan(input, pos).toks[k])
    decreases Remaining(input, pos)
  {
    if Scan(input, pos).toks != [] {
      var r := ScanStep(input, pos);
      NextTokenWordText(input, pos);
      ScanWordText(input, r.pos);
    }
  }

  /** The stream with the table lookups as written. */
  function ScanAsWritten(input: string, pos: nat): Stream
    decreases Remaining(input, pos)
  {
    var r := NextTokenAsWritten(input, pos);
    match r.token
    case None => Stream([], Invalid)
    case Some(t) =>
      if pos >= |input| then
        Stream([], AtEof(t.startPos))
      else
        var rest := ScanAsWritten(input, r.pos);
        Stream([t] + rest.toks, rest.end)
  }

  /** The kind and text of each token: all the parser ever reads of a token. */
  function Texts(toks: seq<Token>): (r: seq<(string, string)>)
    ensures |r| == |toks|
    ensures forall k :: 0 <= k < |toks| ==> r[k] == (toks[k].kind, toks[k].value)
  {
    if toks == [] then [] else [(toks[0].kind, toks[0].value)] + Texts(toks[1..])
  }

  /** The written and the corrected lookups give the parser the same stream: the same
      kinds and texts, ending the same way. */
  lemma {:induction false} AsWrittenStreamAgrees(input: string, pos: nat)
    requires pos <= |input|
    ensures Texts(ScanAsWritten(input, pos).toks) == Texts(Scan(input, pos).toks)
    ensures ScanAsWritten(input, pos).end.AtEof? <==> Scan(input, pos).end.AtEof?
    decreases |input| - pos
  {
    AsWrittenAgrees(input, pos);
    var a, c := NextTokenAsWritten(input, pos), NextToken(input, pos);
    if pos < |input| && a.token.Some? {
      if a.pos == c.pos {
        AsWrittenStreamAgrees(input, c.pos);
      } else {
        assert ScanAsWritten(input, a.pos) == Stream([], AtEof(a.pos));
        assert Scan(input, c.pos) == Stream([], AtEof(c.pos));
      }
      var sa, sc := ScanAsWritten(input, a.pos), Scan(input, c.pos);
      assert ScanAsWritten(input, pos).toks == [a.token.value] + sa.toks;
      assert Scan(input, pos).toks == [c.token.value] + sc.toks;
      assert Texts([a.token.value] + sa.toks) == [(a.token.value.kind, a.token.value.value)] + Texts(sa.toks);
    }
  }

  // ----- The lexer object -----

  /** The cursor of `lexer.js`: the input and the position `pos`, which `next` advances. */
  class Lexer {
    const input: string
    var pos: nat

    ghost predicate Valid()
      reads this
    {
      pos <= |input|
    }

    constructor(input: string)
      ensures Valid() && this.input == input && pos == 0
    {
      this.input := input;
      pos := 0;
    }

    predicate IsEof()
      reads this
    {
      pos >= |input|
    }

    predicate IsDigit()
      reads this
    {
      pos < |input| && DigitChar(input[pos])
    }

    predicate IsAlpha()
      reads this
    {
      pos < |input| && AlphaChar(input[pos])
    }

    method Consume()
      modifies this
      ensures pos == old(pos) + 1
    {
      pos := pos + 1;
    }

    /** Skips spaces, carriage returns and newlines. */
    method SkipWhiteSpace()
      requires Valid()
      modifies this
      ensures Valid() && pos == RunEnd(input, old(pos), WhiteSpaceChar)
    {
      while pos < |input| && WhiteSpaceChar(input[pos])
        invariant old(pos) <= pos <= |input|
        invariant RunEnd(input, pos, WhiteSpaceChar) == RunEnd(input, old(pos), WhiteSpaceChar)
        decreases |input| - pos
      {
        Consume();
      }
    }

    /** The lookup of `width` characters in the operator table; on a hit the cursor moves
        past the text found. */
    method ConsumeTableToken(width: nat) returns (t: Option<Token>)
      requires Valid()
      modifies this
      ensures Valid() && t == TableToken(input, old(pos), width)
      ensures pos == old(pos) + (if t.Some? then t.value.length else 0)
    {
      var tokenValue := Slice(input, pos, pos + width);
      TokenKindIsTable(tokenValue);
      if tokenValue in TOKENS {
        t := Some(Token(TOKENS[tokenValue], tokenValue, pos, |tokenValue|));
        pos := pos + |tokenValue|;
      } else {
        t := None;
      }
    }

    /** Collects the maximal run of characters satisfying `inRun` from the cursor. */
    method ConsumeRun(inRun: char -> bool) returns (value: string)
      requires Valid()
      modifies this
      ensures Valid() && pos == RunEnd(input, old(pos), inRun)
      ensures value == input[old(pos)..pos]
    {
      value := "";
      var startPos := pos;
      while pos < |input| && inRun(input[pos])
        invariant startPos <= pos <= |input|
        invariant value == input[startPos..pos]
        invariant RunEnd(input, pos, inRun) == RunEnd(input, startPos, inRun)
        decreases |input| - pos
      {
        value := value + [input[pos]];
        Consume();
      }
    }

    /** Returns the next token, or `None` where no rule matches. */
    method Next() returns (t: Option<Token>)
      requires Valid()
      modifies this
      ensures Valid() && Lexed(t, pos) == NextToken(input, old(pos))
    {
      if IsEof() {
        return Some(EofToken(pos));
      }
      SkipWhiteSpace();
      t := ConsumeLookup();
      if t.Some? {
        return;
      }
      t := ConsumeRunToken();
    }

    /** The three table lookups of `next`, widest first; the cursor moves past the token
        found, or stays. */
    method ConsumeLookup() returns (t: Option<Token>)
      requires Valid()
      modifies this
      ensures Valid() && t == LookupToken(input, old(pos))
      ensures pos == old(pos) + (if t.Some? then t.value.length else 0)
    {
      t := ConsumeTableToken(3);
      if t.Some? {
        return;
      }
      t := ConsumeTableToken(2);
      if t.Some? {
        return;
      }
      t := ConsumeTableToken(1);
    }

    /** The digit-run and letter-run rules of `next`. */
    method ConsumeRunToken() returns (t: Option<Token>)
      requires Valid()
      modifies this
      ensures Valid() && Lexed(t, pos) == RunToken(input, old(pos))
    {
      if IsDigit() {
        var startPos := pos;
        var value := ConsumeRun(DigitChar);
        return Some(Token("NUMBER", value, startPos, |value|));
      }
      if IsAlpha() {
        var startPos := pos;
        var value := ConsumeRun(AlphaChar);
        if value in KEYWORDS {
          return Some(Token("KEYWORD", value, startPos, |value|));
        }
        return Some(Token("IDENTIFIER", value, startPos, |value|));
      }
      return None;
    }
  }
}
