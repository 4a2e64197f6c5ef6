/**
 * ExpressionUtil: the rewrite of an IF condition into a script string. The condition is cut
 * into number literals, operators and symbols by three anchored patterns tried in that
 * order; every token is emitted by its value, separated by single spaces, where a symbol
 * that is not a quoted literal or one of null/true/false becomes an argument lookup.
 */
module Expressions {
  import opened Text
  import opened Errors

  datatype ExprToken =
    | NumberLiteral(text: string)
    | Operator(text: string)
    | Symbol(text: string)
    | EndOfText

  /** The characters of the single-character operators; symbols consist of anything else
      that is not white space. */
  predicate IsOperatorChar(c: char) {
    c in "=+-*/^()!<>"
  }

  /** The two-character operators, tried before the single characters. */
  const TwoCharOperators: seq<string> := ["&&", "||", "<=", ">=", "==", "!="]

  /** End of the run of ASCII digits starting at `i`. */
  function DigitsEnd(s: string, i: nat): (r: nat)
    requires i <= |s|
    ensures i <= r <= |s|
    ensures r < |s| ==> !IsAsciiDigit(s[r])
    ensures i < r ==> IsAsciiDigit(s[r - 1])
    decreases |s| - i
  {
    if i == |s| || !IsAsciiDigit(s[i]) then i else DigitsEnd(s, i + 1)
  }

  /** End of the run of symbol characters starting at `i`. */
  function SymbolCharsEnd(s: string, i: nat): (r: nat)
    requires i <= |s|
    ensures i <= r <= |s|
    ensures r < |s| ==> IsOperatorChar(s[r]) || IsWhiteSpace(s[r])
    decreases |s| - i
  {
    if i == |s| || IsOperatorChar(s[i]) || IsWhiteSpace(s[i]) then i else SymbolCharsEnd(s, i + 1)
  }

  /** Length of the match of the number-literal pattern (white space, an optional sign,
      digits, and an optional fraction of at least one digit), or 0 when it does not match. */
  function LiteralMatch(s: string): (r: nat)
    ensures r <= |s|
    ensures r > 0 ==> SkipSpaces(s, 0) < r
  {
    var b := SkipSpaces(s, 0);
    var d := if b < |s| && (s[b] == '-' || s[b] == '+') then b + 1 else b;
    var e := DigitsEnd(s, d);
    if e == d then 0
    else if e + 1 < |s| && s[e] == '.' && IsAsciiDigit(s[e + 1]) then DigitsEnd(s, e + 1)
    else e
  }

  /** Length of the match of the operator pattern, or 0. */
  function OperatorMatch(s: string): (r: nat)
    ensures r <= |s|
    ensures r > 0 ==> SkipSpaces(s, 0) < r
  {
    var b := SkipSpaces(s, 0);
    if b + 2 <= |s| && s[b..b + 2] in TwoCharOperators then b + 2
    else if b < |s| && IsOperatorChar(s[b]) then b + 1
    else 0
  }

  /** Length of the match of the symbol pattern (white space, an optional `-`, then symbol
      characters); it can match white space alone, with an empty symbol. */
  function SymbolMatch(s: string): (r: nat)
    ensures SkipSpaces(s, 0) <= r <= |s|
  {
    var b := SkipSpaces(s, 0);
    SymbolCharsEnd(s, if b < |s| && s[b] == '-' then b + 1 else b)
  }

  /** NextToken on the remaining text: the token and the length of the text it consumes.
      A pattern counts only when its whole match is non-empty. */
  function Lex(s: string): (r: (ExprToken, nat))
    ensures r.1 <= |s|
    ensures r.0 == EndOfText <==> r.1 == 0
  {
    var b := SkipSpaces(s, 0);
    var lit := LiteralMatch(s);
    if lit != 0 then (NumberLiteral(s[b..lit]), lit)
    else
      var op := OperatorMatch(s);
      if op != 0 then (Operator(s[b..op]), op)
      else
        var sym := SymbolMatch(s);
        if sym != 0 then (Symbol(s[b..sym]), sym)
        else (EndOfText, 0)
  }

  /** The value a symbol token contributes: a quoted literal verbatim, null/true/false in
      lower case, anything else as a lookup of the argument of that name. */
  function SymbolValue(v: string): (r: string)
  {
    if StartsWith(v, "'") && EndsWith(v, "'") then v
    else if ToLower(v) in ["null", "true", "false"] then ToLower(v)
    else "self.GetArg('" + v + "')"
  }

  /** The value a token contributes to the script; the end of text contributes nothing. */
  function TokenValue(t: ExprToken): string {
    match t
    case NumberLiteral(text) => text
    case Operator(text) => text
    case Symbol(text) => SymbolValue(text)
    case EndOfText => ""
  }

  datatype Lexeme = Lexeme(token: ExprToken, matched: string)

  /** The tokens of an expression with the text each consumed, up to the end of text. */
  function Tokenize(s: string): (r: seq<Lexeme>)
    decreases |s|
  {
    var (t, n) := Lex(s);
    if t == EndOfText then [] else [Lexeme(t, s[..n])] + Tokenize(s[n..])
  }

  function TokenValues(lexemes: seq<Lexeme>): (r: seq<string>)
    ensures |r| == |lexemes|
  {
    if |lexemes| == 0 then [] else [TokenValue(lexemes[0].token)] + TokenValues(lexemes[1..])
  }

  /** The words joined by single spaces. */
  function JoinWords(ws: seq<string>): string {
    if |ws| == 0 then ""
    else if |ws| == 1 then ws[0]
    else JoinWords(ws[..|ws| - 1]) + " " + ws[|ws| - 1]
  }

  /** Each word followed by one space, as the loop of ParseExpression accumulates them. */
  function Terminated(ws: seq<string>): string {
    if |ws| == 0 then "" else Terminated(ws[..|ws| - 1]) + ws[|ws| - 1] + " "
  }

  function Concat(ss: seq<string>): string {
    if |ss| == 0 then "" else ss[0] + Concat(ss[1..])
  }

  function Matched(lexemes: seq<Lexeme>): (r: seq<string>)
    ensures |r| == |lexemes|
  {
    if |lexemes| == 0 then [] else [lexemes[0].matched] + Matched(lexemes[1..])
  }

  /** The script an IF condition is rewritten to. */
  function Rewrite(expression: string): string {
    JoinWords(TokenValues(Tokenize(expression)))
  }

  /** A word that can be joined by spaces and trimmed back: non-empty, no trailing space. */
  predicate IsWord(w: string) {
    |w| > 0 && w[|w| - 1] != ' '
  }

  /** The end of text is reached exactly when no text remains: each of the three patterns
      consumes at least one character of any non-empty text. */
  lemma LexStopsOnlyAtEnd(s: string)
    ensures Lex(s).0 == EndOfText <==> |s| == 0
  {
    if |s| > 0 && LiteralMatch(s) == 0 && OperatorMatch(s) == 0 {
      var b := SkipSpaces(s, 0);
      if b == 0 {
        assert !IsWhiteSpace(s[0]) && !IsOperatorChar(s[0]);
        assert s[0] != '-';
        assert SymbolCharsEnd(s, 0) > 0;
      }
    }
  }

  /** A lexeme is the token's text behind white space. */
  predicate WellFormed(lx: Lexeme) {
    var w := SkipSpaces(lx.matched, 0);
    lx.token != EndOfText && lx.matched[w..] == lx.token.text &&
    forall k :: 0 <= k < w ==> IsWhiteSpace(lx.matched[k])
  }

  /** What one step of the lexer consumes is white space followed by the token's text. */
  lemma LexConsumesSpacesAndToken(s: string)
    requires Lex(s).0 != EndOfText
    ensures WellFormed(Lexeme(Lex(s).0, s[..Lex(s).1]))
  {
    var n := Lex(s).1;
    SkipSpacesSkipsOnlySpaces(s, 0);
    SkipSpacesSkipsOnlySpaces(s[..n], 0);
    var b := SkipSpaces(s, 0);
    assert b < n || b == n;
    if b < n {
      assert !IsWhiteSpace(s[..n][b]);
    }
    assert SkipSpaces(s[..n], 0) == b;
  }

  lemma TokenizeUnfold(s: string)
    requires Lex(s).0 != EndOfText
    ensures Tokenize(s) == [Lexeme(Lex(s).0, s[..Lex(s).1])] + Tokenize(s[Lex(s).1..])
    ensures TokenValues(Tokenize(s)) == [TokenValue(Lex(s).0)] + TokenValues(Tokenize(s[Lex(s).1..]))
  {
  }

  lemma MatchedCons(lx: Lexeme, rest: seq<Lexeme>)
    ensures Concat(Matched([lx] + rest)) == lx.matched + Concat(Matched(rest))
  {
    assert ([lx] + rest)[1..] == rest;
  }

  /** The texts the tokens consumed, put back together, give the whole expression. */
  lemma {:induction false} TokenizeRebuildsText(s: string)
    ensures Concat(Matched(Tokenize(s))) == s
    decreases |s|
  {
    LexStopsOnlyAtEnd(s);
    var n := Lex(s).1;
    if n > 0 {
      TokenizeUnfold(s);
      TokenizeRebuildsText(s[n..]);
      RebuildStep(s, n, Lexeme(Lex(s).0, s[..n]), Tokenize(s[n..]));
    } else {
      assert Tokenize(s) == [];
    }
  }

  /** A first lexeme that consumed `s[..n]`, before lexemes that rebuild `s[n..]`. */
  lemma RebuildStep(s: string, n: nat, lx: Lexeme, rest: seq<Lexeme>)
    requires n <= |s| && lx.matched == s[..n] && Concat(Matched(rest)) == s[n..]
    ensures Concat(Matched([lx] + rest)) == s
  {
    MatchedCons(lx, rest);
    assert s == s[..n] + s[n..];
  }

  /** Every token is the text it consumed with its leading white space removed. */
  lemma {:induction false} TokenizeKeepsTokenText(s: string)
    ensures forall i :: 0 <= i < |Tokenize(s)| ==> WellFormed(Tokenize(s)[i])
    decreases |s|
  {
    var n := Lex(s).1;
    if n > 0 {
      TokenizeKeepsTokenText(s[n..]);
      TokenizeUnfold(s);
      LexConsumesSpacesAndToken(s);
      forall i | 0 <= i < |Tokenize(s)|
        ensures WellFormed(Tokenize(s)[i])
      {
        if i > 0 {
          assert Tokenize(s)[i] == Tokenize(s[n..])[i - 1];
        }
      }
    }
  }

  /** A symbol is rewritten into exactly one of three forms: itself when quoted, a lower-case
      keyword, or a lookup of the argument named by the symbol, from which the symbol can be
      read back. */
  lemma SymbolValueForms(v: string)
    ensures var r := SymbolValue(v);
      (StartsWith(v, "'") && EndsWith(v, "'") ==> r == v) &&
      (!(StartsWith(v, "'") && EndsWith(v, "'")) && ToLower(v) in ["null", "true", "false"] ==>
         r in ["null", "true", "false"]) &&
      (!(StartsWith(v, "'") && EndsWith(v, "'")) && ToLower(v) !in ["null", "true", "false"] ==>
         StartsWith(r, "self.GetArg('") && EndsWith(r, "')") && r[13..|r| - 2] == v)
    ensures IsWord(SymbolValue(v))
  {
    var r := SymbolValue(v);
    if !(StartsWith(v, "'") && EndsWith(v, "'")) && ToLower(v) !in ["null", "true", "false"] {
      assert r == "self.GetArg('" + v + "')";
      assert r[..13] == "self.GetArg('";
      assert r[13..|r| - 2] == v;
    }
  }

  /** A token as the lexer produces it: not the end of text, and a number literal or an
      operator has text that is a word. */
  predicate LexedWord(t: ExprToken) {
    t != EndOfText && (t.NumberLiteral? || t.Operator? ==> IsWord(t.text))
  }

  /** Every value of a token in the text is a word, so the join can be trimmed back. */
  lemma {:induction false} TokenValuesAreWords(lexemes: seq<Lexeme>)
    requires forall i :: 0 <= i < |lexemes| ==> LexedWord(lexemes[i].token)
    ensures forall i :: 0 <= i < |lexemes| ==> IsWord(TokenValues(lexemes)[i])
  {
    if |lexemes| > 0 {
      TokenValuesAreWords(lexemes[1..]);
      if lexemes[0].token.Symbol? {
        SymbolValueForms(lexemes[0].token.text);
      }
      forall i | 0 <= i < |lexemes|
        ensures IsWord(TokenValues(lexemes)[i])
      {
        if i > 0 {
          assert TokenValues(lexemes)[i] == TokenValues(lexemes[1..])[i - 1];
        }
      }
    }
  }

  /** Number literals and operators of the text never end in a space. */
  lemma LexedTokenIsWord(s: string)
    requires Lex(s).0 != EndOfText
    ensures LexedWord(Lex(s).0)
  {
    var b := SkipSpaces(s, 0);
    var n := Lex(s).1;
    if LiteralMatch(s) != 0 {
      LiteralEndsInDigit(s);
      assert s[b..n][n - b - 1] == s[n - 1];
    } else if OperatorMatch(s) != 0 {
      OperatorEndsInNonSpace(s);
      assert s[b..n][n - b - 1] == s[n - 1];
    }
  }

  lemma LiteralEndsInDigit(s: string)
    requires LiteralMatch(s) != 0
    ensures IsAsciiDigit(s[LiteralMatch(s) - 1])
  {
    var b := SkipSpaces(s, 0);
    var d := if b < |s| && (s[b] == '-' || s[b] == '+') then b + 1 else b;
    assert DigitsEnd(s, d) > d;
  }

  lemma OperatorEndsInNonSpace(s: string)
    requires OperatorMatch(s) != 0
    ensures s[OperatorMatch(s) - 1] != ' '
  {
    var b := SkipSpaces(s, 0);
    if b + 2 <= |s| && s[b..b + 2] in TwoCharOperators {
      assert s[b + 1] == s[b..b + 2][1];
    }
  }

  lemma {:induction false} LexedTokensAreWords(s: string)
    ensures forall i :: 0 <= i < |Tokenize(s)| ==> LexedWord(Tokenize(s)[i].token)
    decreases |s|
  {
    var n := Lex(s).1;
    if n > 0 {
      LexedTokensAreWords(s[n..]);
      LexedTokenIsWord(s);
      TokenizeUnfold(s);
      forall i | 0 <= i < |Tokenize(s)|
        ensures LexedWord(Tokenize(s)[i].token)
      {
        if i > 0 {
          assert Tokenize(s)[i] == Tokenize(s[n..])[i - 1];
        }
      }
    }
  }

  lemma {:induction false} TerminatedIsJoinPlusSpace(ws: seq<string>)
    requires |ws| > 0
    ensures Terminated(ws) == JoinWords(ws) + " "
    decreases |ws|
  {
    if |ws| > 1 {
      TerminatedIsJoinPlusSpace(ws[..|ws| - 1]);
    }
  }

  lemma {:induction false} JoinOfWordsEndsInWord(ws: seq<string>)
    requires |ws| > 0 && forall i :: 0 <= i < |ws| ==> IsWord(ws[i])
    ensures IsWord(JoinWords(ws))
    decreases |ws|
  {
    if |ws| > 1 {
      JoinOfWordsEndsInWord(ws[..|ws| - 1]);
    }
  }

  function Spaces(n: nat): string {
    if n == 0 then "" else Spaces(n - 1) + " "
  }

  lemma {:induction false} TrimSpacesAfterWord(x: string, n: nat)
    requires x == [] || x[|x| - 1] != ' '
    ensures TrimEndChar(x + Spaces(n), ' ') == x
    decreases n
  {
    if n > 0 {
      assert (x + Spaces(n))[..|x + Spaces(n)| - 1] == x + Spaces(n - 1);
      TrimSpacesAfterWord(x, n - 1);
    } else {
      assert x + Spaces(0) == x;
    }
  }

  lemma TerminatedSnoc(ws: seq<string>, w: string)
    ensures Terminated(ws + [w]) == Terminated(ws) + w + " "
  {
    assert (ws + [w])[..|ws|] == ws;
  }

  lemma BufferIsJoinPlusSpaces(ws: seq<string>)
    requires |ws| > 0
    ensures Terminated(ws) + " " == JoinWords(ws) + Spaces(2)
  {
    TerminatedIsJoinPlusSpace(ws);
  }

  /** The accumulated buffer, with the end-of-text space, trims to the space-joined words. */
  lemma TrimmedBufferIsJoin(ws: seq<string>)
    requires forall i :: 0 <= i < |ws| ==> IsWord(ws[i])
    ensures TrimEndChar(Terminated(ws) + " ", ' ') == JoinWords(ws)
  {
    if |ws| == 0 {
      assert Terminated(ws) + " " == "" + Spaces(1);
      TrimSpacesAfterWord("", 1);
    } else {
      BufferIsJoinPlusSpaces(ws);
      JoinOfWordsEndsInWord(ws);
      TrimSpacesAfterWord(JoinWords(ws), 2);
    }
  }

  /** One token read off the remaining text moves its value from the values still to come
      to the values already emitted; the end of text comes only when nothing is left. */
  lemma ValuesAdvance(expression: string, done: seq<string>, text: string)
    requires TokenValues(Tokenize(expression)) == done + TokenValues(Tokenize(text))
    ensures Lex(text).0 != EndOfText ==>
      TokenValues(Tokenize(expression)) == (done + [TokenValue(Lex(text).0)]) + TokenValues(Tokenize(text[Lex(text).1..]))
    ensures Lex(text).0 == EndOfText ==> TokenValues(Tokenize(expression)) == done && text == []
  {
    LexStopsOnlyAtEnd(text);
    if Lex(text).0 != EndOfText {
      TokenizeUnfold(text);
    }
  }

  class ExpressionUtil {
    /** The text not yet consumed. */
    var text: string
    /** The last token read; None before the first. */
    var current: Option<ExprToken>
    /** How many characters have been consumed, over all calls. */
    var start: int

    constructor()
      ensures text == [] && current == None && start == 0
    {
      text := [];
      current := None;
      start := 0;
    }

    predicate Eof()
      reads this
    {
      current == Some(EndOfText)
    }

    /** Reads one token off the remaining text, trying the number-literal, operator and symbol
        patterns in that order. */
    method NextToken() returns (t: ExprToken)
      modifies this
      ensures t == Lex(old(text)).0 && current == Some(t)
      ensures text == old(text)[Lex(old(text)).1..] && start == old(start) + Lex(old(text)).1
    {
      var b := SkipSpaces(text, 0);
      var length := LiteralMatch(text);
      if length != 0 {
        t := NumberLiteral(text[b..length]);
      } else {
        length := OperatorMatch(text);
        if length != 0 {
          t := Operator(text[b..length]);
        } else {
          length := SymbolMatch(text);
          if length != 0 {
            t := Symbol(text[b..length]);
          } else {
            t := EndOfText;
          }
        }
      }
      start := start + length;
      text := text[length..];
      current := Some(t);
    }

    /** The rewritten condition: the values of the tokens joined by single spaces. */
    method ParseExpression(expression: string) returns (r: string)
      modifies this
      ensures r == Rewrite(expression)
      ensures text == [] && Eof() && start == old(start) + |expression|
    {
      current := None;
      text := expression;
      var sb := "";
      ghost var done: seq<string> := [];
      while !Eof()
        invariant |text| <= |expression| && start == old(start) + |expression| - |text|
        invariant !Eof() ==> (TokenValues(Tokenize(expression)) == done + TokenValues(Tokenize(text)) &&
          sb == Terminated(done))
        invariant Eof() ==> TokenValues(Tokenize(expression)) == done && sb == Terminated(done) + " " && text == []
        decreases |text| + (if Eof() then 0 else 1)
      {
        ghost var before := text;
        var token := NextToken();
        ValuesAdvance(expression, done, before);
        sb := sb + TokenValue(token) + " ";
        if token != EndOfText {
          TerminatedSnoc(done, TokenValue(token));
          done := done + [TokenValue(token)];
        }
      }
      LexedTokensAreWords(expression);
      TokenValuesAreWords(Tokenize(expression));
      TrimmedBufferIsJoin(done);
      r := TrimEndChar(sb, ' ');
    }
  }
}
