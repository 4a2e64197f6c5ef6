/**
 * Parser: drives the tokenizer over the normalised template and builds the node tree with
 * a stack of open nodes. IF and BEGIN push a block that the matching END pops; `-- ELSE`
 * turns the IF on top of the stack into its ElseNode.
 */
module SqlParser {
  import opened Text
  import opened Errors
  import opened SqlTokenizer
  import opened Expressions
  import opened Nodes

  /** The constructor's normalisation: trimmed, then one trailing `;` dropped. */
  function Normalize(sql: string): (r: string)
  {
    var t := Trim(sql);
    if EndsWith(t, ";") then t[..|t| - 1] else t
  }

  /** The tokenizer sees the trimmed text with at most one `;` taken off its end. */
  lemma NormalizeShape(sql: string)
    ensures EndsWith(Trim(sql), ";") ==> Normalize(sql) + ";" == Trim(sql)
    ensures !EndsWith(Trim(sql), ";") ==> Normalize(sql) == Trim(sql)
    ensures Normalize(sql) == [] || !IsWhiteSpace(Normalize(sql)[0])
    ensures exists i, j :: 0 <= i <= j <= |sql| && Normalize(sql) == sql[i..j]
  {
    NormalizeTrimmed(sql);
    var i, j := NormalizeSlice(sql);
    assert 0 <= i <= j <= |sql| && Normalize(sql) == sql[i..j];
  }

  lemma NormalizeTrimmed(sql: string)
    ensures EndsWith(Trim(sql), ";") ==> Normalize(sql) + ";" == Trim(sql)
    ensures !EndsWith(Trim(sql), ";") ==> Normalize(sql) == Trim(sql)
    ensures Normalize(sql) == [] || !IsWhiteSpace(Normalize(sql)[0])
  {
    var t := Trim(sql);
    if EndsWith(t, ";") {
      var i, j := TrimBounds(sql);
      DropSemicolon(sql, t, i, j);
    }
  }

  lemma NormalizeSlice(sql: string) returns (i: nat, j: nat)
    ensures i <= j <= |sql| && Normalize(sql) == sql[i..j]
  {
    var t := Trim(sql);
    i, j := TrimBounds(sql);
    if EndsWith(t, ";") {
      DropSemicolon(sql, t, i, j);
      j := j - 1;
    }
  }

  /** Dropping the final `;` of a slice of `sql` leaves a shorter slice with the same start. */
  lemma DropSemicolon(sql: string, t: string, i: int, j: int)
    requires 0 <= i <= j <= |sql| && t == sql[i..j]
    requires t == [] || !IsWhiteSpace(t[0])
    requires EndsWith(t, ";")
    ensures t[..|t| - 1] + ";" == t
    ensures t[..|t| - 1] == sql[i..j - 1]
    ensures t[..|t| - 1] == [] || !IsWhiteSpace(t[..|t| - 1][0])
  {
    assert t[|t| - 1..] == ";";
  }

  /** _IsCSharpIdentifierStart. */
  predicate IsCSharpIdentifierStart(c: char) {
    IsLetterOrDigit(c) || c == '_' || c == '\\' || c == '$' || c == '@'
  }

  /** _IsTargetComment: only such comments produce nodes. */
  predicate IsTargetComment(comment: string) {
    |comment| > 0 && IsCSharpIdentifierStart(comment[0])
  }

  predicate IsIfComment(comment: string) {
    StartsWith(comment, "IF")
  }

  predicate IsBeginComment(comment: string) {
    comment == "BEGIN"
  }

  predicate IsEndComment(comment: string) {
    comment == "END"
  }

  /** The directive comments are target comments, and each comment is at most one of them. */
  lemma DirectiveCommentsAreDistinct(comment: string)
    ensures IsIfComment(comment) || IsBeginComment(comment) || IsEndComment(comment) ==> IsTargetComment(comment)
    ensures !(IsIfComment(comment) && IsBeginComment(comment))
    ensures !(IsIfComment(comment) && IsEndComment(comment))
    ensures !(IsBeginComment(comment) && IsEndComment(comment))
  {
    if IsIfComment(comment) {
      assert comment[0] == 'I' && comment[1] == 'F';
    }
  }

  /** The condition of an IF comment: the text after `IF`, trimmed. */
  function IfCondition(comment: string): string
    requires IsIfComment(comment)
  {
    Trim(comment[2..])
  }

  /** The errors parsing can raise. */
  predicate IsParseError(e: SqlError) {
    e.TokenNotClosed? || e.EndCommentNotFound? || e.IfConditionNotFound?
  }

  /** The first word of a fragment, as SkipToken reads it after the leading white space, and
      where the text after that word and the white space following it begins. */
  function LeadingWord(sql: string): (r: (string, nat))
    ensures r.1 <= |sql|
  {
    var a := SkipSpaces(sql, 0);
    var b := SkipTokenEnd(sql, a);
    (sql[a..b], SkipSpaces(sql, b))
  }

  predicate IsAndOr(word: string) {
    ToUpper(word) == "AND" || ToUpper(word) == "OR"
  }

  /** The node a SQL fragment becomes under the node on top of the stack: at the start of an
      IF or ELSE body a leading AND/OR is split off as a prefix, otherwise the whole text. */
  function FragmentNode(text: string, top: OpenNode): Node {
    var (word, split) := LeadingWord(text);
    if (top.OpenIf? || top.OpenElse?) && ChildSize(top) == 0 && IsAndOr(word)
    then PrefixSqlNode(text[..split], text[split..])
    else SqlNode(text)
  }

  /** A prefix node keeps the whole fragment: its prefix is white space, the AND or OR, and
      white space, and the prefix followed by the rest is the fragment. */
  lemma PrefixSplitsFragment(text: string, top: OpenNode)
    ensures FragmentNode(text, top).PrefixSqlNode? ==>
      var n := FragmentNode(text, top);
      var a := SkipSpaces(text, 0);
      var b := SkipTokenEnd(text, a);
      n.prefix + n.sql == text && a <= b <= |n.prefix| &&
      IsAndOr(n.prefix[a..b]) &&
      (forall k :: 0 <= k < a ==> IsWhiteSpace(n.prefix[k])) &&
      (forall k :: b <= k < |n.prefix| ==> IsWhiteSpace(n.prefix[k]))
    ensures FragmentNode(text, top).SqlNode? ==> FragmentNode(text, top).sql == text
    ensures FragmentNode(text, top).PrefixSqlNode? ==> (top.OpenIf? || top.OpenElse?) && ChildSize(top) == 0
  {
    var a := SkipSpaces(text, 0);
    var b := SkipTokenEnd(text, a);
    var c := SkipSpaces(text, b);
    assert LeadingWord(text) == (text[a..b], c);
    var n := FragmentNode(text, top);
    if n.PrefixSqlNode? {
      var prefix := text[..c];
      assert n.prefix == prefix && n.sql == text[c..];
      assert prefix + text[c..] == text;
      assert prefix[a..b] == text[a..b];
      SkipSpacesSkipsOnlySpaces(text, 0);
      SkipSpacesSkipsOnlySpaces(text, b);
      assert forall k :: 0 <= k < a ==> IsWhiteSpace(prefix[k]) by {
        forall k | 0 <= k < a ensures IsWhiteSpace(prefix[k]) {
          assert prefix[k] == text[k];
        }
      }
      assert forall k :: b <= k < c ==> IsWhiteSpace(prefix[k]) by {
        forall k | b <= k < c ensures IsWhiteSpace(prefix[k]) {
          assert prefix[k] == text[k];
        }
      }
    }
  }

  /** The node a directive comment becomes, given the literal SkipToken consumed after it. */
  function DirectiveNode(expression: string, literal: string): Node {
    if StartsWith(literal, "(") && EndsWith(literal, ")") then ParenBindVariableNode(expression)
    else if StartsWith(expression, "$") then EmbeddedValueNode(expression[1..])
    else BindVariableNode(expression)
  }

  function Top(s: seq<OpenNode>): OpenNode
    requires |s| > 0
  {
    s[|s| - 1]
  }

  function Below(s: seq<OpenNode>): seq<OpenNode>
    requires |s| > 0
  {
    s[..|s| - 1]
  }

  /** The top of the stack gained children, or an IF on top became its ELSE; nothing else
      about it changed. */
  predicate Extends(a: OpenNode, b: OpenNode) {
    (b == a.(children := b.children) && a.children <= b.children) ||
    (a.OpenIf? && b.OpenElse? && b.ifExpression == a.expression && a.children <= b.ifChildren)
  }

  lemma ExtendsTransitive(a: OpenNode, b: OpenNode, c: OpenNode)
    requires Extends(a, b) && Extends(b, c)
    ensures Extends(a, c)
  {
  }

  /** The stack has the same depth and the same nodes below the top. */
  predicate SameBelow(before: seq<OpenNode>, after: seq<OpenNode>) {
    |before| == |after| && |before| > 0 && Below(before) == Below(after)
  }

  /** What a completed token leaves: the same stack below the top, whose top only grew. */
  predicate Grown(before: seq<OpenNode>, after: seq<OpenNode>) {
    SameBelow(before, after) && Extends(Top(before), Top(after))
  }

  lemma AddChildGrows(s: seq<OpenNode>, child: Node)
    requires |s| > 0
    ensures Grown(s, Below(s) + [AddChild(Top(s), child)])
  {
    var t := Below(s) + [AddChild(Top(s), child)];
    assert Below(t) == Below(s);
  }

  /** The parser between two tokens: the scanner state and the stack of open nodes. */
  datatype Progress = Progress(tok: TokState, stack: seq<OpenNode>)

  /** Where a block ends: the scanner state after its END and the block as it was filled. */
  datatype BlockEnd = BlockEnd(tok: TokState, block: OpenNode)

  /** IsElseMode over a stack. */
  predicate InElse(stack: seq<OpenNode>) {
    exists i :: 0 <= i < |stack| && stack[i].OpenElse?
  }

  /** Peek().AddChild(child) on a stack. */
  function PushChild(stack: seq<OpenNode>, child: Node): seq<OpenNode>
    requires |stack| > 0
  {
    Below(stack) + [AddChild(Top(stack), child)]
  }

  /** What ParseSql does with the fragment `text`. */
  function SqlStep(text: string, stack: seq<OpenNode>): seq<OpenNode>
    requires |stack| > 0
  {
    var sql := if InElse(stack) then Replace(text, "--", "") else text;
    PushChild(stack, FragmentNode(sql, Top(stack)))
  }

  /** What ParseElse does: an IF on top becomes its ElseNode and the white space after the
      marker is skipped; under any other node nothing happens. */
  function ElseStep(sql: string, st: TokState, stack: seq<OpenNode>): Progress
    requires st.position <= |sql| && |stack| > 0
  {
    var top := Top(stack);
    if top.OpenIf?
    then Progress(TokState(SkipSpaces(sql, st.position), Sql, st.bindNum),
                  Below(stack) + [OpenElse(top.expression, top.children, [])])
    else Progress(st, stack)
  }

  /** The token Next() just produced is one ParseToken can dispatch on. */
  predicate TokenReady(st: TokState, tokenType: TokenType, token: Option<string>) {
    (tokenType in {Sql, Comment, BindVariable} ==> token.Some?) &&
    (tokenType in {Comment, Else} ==> st.nextType == Sql)
  }

  /** ParseToken, the scanner being in state `st` after producing `tokenType` and `token`. */
  ghost function TokenSpec(sql: string, st: TokState, tokenType: TokenType, token: Option<string>,
                           stack: seq<OpenNode>): (r: Result<Progress>)
    requires ValidState(sql, st) && |stack| > 0 && TokenReady(st, tokenType, token)
    ensures r.Err? ==> IsParseError(r.error)
    ensures r.Ok? ==>
      ValidState(sql, r.value.tok) && Measure(sql, r.value.tok) <= Measure(sql, st) &&
      Grown(stack, r.value.stack)
    decreases Measure(sql, st), 3
  {
    assert Extends(Top(stack), Top(stack));
    match tokenType
    case Sql =>
      var text := if InElse(stack) then Replace(token.value, "--", "") else token.value;
      AddChildGrows(stack, FragmentNode(text, Top(stack)));
      Ok(Progress(st, SqlStep(token.value, stack)))
    case Comment => CommentSpec(sql, st, token.value, stack)
    case Else =>
      assert Below(ElseStep(sql, st, stack).stack) == Below(stack);
      Ok(ElseStep(sql, st, stack))
    case BindVariable =>
      AddChildGrows(stack, BindVariableNode(token.value));
      Ok(Progress(st, PushChild(stack, BindVariableNode(token.value))))
    case Eof => Ok(Progress(st, stack))
  }

  /** ParseComment: IF and BEGIN parse a block up to its END, an IF without a condition is an
      error, END and comments that are not directives add nothing, and any other directive
      binds the literal SkipToken consumes after it. */
  ghost function CommentSpec(sql: string, st: TokState, comment: string, stack: seq<OpenNode>): (r: Result<Progress>)
    requires ValidState(sql, st) && st.nextType == Sql && |stack| > 0
    ensures r.Err? ==> IsParseError(r.error)
    ensures r.Ok? ==>
      ValidState(sql, r.value.tok) && Measure(sql, r.value.tok) <= Measure(sql, st) &&
      Grown(stack, r.value.stack)
    decreases Measure(sql, st), 2
  {
    assert Extends(Top(stack), Top(stack));
    if !IsTargetComment(comment) then Ok(Progress(st, stack))
    else if IsIfComment(comment) then
      var condition := IfCondition(comment);
      if condition == [] then Err(IfConditionNotFound)
      else BlockSpec(sql, st, stack, OpenIf(Rewrite(condition), []))
    else if IsBeginComment(comment) then BlockSpec(sql, st, stack, OpenBegin([]))
    else if IsEndComment(comment) then Ok(Progress(st, stack))
    else
      var e := SkipTokenEnd(sql, st.position);
      var node := DirectiveNode(comment, sql[st.position..e]);
      AddChildGrows(stack, node);
      Ok(Progress(TokState(e, Sql, st.bindNum), PushChild(stack, node)))
  }

  /** ParseIf and ParseBegin: `block` is pushed, filled up to its END and closed into the node
      below it. */
  ghost function BlockSpec(sql: string, st: TokState, stack: seq<OpenNode>, block: OpenNode): (r: Result<Progress>)
    requires ValidState(sql, st) && |stack| > 0
    ensures r.Err? ==> IsParseError(r.error)
    ensures r.Ok? ==>
      ValidState(sql, r.value.tok) && Measure(sql, r.value.tok) <= Measure(sql, st) &&
      Grown(stack, r.value.stack)
    decreases Measure(sql, st), 1
  {
    match EndSpec(sql, st, stack + [block])
    case Err(e) => Err(e)
    case Ok(end) =>
      AddChildGrows(stack, Close(end.block));
      Ok(Progress(end.tok, PushChild(stack, Close(end.block))))
  }

  /** ParseEnd: the tokens of the block on top of the stack are parsed until a comment that
      is exactly END; the end of the text first is EndCommentNotFound. */
  ghost function EndSpec(sql: string, st: TokState, stack: seq<OpenNode>): (r: Result<BlockEnd>)
    requires ValidState(sql, st) && |stack| > 0
    ensures r.Err? ==> IsParseError(r.error)
    ensures r.Ok? ==>
      ValidState(sql, r.value.tok) && Measure(sql, r.value.tok) <= Measure(sql, st) &&
      Extends(Top(stack), r.value.block)
    decreases Measure(sql, st), 0
  {
    NextProgress(sql, st);
    NextTokenShape(sql, st);
    match NextSpec(sql, st)
    case Err(e) => Err(e)
    case Ok(step) =>
      if step.tokenType == Eof then Err(EndCommentNotFound)
      else if step.tokenType == Comment && IsEndComment(step.token.value) then
        assert Extends(Top(stack), Top(stack));
        Ok(BlockEnd(step.state, Top(stack)))
      else
        match TokenSpec(sql, step.state, step.tokenType, step.token, stack)
        case Err(e) => Err(e)
        case Ok(p) =>
          var r := EndSpec(sql, p.tok, p.stack);
          if r.Ok? then
            ExtendsTransitive(Top(stack), Top(p.stack), r.value.block);
            r
          else r
  }

  /** Parse: the tokens are parsed under the root on top of the stack until the end of the
      text, which closes the root. */
  ghost function RootSpec(sql: string, st: TokState, stack: seq<OpenNode>): (r: Result<Node>)
    requires ValidState(sql, st) && |stack| > 0
    ensures r.Err? ==> IsParseError(r.error)
    ensures r.Ok? && Top(stack).OpenContainer? ==> r.value.ContainerNode?
    decreases Measure(sql, st)
  {
    NextProgress(sql, st);
    NextTokenShape(sql, st);
    match NextSpec(sql, st)
    case Err(e) => Err(e)
    case Ok(step) =>
      if step.tokenType == Eof then Ok(Close(Top(stack)))
      else
        match TokenSpec(sql, step.state, step.tokenType, step.token, stack)
        case Err(e) => Err(e)
        case Ok(p) => RootSpec(sql, p.tok, p.stack)
  }

  /** The tree `new Parser(template).Parse()` returns, or the parse error it raises. */
  ghost function ParseTemplate(template: string): (r: Result<Node>)
    ensures r.Err? ==> IsParseError(r.error)
    ensures r.Ok? ==> r.value.ContainerNode?
  {
    RootSpec(Normalize(template), TokState(0, Sql, 0), [OpenContainer([])])
  }

  /** A template without comments, `?` or `-- ELSE` parses to its text as one SqlNode under
      the root, and an empty template to an empty root. */
  lemma PlainTemplate(template: string)
    requires forall k :: !OccursAt(Normalize(template), "/*", k) && !OccursAt(Normalize(template), "?", k)
    requires ElseComment(Normalize(template), 0).0 < 0
    ensures Normalize(template) == [] ==> ParseTemplate(template) == Ok(ContainerNode([]))
    ensures Normalize(template) != [] ==>
      ParseTemplate(template) == Ok(ContainerNode([SqlNode(Normalize(template))]))
  {
    PlainText(Normalize(template));
  }

  lemma PlainText(sql: string)
    requires forall k :: !OccursAt(sql, "/*", k) && !OccursAt(sql, "?", k)
    requires ElseComment(sql, 0).0 < 0
    ensures sql == [] ==> RootSpec(sql, TokState(0, Sql, 0), [OpenContainer([])]) == Ok(ContainerNode([]))
    ensures sql != [] ==>
      RootSpec(sql, TokState(0, Sql, 0), [OpenContainer([])]) == Ok(ContainerNode([SqlNode(sql)]))
  {
    var st := TokState(0, Sql, 0);
    if sql != [] {
      RestIsOneSqlToken(sql, st);
      var next := TokState(|sql|, Eof, 0);
      var root := [OpenContainer([SqlNode(sql)])];
      assert !InElse([OpenContainer([])]);
      assert FragmentNode(sql, OpenContainer([])) == SqlNode(sql);
      assert [] + [SqlNode(sql)] == [SqlNode(sql)];
      assert Below([OpenContainer([])]) == [];
      assert SqlStep(sql, [OpenContainer([])]) == root;
      assert TokenSpec(sql, next, Sql, Some(sql), [OpenContainer([])]) == Ok(Progress(next, root));
      assert RootSpec(sql, next, root) == Ok(ContainerNode([SqlNode(sql)]));
    }
  }


  class Parser {
    var stack: seq<OpenNode>
    const tokenizer: SqlTokenizerImpl

    constructor (sql: string)
      ensures fresh(tokenizer) && tokenizer.Valid() && tokenizer.sql == Normalize(sql)
      ensures tokenizer.State() == TokState(0, Sql, 0) && stack == []
    {
      var s := Trim(sql);
      if EndsWith(s, ";") {
        s := s[..|s| - 1];
      }
      tokenizer := new SqlTokenizerImpl(s);
      stack := [];
    }

    /** The tokenizer's measure, which every token read decreases. */
    ghost function TokensLeft(): int
      reads this, tokenizer
    {
      Measure(tokenizer.sql, tokenizer.State())
    }

    /** The tokenizer holds a token ParseToken can dispatch on. */
    ghost predicate AtToken()
      reads this, tokenizer
    {
      tokenizer.Valid() && |stack| > 0 &&
      (tokenizer.tokenType in {Sql, Comment, BindVariable} ==> tokenizer.token.Some?) &&
      (tokenizer.tokenType in {Comment, Else} ==> tokenizer.nextTokenType == Sql)
    }

    /** The parser has reached what `s` specifies: its error, or its scanner state and stack. */
    ghost predicate Reached(s: Result<Progress>, r: Result<()>)
      reads this, tokenizer
    {
      if s.Err? then r == Err(s.error)
      else r == Ok(()) && tokenizer.Valid() && tokenizer.State() == s.value.tok && stack == s.value.stack
    }

    /** Parse: the root ContainerNode of the template. */
    method Parse() returns (r: Result<Node>)
      requires tokenizer.Valid()
      modifies this, tokenizer
      ensures r == RootSpec(tokenizer.sql, old(tokenizer.State()), old(stack) + [OpenContainer([])])
      ensures r.Ok? ==> r.value.ContainerNode? && stack == old(stack)
    {
      Push(OpenContainer([]));
      ghost var spec := RootSpec(tokenizer.sql, tokenizer.State(), stack);
      while true
        invariant tokenizer.Valid() && |stack| == |old(stack)| + 1 && Below(stack) == old(stack)
        invariant Top(stack).OpenContainer?
        invariant RootSpec(tokenizer.sql, tokenizer.State(), stack) == spec
        decreases TokensLeft()
      {
        ghost var st := tokenizer.State();
        NextProgress(tokenizer.sql, st);
        NextTokenShape(tokenizer.sql, st);
        var t := tokenizer.Next();
        if t.Err? {
          return Err(t.error);
        }
        if t.value == Eof {
          break;
        }
        ghost var before := stack;
        var s := ParseToken();
        if s.Err? {
          return Err(s.error);
        }
        assert Extends(Top(before), Top(stack));
      }
      var root := Pop();
      r := Ok(Close(root));
    }

    /** ParseToken: dispatch on the type of the token just read. */
    method ParseToken() returns (r: Result<()>)
      requires AtToken()
      modifies this, tokenizer
      ensures Reached(TokenSpec(tokenizer.sql, old(tokenizer.State()), old(tokenizer.tokenType),
                                old(tokenizer.token), old(stack)), r)
      ensures r == Err(EndCommentNotFound) ==> tokenizer.tokenType == Eof
      decreases TokensLeft(), 3
    {
      r := Ok(());
      match tokenizer.tokenType {
        case Sql =>
          ParseSql();
        case Comment =>
          r := ParseComment();
        case Else =>
          ParseElse();
        case BindVariable =>
          ParseBindVariable();
        case Eof =>
      }
    }

    /** ParseSql: the fragment becomes a child of the node on top of the stack. While an
        ELSE is open anywhere on the stack, `--` is deleted from the fragment first. */
    method ParseSql()
      requires |stack| > 0 && tokenizer.token.Some?
      modifies this
      ensures stack == SqlStep(tokenizer.token.value, old(stack))
    {
      var sql := tokenizer.token.value;
      var elseMode := IsElseMode();
      if elseMode {
        sql := Replace(sql, "--", "");
      }
      var node := Peek();
      if (node.OpenIf? || node.OpenElse?) && ChildSize(node) == 0 {
        var token, before, after := ReadLeadingWord(sql);
        if ToUpper(token) == "AND" || ToUpper(token) == "OR" {
          AddToTop(PrefixSqlNode(before, after));
        } else {
          AddToTop(SqlNode(sql));
        }
      } else {
        AddToTop(SqlNode(sql));
      }
    }

    /** The first word of a fragment, read by a tokenizer of its own over the fragment, with
        the text before and after the white space that follows it. */
    method ReadLeadingWord(sql: string) returns (token: string, before: string, after: string)
      ensures token == LeadingWord(sql).0
      ensures before == sql[..LeadingWord(sql).1] && after == sql[LeadingWord(sql).1..]
    {
      var st := new SqlTokenizerImpl(sql);
      var _ := st.SkipWhitespace();
      token := st.SkipToken();
      var _ := st.SkipWhitespace();
      before := st.Before();
      after := st.After();
    }

    /** ParseComment: IF and BEGIN open a block, END outside a block and comments that are
        not directives add nothing, and any other directive binds the literal after it. */
    method ParseComment() returns (r: Result<()>)
      requires AtToken() && tokenizer.tokenType == Comment
      modifies this, tokenizer
      ensures Reached(CommentSpec(tokenizer.sql, old(tokenizer.State()), old(tokenizer.token.value), old(stack)), r)
      ensures r == Err(EndCommentNotFound) ==> tokenizer.tokenType == Eof
      ensures var comment := old(tokenizer.token.value);
        r.Ok? && IsTargetComment(comment) && (IsIfComment(comment) || IsBeginComment(comment)) ==>
          tokenizer.tokenType == Comment && tokenizer.token == Some("END")
      decreases TokensLeft(), 2
    {
      var comment := tokenizer.token.value;
      r := Ok(());
      if IsTargetComment(comment) {
        if IsIfComment(comment) {
          r := ParseIf();
        } else if IsBeginComment(comment) {
          r := ParseBegin();
        } else if IsEndComment(comment) {
        } else {
          ParseCommentBindVariable();
        }
      }
    }

    /** ParseIf: an IF with an empty condition is an error; otherwise the block up to its END
        becomes an IfNode holding the rewritten condition. */
    method ParseIf() returns (r: Result<()>)
      requires AtToken() && tokenizer.tokenType == Comment && IsIfComment(tokenizer.token.value)
      modifies this, tokenizer
      ensures var condition := IfCondition(old(tokenizer.token.value));
        condition == [] ==> r == Err(IfConditionNotFound) && stack == old(stack)
      ensures var condition := IfCondition(old(tokenizer.token.value));
        condition != [] ==>
          Reached(BlockSpec(tokenizer.sql, old(tokenizer.State()), old(stack), OpenIf(Rewrite(condition), [])), r)
      ensures r == Err(EndCommentNotFound) ==> tokenizer.tokenType == Eof
      ensures r.Ok? ==> tokenizer.tokenType == Comment && tokenizer.token == Some("END")
      decreases TokensLeft(), 1
    {
      var condition := Trim(tokenizer.token.value[2..]);
      if |condition| == 0 {
        return Err(IfConditionNotFound);
      }
      ghost var st := tokenizer.State();
      var expressionUtil := new ExpressionUtil();
      var expression := expressionUtil.ParseExpression(condition);
      assert tokenizer.State() == st && stack == old(stack);
      Push(OpenIf(expression, []));
      assert Below(stack) == old(stack);
      r := ParseEnd();
    }

    /** ParseBegin: the block up to its END becomes a BeginNode. */
    method ParseBegin() returns (r: Result<()>)
      requires AtToken() && tokenizer.tokenType == Comment
      modifies this, tokenizer
      ensures Reached(BlockSpec(tokenizer.sql, old(tokenizer.State()), old(stack), OpenBegin([])), r)
      ensures r == Err(EndCommentNotFound) ==> tokenizer.tokenType == Eof
      ensures r.Ok? ==> tokenizer.tokenType == Comment && tokenizer.token == Some("END")
      decreases TokensLeft(), 1
    {
      Push(OpenBegin([]));
      assert Below(stack) == old(stack);
      r := ParseEnd();
    }

    /** ParseEnd: parse the tokens of the block on top of the stack until a comment that is
        exactly END, then close the block into its parent; the end of the text first is an
        error. */
    method ParseEnd() returns (r: Result<()>)
      requires tokenizer.Valid() && |stack| > 1
      modifies this, tokenizer
      ensures var s := EndSpec(tokenizer.sql, old(tokenizer.State()), old(stack));
        s.Err? ==> r == Err(s.error)
      ensures var s := EndSpec(tokenizer.sql, old(tokenizer.State()), old(stack));
        s.Ok? ==>
          r == Ok(()) && tokenizer.Valid() && tokenizer.State() == s.value.tok &&
          stack == PushChild(Below(old(stack)), Close(s.value.block))
      ensures r == Err(EndCommentNotFound) ==> tokenizer.tokenType == Eof
      ensures r.Ok? ==> tokenizer.tokenType == Comment && tokenizer.token == Some("END")
      decreases TokensLeft(), 0
    {
      ghost var spec := EndSpec(tokenizer.sql, tokenizer.State(), stack);
      while true
        invariant tokenizer.Valid() && TokensLeft() <= old(TokensLeft())
        invariant SameBelow(old(stack), stack)
        invariant EndSpec(tokenizer.sql, tokenizer.State(), stack) == spec
        decreases TokensLeft()
      {
        ghost var st := tokenizer.State();
        NextProgress(tokenizer.sql, st);
        NextTokenShape(tokenizer.sql, st);
        var t := tokenizer.Next();
        if t.Err? {
          return Err(t.error);
        }
        if t.value == Eof {
          return Err(EndCommentNotFound);
        }
        if tokenizer.tokenType == Comment && IsEndComment(tokenizer.token.value) {
          var block := Pop();
          assert Below(old(stack)) == stack;
          AddToTop(Close(block));
          return Ok(());
        }
        var s := ParseToken();
        if s.Err? {
          return s;
        }
      }
    }

    /** ParseElse: only an IF on top of the stack takes an ELSE; it is replaced by its
        ElseNode and the white space after the marker is skipped. Otherwise nothing happens. */
    method ParseElse()
      requires tokenizer.Valid() && |stack| > 0 && tokenizer.nextTokenType == Sql
      modifies this, tokenizer
      ensures tokenizer.Valid() && Progress(tokenizer.State(), stack) == ElseStep(tokenizer.sql, old(tokenizer.State()), old(stack))
    {
      var parent := Peek();
      if !parent.OpenIf? {
        return;
      }
      var ifNode := Pop();
      Push(OpenElse(ifNode.expression, ifNode.children, []));
      var _ := tokenizer.SkipWhitespace();
    }

    /** ParseCommentBindVariable: a directive comment binds the literal that follows it;
        SkipToken consumes that literal. */
    method ParseCommentBindVariable()
      requires tokenizer.Valid() && |stack| > 0 && tokenizer.token.Some? && tokenizer.nextTokenType == Sql
      modifies this, tokenizer
      ensures tokenizer.position == SkipTokenEnd(tokenizer.sql, old(tokenizer.position))
      ensures tokenizer.nextTokenType == Sql && tokenizer.bindVariableNum == old(tokenizer.bindVariableNum)
      ensures stack == Below(old(stack)) + [AddChild(Top(old(stack)),
        DirectiveNode(old(tokenizer.token.value), tokenizer.sql[old(tokenizer.position)..tokenizer.position]))]
      ensures Grown(old(stack), stack) && tokenizer.Valid() && TokensLeft() <= old(TokensLeft())
    {
      var expr := tokenizer.token.value;
      var s := tokenizer.SkipToken();
      if StartsWith(s, "(") && EndsWith(s, ")") {
        AddToTop(ParenBindVariableNode(expr));
      } else if StartsWith(expr, "$") {
        AddToTop(EmbeddedValueNode(expr[1..]));
      } else {
        AddToTop(BindVariableNode(expr));
      }
      AddChildGrows(old(stack), DirectiveNode(expr, s));
    }

    /** ParseBindVariable: a bare `?` becomes a BindVariableNode named by its token. */
    method ParseBindVariable()
      requires |stack| > 0 && tokenizer.token.Some?
      modifies this
      ensures stack == Below(old(stack)) + [AddChild(Top(old(stack)), BindVariableNode(tokenizer.token.value))]
      ensures Grown(old(stack), stack)
    {
      var expr := tokenizer.token.value;
      AddToTop(BindVariableNode(expr));
      AddChildGrows(old(stack), BindVariableNode(expr));
    }

    /** Peek().AddChild(node). */
    method AddToTop(node: Node)
      requires |stack| > 0
      modifies this
      ensures stack == Below(old(stack)) + [AddChild(Top(old(stack)), node)]
    {
      stack := Below(stack) + [AddChild(Top(stack), node)];
    }

    method Pop() returns (n: OpenNode)
      requires |stack| > 0
      modifies this
      ensures n == Top(old(stack)) && stack == Below(old(stack))
    {
      n := stack[|stack| - 1];
      stack := stack[..|stack| - 1];
    }

    function Peek(): (n: OpenNode)
      reads this
      requires |stack| > 0
      ensures n == stack[|stack| - 1]
    {
      stack[|stack| - 1]
    }

    method Push(n: OpenNode)
      modifies this
      ensures stack == old(stack) + [n]
    {
      stack := stack + [n];
    }

    /** IsElseMode: whether an ElseNode is anywhere on the stack. */
    method IsElseMode() returns (r: bool)
      ensures r <==> exists i :: 0 <= i < |stack| && stack[i].OpenElse?
    {
      for i := 0 to |stack|
        invariant forall j :: 0 <= j < i ==> !stack[j].OpenElse?
      {
        if stack[i].OpenElse? {
          return true;
        }
      }
      return false;
    }
  }
}
