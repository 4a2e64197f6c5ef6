/**
 * SqlTokenizerImpl: splits a SQL template into SQL text, comments, bind markers (`?`)
 * and `-- ELSE` markers. Scanning is driven by a position and a "next token type" that
 * each step sets for the following one.
 */
module SqlTokenizer {
  import opened Text
  import opened Errors

  datatype TokenType = Sql | Comment | Else | BindVariable | Eof

  /** GetNextStartPos: the nearest of the three marker positions, -1 when none is found. */
  function GetNextStartPos(commentStartPos: int, elseCommentStartPos: int,
                           bindVariableStartPos: int): (r: int)
    ensures r >= 0 <==> (commentStartPos >= 0 || elseCommentStartPos >= 0 || bindVariableStartPos >= 0)
    ensures r < 0 ==> r == -1
    ensures r >= 0 ==> r == commentStartPos || r == elseCommentStartPos || r == bindVariableStartPos
    ensures commentStartPos >= 0 ==> r <= commentStartPos
    ensures elseCommentStartPos >= 0 ==> r <= elseCommentStartPos
    ensures bindVariableStartPos >= 0 ==> r <= bindVariableStartPos
  {
    var p0 := -1;
    var p1 := if commentStartPos >= 0 then commentStartPos else p0;
    var p2 := if elseCommentStartPos >= 0 && (p1 < 0 || elseCommentStartPos < p1)
              then elseCommentStartPos else p1;
    if bindVariableStartPos >= 0 && (p2 < 0 || bindVariableStartPos < p2)
    then bindVariableStartPos else p2
  }

  /** Where a `-- ELSE` marker starts and how long it is, or (-1, -1). Only the first `--` at
      or after `pos` is examined; `ELSE` must follow it after white space and must not end
      the text. */
  function ElseComment(sql: string, pos: nat): (r: (int, int))
    requires pos <= |sql|
  {
    var lineCommentStartPos := IndexOf(sql, "--", pos);
    if lineCommentStartPos >= 0 then
      var skipPos := SkipSpaces(sql, lineCommentStartPos + 2);
      if skipPos + 4 < |sql| && sql[skipPos..skipPos + 4] == "ELSE"
      then (lineCommentStartPos, skipPos + 4 - lineCommentStartPos)
      else (-1, -1)
    else (-1, -1)
  }

  /** The scanner state the source keeps in Position, _nextTokenType and _bindVariableNum. */
  datatype TokState = TokState(position: nat, nextType: TokenType, bindNum: nat)

  /** What one call of Next() leaves behind: the new state, TokenType and Token (null as None). */
  datatype Step = Step(state: TokState, tokenType: TokenType, token: Option<string>)

  ghost predicate ValidState(sql: string, st: TokState) {
    st.position <= |sql| &&
    (st.nextType == BindVariable ==> st.position < |sql| && sql[st.position] == '?')
  }

  /** Decreases with every token Next() produces. */
  function Measure(sql: string, st: TokState): int {
    3 * (|sql| - st.position) +
    (match st.nextType
     case Comment => 1
     case Else => 1
     case BindVariable => -1
     case _ => 0)
  }

  /** The boundary ParseSql finds: where the SQL fragment ends, the type of the token after
      it and the position that token starts scanning from. */
  datatype SqlScan = SqlScan(nextStart: int, nextType: TokenType, newPosition: nat)

  function ScanSql(sql: string, pos: nat): (r: SqlScan)
    requires pos <= |sql|
    ensures r.nextStart < 0 ==> r.nextType == Eof && r.newPosition == |sql|
    ensures r.nextStart >= 0 ==> pos <= r.nextStart <= r.newPosition <= |sql|
    ensures r.nextType == Comment ==> r.newPosition == r.nextStart + 2
    ensures r.nextType == Else ==> r.newPosition < |sql| && r.newPosition >= r.nextStart + 6
    ensures r.nextType == BindVariable ==> r.newPosition == r.nextStart < |sql| && sql[r.nextStart] == '?'
    ensures r.nextType != Sql
  {
    var commentStartPos := IndexOf(sql, "/*", pos);
    var (elseCommentStartPos, elseCommentLength) := ElseComment(sql, pos);
    var bindVariableStartPos := IndexOf(sql, "?", pos);
    var nextStartPos := GetNextStartPos(commentStartPos, elseCommentStartPos, bindVariableStartPos);
    if nextStartPos < 0 then SqlScan(-1, Eof, |sql|)
    else if nextStartPos == commentStartPos then SqlScan(nextStartPos, Comment, commentStartPos + 2)
    else if nextStartPos == elseCommentStartPos
    then SqlScan(nextStartPos, Else, elseCommentStartPos + elseCommentLength)
    else SqlScan(nextStartPos, BindVariable, bindVariableStartPos)
  }

  /** The name ParseBindVariable gives the k-th `?`. */
  function BindVariableName(k: nat): string {
    "$" + NatToString(k)
  }

  /** One call of Next() from state `st`. */
  function NextSpec(sql: string, st: TokState): Result<Step>
    requires ValidState(sql, st)
    decreases Measure(sql, st), 1
  {
    if st.position >= |sql| then Ok(Step(st.(nextType := Eof), Eof, None))
    else
      match st.nextType
      case Sql => ParseSqlSpec(sql, st)
      case Comment =>
        var commentEndPos := IndexOf(sql, "*/", st.position);
        if commentEndPos < 0 then Err(TokenNotClosed("*/", sql[st.position..]))
        else Ok(Step(TokState(commentEndPos + 2, Sql, st.bindNum), Comment,
                     Some(sql[st.position..commentEndPos])))
      case Else => Ok(Step(st.(nextType := Sql), Else, None))
      case BindVariable =>
        Ok(Step(TokState(st.position + 1, Sql, st.bindNum + 1), BindVariable,
                Some(BindVariableName(st.bindNum + 1))))
      case Eof => Ok(Step(st.(nextType := Eof), Eof, None))
  }

  /** ParseSql from state `st`: an empty fragment is skipped by calling Next() again. */
  function ParseSqlSpec(sql: string, st: TokState): Result<Step>
    requires ValidState(sql, st) && st.position < |sql| && st.nextType == Sql
    decreases Measure(sql, st), 0
  {
    var scan := ScanSql(sql, st.position);
    if scan.nextStart < 0 then Ok(Step(TokState(|sql|, Eof, st.bindNum), Sql, Some(sql[st.position..])))
    else
      var next := TokState(scan.newPosition, scan.nextType, st.bindNum);
      if scan.nextStart == st.position then NextSpec(sql, next)
      else Ok(Step(next, Sql, Some(sql[st.position..scan.nextStart])))
  }

  /** The index at which SkipToken stops scanning, starting at `i`. */
  function ScanTokenFrom(sql: string, i: nat, quoting: bool, quote: char): (r: nat)
    requires i <= |sql|
    ensures i <= r <= |sql|
    decreases |sql| - i
  {
    if i >= |sql| then |sql|
    else
      var c := sql[i];
      if (IsWhiteSpace(c) || c == ',' || c == ')' || c == '(') && !quoting then i
      else if c == '/' && i + 1 < |sql| && sql[i + 1] == '*' then i
      else if c == '-' && i + 1 < |sql| && sql[i + 1] == '-' then i
      else if quoting && quote == '\'' && c == '\'' && (i + 1 >= |sql| || sql[i + 1] != '\'') then i + 1
      else if quoting && c == quote then i + 1
      else ScanTokenFrom(sql, i + 1, quoting, quote)
  }

  /** Where SkipToken leaves Position when it starts at `pos`. */
  function SkipTokenEnd(sql: string, pos: nat): (r: nat)
    requires pos <= |sql|
    ensures pos <= r <= |sql|
  {
    var quote := if pos < |sql| then sql[pos] else '\0';
    var quoting := quote == '\'' || quote == '(';
    ScanTokenFrom(sql, if quoting then pos + 1 else pos, quoting, if quote == '(' then ')' else quote)
  }

  /** Every step keeps the state well formed, never increases the measure, and decreases it
      whenever a token other than Eof is produced. */
  lemma {:induction false} NextProgress(sql: string, st: TokState)
    requires ValidState(sql, st)
    ensures NextSpec(sql, st).Ok? ==>
      var step := NextSpec(sql, st).value;
      ValidState(sql, step.state) && Measure(sql, step.state) <= Measure(sql, st) &&
      (step.tokenType != Eof ==> Measure(sql, step.state) < Measure(sql, st))
    decreases Measure(sql, st)
  {
    if st.position < |sql| && st.nextType == Sql {
      var scan := ScanSql(sql, st.position);
      if scan.nextStart >= 0 && scan.nextStart == st.position {
        NextProgress(sql, TokState(scan.newPosition, scan.nextType, st.bindNum));
      }
    }
  }

  /** After a comment, an ELSE marker or a bind marker the scanner is back in the SQL state,
      and every token but ELSE and Eof carries text. */
  lemma {:induction false} NextTokenShape(sql: string, st: TokState)
    requires ValidState(sql, st)
    ensures NextSpec(sql, st).Ok? ==>
      var step := NextSpec(sql, st).value;
      (step.tokenType in {Comment, BindVariable, Else} ==> step.state.nextType == Sql) &&
      (step.tokenType in {Sql, Comment, BindVariable} <==> step.token.Some?)
    ensures NextSpec(sql, st).Err? ==> NextSpec(sql, st).error.TokenNotClosed?
  {
    if st.position < |sql| && st.nextType == Sql {
      var scan := ScanSql(sql, st.position);
      if scan.nextStart >= 0 && scan.nextStart == st.position {
        var next := TokState(scan.newPosition, scan.nextType, st.bindNum);
        assert NextSpec(sql, st) == NextSpec(sql, next);
      }
    }
  }

  /** Next() never returns an empty SQL fragment: when a marker sits at Position it goes on
      to the marker's own token. */
  lemma {:induction false} SqlTokenNeverEmpty(sql: string, st: TokState)
    requires ValidState(sql, st)
    ensures NextSpec(sql, st).Ok? && NextSpec(sql, st).value.tokenType == Sql ==>
      NextSpec(sql, st).value.token.Some? && |NextSpec(sql, st).value.token.value| > 0
  {
    if st.position < |sql| && st.nextType == Sql {
      var scan := ScanSql(sql, st.position);
      if scan.nextStart >= 0 && scan.nextStart == st.position {
        var next := TokState(scan.newPosition, scan.nextType, st.bindNum);
        assert next.nextType != Sql;
        assert NextSpec(sql, st) == NextSpec(sql, next);
      }
    }
  }

  /** The `?` counter moves only on a BindVariable token, which is named `$k` for the new
      count k; so the bind markers are named $1, $2, ... in order of appearance. */
  lemma {:induction false} BindVariablesNumberedInOrder(sql: string, st: TokState)
    requires ValidState(sql, st)
    ensures NextSpec(sql, st).Ok? ==>
      var step := NextSpec(sql, st).value;
      step.state.bindNum == st.bindNum + (if step.tokenType == BindVariable then 1 else 0) &&
      (step.tokenType == BindVariable ==>
         step.token == Some(BindVariableName(step.state.bindNum)) &&
         step.state.position == st.position + 1 && sql[st.position] == '?')
  {
    if st.position < |sql| && st.nextType == Sql {
      var scan := ScanSql(sql, st.position);
      if scan.nextStart >= 0 && scan.nextStart == st.position {
        var next := TokState(scan.newPosition, scan.nextType, st.bindNum);
        assert NextSpec(sql, st) == NextSpec(sql, next);
      }
    }
  }

  /** With no comment opener, no `?` and no `-- ELSE` left, the rest of the text is one SQL
      token, Position reaches the end, and the following call yields Eof. */
  lemma RestIsOneSqlToken(sql: string, st: TokState)
    requires ValidState(sql, st) && st.nextType == Sql && st.position < |sql|
    requires forall k :: st.position <= k ==> !OccursAt(sql, "/*", k) && !OccursAt(sql, "?", k)
    requires ElseComment(sql, st.position).0 < 0
    ensures NextSpec(sql, st) == Ok(Step(TokState(|sql|, Eof, st.bindNum), Sql, Some(sql[st.position..])))
    ensures NextSpec(sql, TokState(|sql|, Eof, st.bindNum)) == Ok(Step(TokState(|sql|, Eof, st.bindNum), Eof, None))
  {
  }

  /** A comment token: without a closing marker after Position the tokenizer fails with
      TokenNotClosed; otherwise the token is the text up to the first closing marker and
      Position moves just past it. */
  lemma CommentTokenOutcome(sql: string, st: TokState)
    requires ValidState(sql, st) && st.nextType == Comment && st.position < |sql|
    ensures (forall k :: st.position <= k ==> !OccursAt(sql, "*/", k)) <==>
            NextSpec(sql, st) == Err(TokenNotClosed("*/", sql[st.position..]))
    ensures NextSpec(sql, st).Ok? ==>
      var step := NextSpec(sql, st).value;
      var e := step.state.position - 2;
      st.position <= e && OccursAt(sql, "*/", e) &&
      (forall k :: st.position <= k < e ==> !OccursAt(sql, "*/", k)) &&
      step.tokenType == Comment && step.token == Some(sql[st.position..e]) &&
      step.state.nextType == Sql && step.state.bindNum == st.bindNum
  {
    IndexOfIsFirst(sql, "*/", st.position);
  }

  /** The `-- ELSE` marker: it is recognised only at the first `--` at or after `pos`, when
      white space and then `ELSE` follow with at least one more character; the next scan
      resumes right after `ELSE`. */
  lemma ElseCommentShape(sql: string, pos: nat)
    requires pos <= |sql|
    ensures var (start, length) := ElseComment(sql, pos);
      start >= 0 ==>
        OccursAt(sql, "--", start) && pos <= start &&
        (forall k :: pos <= k < start ==> !OccursAt(sql, "--", k)) &&
        (forall k :: start + 2 <= k < start + length - 4 ==> IsWhiteSpace(sql[k])) &&
        OccursAt(sql, "ELSE", start + length - 4) && start + length < |sql|
    ensures var first := IndexOf(sql, "--", pos);
      first >= 0 && SkipSpaces(sql, first + 2) + 4 < |sql| && OccursAt(sql, "ELSE", SkipSpaces(sql, first + 2))
      <==> ElseComment(sql, pos).0 >= 0
  {
    IndexOfIsFirst(sql, "--", pos);
    var first := IndexOf(sql, "--", pos);
    if first >= 0 {
      SkipSpacesSkipsOnlySpaces(sql, first + 2);
    }
  }

  /** A stop of SkipToken before index k: an unquoted separator, or the start of a comment
      marker in any mode. */
  predicate StopsBefore(sql: string, k: nat, quoting: bool)
    requires k < |sql|
  {
    ((IsWhiteSpace(sql[k]) || sql[k] == ',' || sql[k] == ')' || sql[k] == '(') && !quoting) ||
    (sql[k] == '/' && k + 1 < |sql| && sql[k + 1] == '*') ||
    (sql[k] == '-' && k + 1 < |sql| && sql[k + 1] == '-')
  }

  /** No stop and no closing character anywhere in sql[i..j]. */
  predicate PlainRun(sql: string, i: nat, j: nat, quoting: bool, quote: char)
    requires i <= j <= |sql|
  {
    forall k :: i <= k < j ==> !StopsBefore(sql, k, quoting) && !(quoting && sql[k] == quote)
  }

  /** SkipToken's scan from `i`: it runs to the first stop (ending before it) or the first
      closing character (ending just after it), whichever comes first, else to the end. */
  lemma {:induction false} ScanTokenFromStops(sql: string, i: nat, quoting: bool, quote: char)
    requires i <= |sql|
    ensures var r := ScanTokenFrom(sql, i, quoting, quote);
      (r == |sql| && PlainRun(sql, i, r, quoting, quote)) ||
      (r < |sql| && StopsBefore(sql, r, quoting) && PlainRun(sql, i, r, quoting, quote)) ||
      (i < r && quoting && sql[r - 1] == quote && !StopsBefore(sql, r - 1, quoting) &&
         PlainRun(sql, i, r - 1, quoting, quote))
    decreases |sql| - i
  {
    if i < |sql| && !StopsBefore(sql, i, quoting) && !(quoting && sql[i] == quote) {
      ScanTokenFromStops(sql, i + 1, quoting, quote);
    }
  }

  /** SkipToken on an unquoted literal stops before white space, `,`, `(`, `)` or a comment
      opener, and the literal it consumes contains none of them. */
  lemma SkipTokenUnquoted(sql: string, pos: nat)
    requires pos < |sql| && sql[pos] != '\'' && sql[pos] != '('
    ensures var e := SkipTokenEnd(sql, pos);
      PlainRun(sql, pos, e, false, sql[pos]) && (e == |sql| || StopsBefore(sql, e, false))
  {
    ScanTokenFromStops(sql, pos, false, sql[pos]);
  }

  /** SkipToken on a literal opened by a quote or a parenthesis ends just after the first
      closing quote or parenthesis, unless a comment opener or the end of the text comes first. */
  lemma SkipTokenQuoted(sql: string, pos: nat)
    requires pos < |sql| && (sql[pos] == '\'' || sql[pos] == '(')
    ensures var close := if sql[pos] == '(' then ')' else '\'';
      var e := SkipTokenEnd(sql, pos);
      pos < e &&
      ((e == |sql| && PlainRun(sql, pos + 1, e, true, close)) ||
       (e < |sql| && StopsBefore(sql, e, true) && PlainRun(sql, pos + 1, e, true, close)) ||
       (pos + 1 < e && sql[e - 1] == close && PlainRun(sql, pos + 1, e - 1, true, close)))
  {
    var close := if sql[pos] == '(' then ')' else '\'';
    ScanTokenFromStops(sql, pos + 1, true, close);
  }

  class SqlTokenizerImpl {
    const sql: string
    var position: nat
    var token: Option<string>
    var tokenType: TokenType
    var nextTokenType: TokenType
    var bindVariableNum: nat

    ghost function State(): TokState
      reads this
    {
      TokState(position, nextTokenType, bindVariableNum)
    }

    ghost predicate Valid()
      reads this
    {
      ValidState(sql, State())
    }

    constructor (sql: string)
      ensures this.sql == sql && Valid()
      ensures State() == TokState(0, Sql, 0) && tokenType == Sql && token == None
    {
      this.sql := sql;
      position := 0;
      token := None;
      tokenType := Sql;
      nextTokenType := Sql;
      bindVariableNum := 0;
    }

    /** Before: the text already consumed. */
    function Before(): (r: string)
      reads this
      requires Valid()
      ensures |r| == position && r <= sql
    {
      sql[..position]
    }

    /** After: the text not yet consumed; Before() + After() is the whole text. */
    function After(): (r: string)
      reads this
      requires Valid()
      ensures |r| == |sql| - position && Before() + r == sql
    {
      sql[position..]
    }

    method Next() returns (r: Result<TokenType>)
      requires Valid()
      modifies this
      ensures NextSpec(sql, old(State())).Err? ==> r == Err(NextSpec(sql, old(State())).error)
      ensures NextSpec(sql, old(State())).Ok? ==>
        var step := NextSpec(sql, old(State())).value;
        r == Ok(step.tokenType) && State() == step.state && tokenType == step.tokenType &&
        token == step.token && Valid()
      decreases Measure(sql, State()), 1
    {
      if position >= |sql| {
        token := None;
        tokenType := Eof;
        nextTokenType := Eof;
        return Ok(tokenType);
      }
      match nextTokenType {
        case Sql => r := ParseSql();
        case Comment => r := ParseComment();
        case Else => ParseElse(); r := Ok(tokenType);
        case BindVariable => ParseBindVariable(); r := Ok(tokenType);
        case Eof => ParseEof(); r := Ok(tokenType);
      }
    }

    /** The SQL state: find the nearest marker and return the text before it. */
    method ParseSql() returns (r: Result<TokenType>)
      requires Valid() && position < |sql| && nextTokenType == Sql
      modifies this
      ensures ParseSqlSpec(sql, old(State())).Err? ==> r == Err(ParseSqlSpec(sql, old(State())).error)
      ensures ParseSqlSpec(sql, old(State())).Ok? ==>
        var step := ParseSqlSpec(sql, old(State())).value;
        r == Ok(step.tokenType) && State() == step.state && tokenType == step.tokenType &&
        token == step.token && Valid()
      decreases Measure(sql, State()), 0
    {
      ghost var st0 := State();
      ghost var scan := ScanSql(sql, position);
      var commentStartPos := IndexOf(sql, "/*", position);
      var lineCommentStartPos := IndexOf(sql, "--", position);
      var bindVariableStartPos := IndexOf(sql, "?", position);
      if bindVariableStartPos < 0 {
        bindVariableStartPos := IndexOf(sql, "?", position);
      }
      var elseCommentStartPos, elseCommentLength := FindElseComment(lineCommentStartPos);
      assert (elseCommentStartPos, elseCommentLength) == ElseComment(sql, position);

      var nextStartPos := GetNextStartPos(commentStartPos, elseCommentStartPos, bindVariableStartPos);
      assert nextStartPos == scan.nextStart;
      if nextStartPos < 0 {
        token := Some(sql[position..]);
        nextTokenType := Eof;
        position := |sql|;
        tokenType := Sql;
        r := Ok(tokenType);
        assert ParseSqlSpec(sql, st0) == Ok(Step(State(), Sql, token));
      } else {
        token := Some(sql[position..nextStartPos]);
        tokenType := Sql;
        var needNext := nextStartPos == position;
        if nextStartPos == commentStartPos {
          nextTokenType := Comment;
          position := commentStartPos + 2;
        } else if nextStartPos == elseCommentStartPos {
          nextTokenType := Else;
          position := elseCommentStartPos + elseCommentLength;
        } else {
          nextTokenType := BindVariable;
          position := bindVariableStartPos;
        }
        assert State() == TokState(scan.newPosition, scan.nextType, st0.bindNum);
        r := Ok(tokenType);
        assert !needNext ==> ParseSqlSpec(sql, st0) == Ok(Step(State(), Sql, token));
        if needNext {
          assert ParseSqlSpec(sql, st0) == NextSpec(sql, State());
          assert Measure(sql, State()) < Measure(sql, st0);
          r := Next();
        }
      }
    }

    /** The `-- ELSE` check of ParseSql, for the first `--` found at or after Position. */
    method FindElseComment(lineCommentStartPos: int) returns (elseCommentStartPos: int, elseCommentLength: int)
      requires Valid() && lineCommentStartPos == IndexOf(sql, "--", position)
      ensures (elseCommentStartPos, elseCommentLength) == ElseComment(sql, position)
    {
      elseCommentStartPos := -1;
      elseCommentLength := -1;
      if lineCommentStartPos >= 0 {
        var skipPos := SkipWhitespaceFrom(lineCommentStartPos + 2);
        if skipPos + 4 < |sql| && sql[skipPos..skipPos + 4] == "ELSE" {
          elseCommentStartPos := lineCommentStartPos;
          elseCommentLength := skipPos + 4 - lineCommentStartPos;
        }
      }
    }

    // The comment state: the text up to the next closing "*/".
    method ParseComment() returns (r: Result<TokenType>)
      requires Valid() && position < |sql| && nextTokenType == Comment
      modifies this
      ensures NextSpec(sql, old(State())).Err? ==> r == Err(NextSpec(sql, old(State())).error)
      ensures NextSpec(sql, old(State())).Ok? ==>
        var step := NextSpec(sql, old(State())).value;
        r == Ok(step.tokenType) && State() == step.state && tokenType == step.tokenType &&
        token == step.token && Valid()
    {
      var commentEndPos := IndexOf(sql, "*/", position);
      if commentEndPos < 0 {
        return Err(TokenNotClosed("*/", sql[position..]));
      }
      token := Some(sql[position..commentEndPos]);
      nextTokenType := Sql;
      position := commentEndPos + 2;
      tokenType := Comment;
      r := Ok(tokenType);
    }

    /** The bind state: name the `?` and step over it. */
    method ParseBindVariable()
      requires Valid() && position < |sql| && nextTokenType == BindVariable
      modifies this
      ensures NextSpec(sql, old(State())).Ok? &&
        var step := NextSpec(sql, old(State())).value;
        State() == step.state && tokenType == step.tokenType && token == step.token && Valid()
    {
      bindVariableNum := bindVariableNum + 1;
      token := Some(BindVariableName(bindVariableNum));
      nextTokenType := Sql;
      position := position + 1;
      tokenType := BindVariable;
    }

    /** The else state: a marker without text. */
    method ParseElse()
      requires Valid() && position < |sql| && nextTokenType == Else
      modifies this
      ensures NextSpec(sql, old(State())).Ok? &&
        var step := NextSpec(sql, old(State())).value;
        State() == step.state && tokenType == step.tokenType && token == step.token && Valid()
    {
      token := None;
      nextTokenType := Sql;
      tokenType := Else;
    }

    method ParseEof()
      requires Valid() && position < |sql| && nextTokenType == Eof
      modifies this
      ensures NextSpec(sql, old(State())).Ok? &&
        var step := NextSpec(sql, old(State())).value;
        State() == step.state && tokenType == step.tokenType && token == step.token && Valid()
    {
      token := None;
      tokenType := Eof;
      nextTokenType := Eof;
    }

    /** _SkipWhitespace(int): the first non-white-space index at or after `from`, or the length. */
    method SkipWhitespaceFrom(from: nat) returns (index: nat)
      requires from <= |sql|
      ensures index == SkipSpaces(sql, from)
    {
      index := |sql|;
      var i := from;
      while i < |sql|
        invariant from <= i <= |sql|
        invariant SkipSpaces(sql, from) == SkipSpaces(sql, i)
        invariant index == |sql|
      {
        if !IsWhiteSpace(sql[i]) {
          index := i;
          break;
        }
        i := i + 1;
      }
    }

    /** SkipToken: consume one literal after a directive comment and return it. */
    method SkipToken() returns (t: string)
      requires Valid()
      modifies this
      ensures Valid() && position == SkipTokenEnd(sql, old(position))
      ensures t == sql[old(position)..position] && token == Some(t)
      ensures tokenType == Sql && nextTokenType == Sql && bindVariableNum == old(bindVariableNum)
    {
      var index := |sql|;
      var quote := if position < |sql| then sql[position] else '\0';
      var quoting := quote == '\'' || quote == '(';
      if quote == '(' {
        quote := ')';
      }
      var i := if quoting then position + 1 else position;
      ghost var start := i;
      while i < |sql|
        invariant start <= i <= |sql|
        invariant ScanTokenFrom(sql, start, quoting, quote) == ScanTokenFrom(sql, i, quoting, quote)
        invariant index == |sql|
      {
        var c := sql[i];
        if (IsWhiteSpace(c) || c == ',' || c == ')' || c == '(') && !quoting {
          index := i;
          break;
        } else if c == '/' && i + 1 < |sql| && sql[i + 1] == '*' {
          index := i;
          break;
        } else if c == '-' && i + 1 < |sql| && sql[i + 1] == '-' {
          index := i;
          break;
        } else if quoting && quote == '\'' && c == '\'' && (i + 1 >= |sql| || sql[i + 1] != '\'') {
          index := i + 1;
          break;
        } else if quoting && c == quote {
          index := i + 1;
          break;
        }
        i := i + 1;
      }
      t := sql[position..index];
      token := Some(t);
      tokenType := Sql;
      nextTokenType := Sql;
      position := index;
    }

    /** _SkipWhitespace(): consume the white space at Position and return it. */
    method SkipWhitespace() returns (t: string)
      requires Valid()
      modifies this
      ensures Valid() && position == SkipSpaces(sql, old(position))
      ensures t == sql[old(position)..position] && token == Some(t)
      ensures tokenType == old(tokenType) && nextTokenType == old(nextTokenType)
      ensures bindVariableNum == old(bindVariableNum)
    {
      var index := SkipWhitespaceFrom(position);
      t := sql[position..index];
      token := Some(t);
      position := index;
    }
  }
}
