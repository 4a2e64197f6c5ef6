# Dapper.OutsideSql template engine, modelled in Dafny

Dapper.OutsideSql runs SQL kept in separate files. These templates carry S2Dao-style comment
directives: `/*IF cond*/ … /*END*/`, `/*BEGIN*/ … /*END*/`, `-- ELSE`, bind comments `/*name*/'x'`,
list binds `/*names*/(…)`, embedded values `/*$name*/` and bare `?` placeholders. The engine
works in two phases.

- **Parse.** `SqlTokenizerImpl` cuts the template into `Sql`, `Comment`, `BindVariable`, `Else`
  and `Eof` tokens. `Parser` drives it with a stack of open nodes and builds a node tree.
  `ExpressionUtil` rewrites each IF condition into a script in which every free identifier
  becomes `self.GetArg('name')`.
- **Render.** Each node's `Accept` appends into a `CommandContextImpl`. The context holds two
  SQL buffers: one with placeholders, one with the values written in. It also holds three
  lockstep lists: the bound values, their types and their names. Arguments are looked up
  case-insensitively, falling back to the parent context. A BEGIN block renders into a child
  context and is spliced into its parent only when an IF inside it fired.
  `DataProviderUtil` picks the placeholder style from the connection class.
  `DynamicParameterUtil` flattens list arguments into `name1…nameN`, the names a list bind
  uses for its elements.

The model has one module per source file, plus `Text` (the .NET string operations the code
calls) and `Errors` (the exceptions, as values).

- The tokenizer, the parser, the expression rewriter, the context and the parameter copier
  update state step by step. They are classes whose methods have the source's loops and
  branches. Each method is proved against a pure specification function: `NextSpec` for the
  tokenizer, `TokenSpec`/`EndSpec`/`RootSpec` for the parser, `Rewrite` for the expression
  rewriter, `LookupIn` and `AppendBind` for the context, `Render` for the nodes and `Flatten`
  for the parameter copier. Lemmas prove what the source promises about those functions.
- The node tree is immutable once parsed, so nodes are a datatype. `Render` states what
  rendering a node does to the context's buffers. The `Accept` methods do it to a
  `CommandContextImpl` object.

## Model

| member | source | states |
|---|---|---|
| SqlTokenizer.GetNextStartPos | Dapper.OutsideSql/SqlParser/SqlTokenizerImpl.cs:96-112 | the result is the smallest non-negative of the three positions, and -1 exactly when all three are negative |
| SqlTokenizer.ScanSql | Dapper.OutsideSql/SqlParser/SqlTokenizerImpl.cs:44-90 | no marker left means the next token is Eof and the position is the length. A comment resumes 2 past its start, an ELSE past `ELSE`, a bind on its `?`, and a SQL token is never the next one. |
| SqlTokenizer.ElseCommentShape | Dapper.OutsideSql/SqlParser/SqlTokenizerImpl.cs:45-60 | only the first `--` is examined. It is an ELSE exactly when white space and then `ELSE` follow with at least one character after it. |
| SqlTokenizer.NextProgress | Dapper.OutsideSql/SqlParser/SqlTokenizerImpl.cs:177-207 | every successful Next keeps the position within the text, and every token except Eof strictly decreases the work left |
| SqlTokenizer.NextTokenShape | Dapper.OutsideSql/SqlParser/SqlTokenizerImpl.cs:114-140 | after a Comment, BindVariable or Else token the next one is SQL. Sql, Comment and BindVariable tokens carry text, Else and Eof none. The only error is TokenNotClosed. |
| SqlTokenizer.SqlTokenNeverEmpty | Dapper.OutsideSql/SqlParser/SqlTokenizerImpl.cs:73-92 | a Sql token is never empty: when a marker sits at the position, Next runs again at once |
| SqlTokenizer.BindVariablesNumberedInOrder | Dapper.OutsideSql/SqlParser/SqlTokenizerImpl.cs:127-133 | the k-th `?` becomes the token `$k`, and the position advances by exactly one |
| SqlTokenizer.RestIsOneSqlToken | Dapper.OutsideSql/SqlParser/SqlTokenizerImpl.cs:62-70 | with no `/*`, `?` or `-- ELSE` left, the rest is one Sql token, the position becomes the length, and the next call returns Eof |
| SqlTokenizer.CommentTokenOutcome | Dapper.OutsideSql/SqlParser/SqlTokenizerImpl.cs:114-125 | TokenNotClosed("*/", rest) exactly when no `*/` follows. Otherwise the token is the text strictly between the markers, and the position moves just past `*/`. |
| SqlTokenizer.ScanTokenFromStops | Dapper.OutsideSql/SqlParser/SqlTokenizerImpl.cs:216-248 | the token scan stops at the first stop character, or just after the closing quote or parenthesis |
| SqlTokenizer.SkipTokenUnquoted | Dapper.OutsideSql/SqlParser/SqlTokenizerImpl.cs:209-255 | an unquoted token runs up to white space, `,`, `(`, `)`, `/*`, `--` or the end |
| SqlTokenizer.SkipTokenQuoted | Dapper.OutsideSql/SqlParser/SqlTokenizerImpl.cs:209-255 | a token starting with `'` or `(` runs to its closing quote or parenthesis, or stops at `/*`, `--` or the end |
| SqlTokenizer.SqlTokenizerImpl.constructor | Dapper.OutsideSql/SqlParser/SqlTokenizerImpl.cs:35-38 | a new tokenizer starts at position 0 with SQL next and no bind numbered yet |
| SqlTokenizer.SqlTokenizerImpl.Before | Dapper.OutsideSql/SqlParser/SqlTokenizerImpl.cs:169 | Before is the text's first Position characters |
| SqlTokenizer.SqlTokenizerImpl.After | Dapper.OutsideSql/SqlParser/SqlTokenizerImpl.cs:171 | Before followed by After is always the whole text |
| SqlTokenizer.SqlTokenizerImpl.Next | Dapper.OutsideSql/SqlParser/SqlTokenizerImpl.cs:177-207 | the returned type, token and new state are those NextSpec gives, and its errors are the method's |
| SqlTokenizer.SqlTokenizerImpl.ParseSql | Dapper.OutsideSql/SqlParser/SqlTokenizerImpl.cs:42-94 | the SQL fragment up to the nearest marker, with the re-invocation of Next on an empty fragment |
| SqlTokenizer.SqlTokenizerImpl.FindElseComment | Dapper.OutsideSql/SqlParser/SqlTokenizerImpl.cs:51-60 | the ELSE comment's start and length are those ElseComment specifies |
| SqlTokenizer.SqlTokenizerImpl.ParseComment | Dapper.OutsideSql/SqlParser/SqlTokenizerImpl.cs:114-125 | a comment token or TokenNotClosed, as NextSpec gives |
| SqlTokenizer.SqlTokenizerImpl.ParseBindVariable | Dapper.OutsideSql/SqlParser/SqlTokenizerImpl.cs:127-133 | the next `$k` token, the position advanced by one |
| SqlTokenizer.SqlTokenizerImpl.ParseElse | Dapper.OutsideSql/SqlParser/SqlTokenizerImpl.cs:135-140 | an Else token with no text, SQL next |
| SqlTokenizer.SqlTokenizerImpl.ParseEof | Dapper.OutsideSql/SqlParser/SqlTokenizerImpl.cs:142-147 | an Eof token with no text, Eof next |
| SqlTokenizer.SqlTokenizerImpl.SkipWhitespaceFrom | Dapper.OutsideSql/SqlParser/SqlTokenizerImpl.cs:149-163 | the first non-white-space index from the given one, or the length |
| SqlTokenizer.SqlTokenizerImpl.SkipToken | Dapper.OutsideSql/SqlParser/SqlTokenizerImpl.cs:209-255 | the token is the text from the old position to where the token scan ends, and the position moves there |
| SqlTokenizer.SqlTokenizerImpl.SkipWhitespace | Dapper.OutsideSql/SqlParser/SqlTokenizerImpl.cs:257-263 | the skipped white space is the token, and the position moves past it |
| SqlParser.NormalizeShape | Dapper.OutsideSql/SqlParser/Parser.cs:37-42 | the text is trimmed, and loses exactly one trailing `;` if it has one. The result is a slice of the input and does not start with white space. |
| SqlParser.DirectiveCommentsAreDistinct | Dapper.OutsideSql/SqlParser/Parser.cs:218-242 | IF, BEGIN and END comments are target comments, and no comment is two of them |
| SqlParser.LeadingWord | Dapper.OutsideSql/SqlParser/Parser.cs:78-81 | the split point after the first word and its trailing white space lies within the fragment |
| SqlParser.PrefixSplitsFragment | Dapper.OutsideSql/SqlParser/Parser.cs:70-91 | a fragment starting an IF or ELSE body with AND/OR becomes a prefix node: the prefix is white space, the word, then white space, and prefix plus rest is the fragment. Otherwise the node keeps the whole text. |
| SqlParser.ExtendsTransitive | Dapper.OutsideSql/SqlParser/Parser.cs:116-160 | growing an open node, or turning an IF into its ELSE, composes |
| SqlParser.AddChildGrows | Dapper.OutsideSql/SqlParser/Parser.cs:177 | adding a child to the top of the stack leaves the nodes below it as they were |
| SqlParser.TokenSpec | Dapper.OutsideSql/SqlParser/Parser.cs:51-68 | the parser's reaction to one token, by its type. It raises only parse errors, keeps the scanner state valid without raising the work left, and only grows the top of the stack. |
| SqlParser.CommentSpec | Dapper.OutsideSql/SqlParser/Parser.cs:93-132 | IF with an empty condition is IfConditionNotFound. IF and BEGIN parse a block to its END. END and non-directive comments change nothing, and other directives bind the literal after them. The top of the stack only grows. |
| SqlParser.BlockSpec | Dapper.OutsideSql/SqlParser/Parser.cs:116-132 | the block is pushed, filled to its END, and closed into the node below it, which only grows |
| SqlParser.EndSpec | Dapper.OutsideSql/SqlParser/Parser.cs:134-149 | tokens are parsed until a comment that is exactly END, and the end of the text first is EndCommentNotFound. The closed block extends the one pushed. |
| SqlParser.RootSpec | Dapper.OutsideSql/SqlParser/Parser.cs:44-49 | tokens are parsed until the end of the text, which closes the root. Only parse errors are raised, and a container root closes as a ContainerNode. |
| SqlParser.ParseTemplate | Dapper.OutsideSql/SqlParser/Parser.cs:37-49 | the tree that parsing a template yields is a ContainerNode, or a parse error |
| SqlParser.PlainTemplate | Dapper.OutsideSql/SqlParser/Parser.cs:37-91 | a template with no comment, `?` or `-- ELSE` parses to a root holding its normalized text as one SqlNode. An empty template parses to an empty root. |
| SqlParser.Parser.constructor | Dapper.OutsideSql/SqlParser/Parser.cs:37-42 | the tokenizer reads the normalized text from the start, and the stack is empty |
| SqlParser.Parser.Parse | Dapper.OutsideSql/SqlParser/Parser.cs:44-49 | the result is exactly RootSpec's from the tokenizer's state with a new root pushed, and on success the stack is as it was |
| SqlParser.Parser.ParseToken | Dapper.OutsideSql/SqlParser/Parser.cs:51-68 | the error, scanner state and stack are exactly those TokenSpec gives for the token just read. EndCommentNotFound comes only at Eof. |
| SqlParser.Parser.ParseSql | Dapper.OutsideSql/SqlParser/Parser.cs:70-91 | the stack is exactly SqlStep's: the fragment, with `--` removed while an ELSE is open, becomes a child of the top node |
| SqlParser.Parser.ReadLeadingWord | Dapper.OutsideSql/SqlParser/Parser.cs:78-81 | the word and the Before/After split are those LeadingWord specifies |
| SqlParser.Parser.ParseComment | Dapper.OutsideSql/SqlParser/Parser.cs:93-114 | the outcome is exactly CommentSpec's for the comment just read. A successful IF or BEGIN leaves its closing END comment as the current token. |
| SqlParser.Parser.ParseIf | Dapper.OutsideSql/SqlParser/Parser.cs:116-124 | an empty condition is IfConditionNotFound with the stack unchanged. Otherwise the outcome is BlockSpec's for an IF holding the rewritten condition, and success ends on an END comment. |
| SqlParser.Parser.ParseBegin | Dapper.OutsideSql/SqlParser/Parser.cs:126-132 | the outcome is BlockSpec's for a BEGIN, and success ends on an END comment |
| SqlParser.Parser.ParseEnd | Dapper.OutsideSql/SqlParser/Parser.cs:134-149 | the outcome is EndSpec's, with the closed block attached to the node below it. Success leaves the current token a Comment that is exactly `END`, and EndCommentNotFound comes only at Eof. |
| SqlParser.Parser.ParseElse | Dapper.OutsideSql/SqlParser/Parser.cs:151-160 | the scanner state and stack are exactly ElseStep's: an IF on top becomes its ELSE and the white space after `-- ELSE` is skipped. Anywhere else nothing changes. |
| SqlParser.Parser.ParseCommentBindVariable | Dapper.OutsideSql/SqlParser/Parser.cs:162-172 | the literal after the comment is skipped. `(…)` gives a list bind, `$name` an embedded value, and anything else a bind. |
| SqlParser.Parser.ParseBindVariable | Dapper.OutsideSql/SqlParser/Parser.cs:174-178 | a `?` becomes a bind of its `$k` name under the top node |
| SqlParser.Parser.Pop | Dapper.OutsideSql/SqlParser/Parser.cs:195-198 | returns the top and removes it |
| SqlParser.Parser.Peek | Dapper.OutsideSql/SqlParser/Parser.cs:200-203 | returns the top |
| SqlParser.Parser.Push | Dapper.OutsideSql/SqlParser/Parser.cs:205-208 | puts a node on top |
| SqlParser.Parser.IsElseMode | Dapper.OutsideSql/SqlParser/Parser.cs:210-216 | true exactly when some node on the stack is an ELSE |
| Expressions.DigitsEnd | Dapper.OutsideSql/Nodes/ExpressionUtil.cs:45 | the end of the digit run |
| Expressions.SymbolCharsEnd | Dapper.OutsideSql/Nodes/ExpressionUtil.cs:44 | the symbol run stops at an operator character or white space |
| Expressions.LiteralMatch | Dapper.OutsideSql/Nodes/ExpressionUtil.cs:70-74 | a number match consumes something beyond the leading white space |
| Expressions.OperatorMatch | Dapper.OutsideSql/Nodes/ExpressionUtil.cs:77-81 | an operator match consumes something beyond the leading white space |
| Expressions.SymbolMatch | Dapper.OutsideSql/Nodes/ExpressionUtil.cs:84-88 | a symbol match covers at least the leading white space |
| Expressions.Lex | Dapper.OutsideSql/Nodes/ExpressionUtil.cs:68-93 | the end of text is returned exactly when nothing is consumed |
| Expressions.LexStopsOnlyAtEnd | Dapper.OutsideSql/Nodes/ExpressionUtil.cs:68-93 | the lexer reports the end exactly when no text remains |
| Expressions.LexConsumesSpacesAndToken | Dapper.OutsideSql/Nodes/ExpressionUtil.cs:95-126 | a step consumes white space followed by the token's own text |
| Expressions.TokenizeRebuildsText | Dapper.OutsideSql/Nodes/ExpressionUtil.cs:53-57 | the texts the tokens consume, concatenated, are the whole expression |
| Expressions.TokenizeKeepsTokenText | Dapper.OutsideSql/Nodes/ExpressionUtil.cs:95-126 | every token's text is what it consumed, minus the leading white space |
| Expressions.SymbolValueForms | Dapper.OutsideSql/Nodes/ExpressionUtil.cs:156-166 | a quoted symbol is kept, and null/true/false are lower-cased. Any other symbol becomes `self.GetArg('…')` around its own text. |
| Expressions.TokenValuesAreWords | Dapper.OutsideSql/Nodes/ExpressionUtil.cs:150-204 | every token value is non-empty and does not end in a space |
| Expressions.TrimmedBufferIsJoin | Dapper.OutsideSql/Nodes/ExpressionUtil.cs:52-59 | appending each value and a space, then TrimEnd(' '), gives the values joined by single spaces |
| Expressions.ExpressionUtil.NextToken | Dapper.OutsideSql/Nodes/ExpressionUtil.cs:68-126 | the token and what is consumed are what Lex gives, and the start advances by that length |
| Expressions.ExpressionUtil.ParseExpression | Dapper.OutsideSql/Nodes/ExpressionUtil.cs:48-60 | the result is Rewrite: the token values joined by single spaces |
| Nodes.AddChild | Dapper.OutsideSql/Nodes/AbstractNode.cs:31-41 | the child is appended at index ChildSize, and the earlier children and the node's kind are kept |
| Nodes.Close | Dapper.OutsideSql/Nodes/IfNode.cs:37 | a closed block is the node its kind says, and an ELSE closes as the IF holding it |
| Nodes.NewNodesAreEmpty | Dapper.OutsideSql/Nodes/AbstractNode.cs:27-31 | new nodes have no children |
| Nodes.ContainsChild | Dapper.OutsideSql/Nodes/AbstractNode.cs:43-50 | true exactly when some child has the given runtime type |
| CommandContext.FindProperty | Dapper.OutsideSql/Impl/CommandContextImpl.cs:79 | GetProperty finds a property exactly when the type declares one of that name |
| CommandContext.LookupFindsNearest | Dapper.OutsideSql/Impl/CommandContextImpl.cs:60-69 | a name, compared case-insensitively, is answered by the nearest context that holds it |
| CommandContext.LookupFallsToRoot | Dapper.OutsideSql/Impl/CommandContextImpl.cs:70-86 | a name no context holds is walked as a dotted path in the root. Without a `.` it is null. |
| CommandContext.ElementNames | Dapper.OutsideSql/Nodes/ParenBindVariableNode.cs:71-72 | element i of a list is named `name` followed by i+1 |
| CommandContext.MarkerForms | Dapper.OutsideSql/Impl/CommandContextImpl.cs:169-175 | a single bind is written `@name`, `:name`, `?name` or `?` |
| CommandContext.BindFragment | Dapper.OutsideSql/Impl/CommandContextImpl.cs:155-183 | a fragment with one `?` gets the marker in the SQL and the formatted value in the logged SQL. Value, type and name are each added once, so the three lists stay in lockstep. |
| CommandContext.CorrectedBatchMatchesChild | Dapper.OutsideSql/Impl/CommandContextImpl.cs:196-213 | the corrected batch step writes the value where the child's own logged SQL has it |
| CommandContext.AsWrittenSplicesColumnName | Dapper.OutsideSql/Impl/CommandContextImpl.cs:200-211 | as written, `AND id = @id` with id 5 is logged as `AND5 = @id` |
| CommandContext.AsWrittenBatchDiffers | Dapper.OutsideSql/Impl/CommandContextImpl.cs:191-225 | as written, a BEGIN block that logged `AND id = @id` with id 5 reaches its parent's logged SQL as `AND5 = @id` |
| CommandContext.CorrectedBatchLogsChild | Dapper.OutsideSql/Impl/CommandContextImpl.cs:191-225 | with the corrected substitution the same block reaches the parent's logged SQL as the child's own `AND id = 5` |
| CommandContext.CommandContextImpl.Chain | Dapper.OutsideSql/Impl/CommandContextImpl.cs:60-69 | the context's tables come first, then its parent's |
| CommandContext.CommandContextImpl.constructor | Dapper.OutsideSql/Impl/CommandContextImpl.cs:46-49 | a root context is empty and enabled |
| CommandContext.CommandContextImpl.Child | Dapper.OutsideSql/Impl/CommandContextImpl.cs:51-56 | a child context is empty and disabled, and answers lookups through its parent |
| CommandContext.CommandContextImpl.GetArg | Dapper.OutsideSql/Impl/CommandContextImpl.cs:60-87 | the value is LookupIn over the chain |
| CommandContext.CommandContextImpl.GetArgType | Dapper.OutsideSql/Impl/CommandContextImpl.cs:89-99 | the type is the nearest context's, or none |
| CommandContext.CommandContextImpl.AddArg | Dapper.OutsideSql/Impl/CommandContextImpl.cs:101-111 | the argument replaces any entry under a name equal ignoring case, and every such name now looks up to it |
| CommandContext.CommandContextImpl.AddSql | Dapper.OutsideSql/Impl/CommandContextImpl.cs:147-153 | the text goes into both buffers |
| CommandContext.CommandContextImpl.AddSqlWithBind | Dapper.OutsideSql/Impl/CommandContextImpl.cs:155-183 | the placeholder form of the fragment and the value form are appended, with one value, type and name |
| CommandContext.CommandContextImpl.AddBind | Dapper.OutsideSql/Impl/CommandContextImpl.cs:185-189 | a single `?` bind |
| CommandContext.CommandContextImpl.AppendSql | Dapper.OutsideSql/Impl/CommandContextImpl.cs:227-231 | a `, ?` bind |
| CommandContext.CommandContextImpl.AddSqlBatch | Dapper.OutsideSql/Impl/CommandContextImpl.cs:191-225 | the child's SQL unchanged and its binds in order, and its values written in with the corrected substitution |
| Render.ListBinds | Dapper.OutsideSql/Nodes/ParenBindVariableNode.cs:70-72 | each element adds one value, type and name, and IsEnabled is kept |
| Render.Render | Dapper.OutsideSql/Nodes/IfNode.cs:39-59 | rendering any node keeps the three bind lists in lockstep |
| Render.RenderChildren | Dapper.OutsideSql/Nodes/BeginNode.cs:28 | rendering a child list keeps the three bind lists in lockstep |
| Render.ErrorStopsChildren | Dapper.OutsideSql/Nodes/IfNode.cs:46 | after an error the remaining children are not rendered |
| Render.RenderOnlyAppends | Dapper.OutsideSql/Impl/CommandContextImpl.cs:147-231 | rendering only appends: both buffers and the three lists are extended, never rewritten |
| Render.ChildrenOnlyAppend | Dapper.OutsideSql/Impl/CommandContextImpl.cs:147-231 | so does rendering a child list |
| Render.ListBindsAppend | Dapper.OutsideSql/Nodes/ParenBindVariableNode.cs:70-72 | so does expanding a list |
| Render.IfOutcomes | Dapper.OutsideSql/Nodes/IfNode.cs:39-59 | a null result raises IllegalBoolExpression, true renders the body and false the ELSE, each then setting IsEnabled. False without ELSE leaves the context exactly as it was. |
| Render.ChildLookupIsParents | Dapper.OutsideSql/Nodes/BeginNode.cs:36-40 | the child context of a BEGIN sees its parent's arguments |
| Render.BeginOutcomes | Dapper.OutsideSql/Nodes/BeginNode.cs:25-34 | a BEGIN leaves its context untouched unless its child context ended enabled. Then the child's SQL and all its binds are appended in order. |
| Render.ChildrenKeepFlag | Dapper.OutsideSql/Nodes/IfNode.cs:39-59 | children that are not IF, ELSE or container nodes, and IFs without ELSE whose condition is false, leave IsEnabled as it was. Without a nested BEGIN they raise no error. |
| Render.BeginWithoutIfEmitsNothing | Dapper.OutsideSql/Nodes/BeginNode.cs:25-34 | a BEGIN with no IF inside emits nothing |
| Render.BeginWithFalseIfsEmitsNothing | Dapper.OutsideSql/Nodes/BeginNode.cs:25-34 | a BEGIN whose IFs have no ELSE and all evaluate to false in the child context emits nothing. Without a nested BEGIN it also raises no error, so the context is left exactly as it was. |
| Render.BindVariableOutcome | Dapper.OutsideSql/Nodes/BindVariableNode.cs:35-48 | one value is bound, null when unbound, typed by the value, under the expression's name with `.` turned into `_` |
| Render.ParenBindOutcome | Dapper.OutsideSql/Nodes/ParenBindVariableNode.cs:42-76 | a non-list or empty list emits nothing. A list emits `(` and its markers and `)`, and binds each element in order under `name1…nameN` with the type of the last non-null element. |
| Render.QuestionMarkerList | Dapper.OutsideSql/Nodes/ParenBindVariableNode.cs:70-72 | with bare `?` placeholders a list of n elements is `?` then `, ?` n-1 times |
| Render.LastNonNullTypeIsLast | Dapper.OutsideSql/Nodes/ParenBindVariableNode.cs:63-68 | the shared type is none exactly when every element is null, and otherwise is the type of the last non-null element |
| Render.Accept | Dapper.OutsideSql/Nodes/AbstractNode.cs:52 | rendering a node into a context does to its buffers what Render states |
| Render.AcceptIf | Dapper.OutsideSql/Nodes/IfNode.cs:39-59 | IfNode.Accept does what Render states for an IF |
| Render.AcceptBegin | Dapper.OutsideSql/Nodes/BeginNode.cs:25-40 | BeginNode.Accept does what Render states for a BEGIN |
| Render.AcceptBindVariable | Dapper.OutsideSql/Nodes/BindVariableNode.cs:35-48 | BindVariableNode.Accept binds the looked-up value through a single `?` |
| Render.AcceptParenBindVariable | Dapper.OutsideSql/Nodes/ParenBindVariableNode.cs:42-54 | only a list argument is expanded |
| Render.AcceptChildren | Dapper.OutsideSql/Nodes/BeginNode.cs:28 | children are rendered in order, and the first error stops the rendering |
| Render.BindArray | Dapper.OutsideSql/Nodes/ParenBindVariableNode.cs:56-76 | _BindArray does what BindList states |
| DataProviderUtil.GetBindVariableType | Dapper.OutsideSql/Utility/DataProviderUtil.cs:36-52 | SqlConnection and DB2Connection get `@name`, OracleConnection and NpgsqlConnection `:name`, MySqlConnection `?name`. Every other name, Firebird included, gets `?`. |
| DataProviderUtil.MarkerNamesParameter | Dapper.OutsideSql/Utility/DataProviderUtil.cs:36-52 | only the five named providers put the parameter's name into the SQL |
| DataProviderUtil.ProviderMarkers | Dapper.OutsideSql/Utility/DataProviderUtil.cs:39-51 | the marker each provider's connection writes for a bind |
| DynamicParameterUtil.Enumerate | Dapper.OutsideSql/Utility/DynamicParameterUtil.cs:98-100 | enumerating null fails, and so does casting a value that lacks the interface |
| DynamicParameterUtil.ExpandScalar | Dapper.OutsideSql/Utility/DynamicParameterUtil.cs:143-146 | a non-collection argument is added once, under its own name and unchanged |
| DynamicParameterUtil.ExpandCollection | Dapper.OutsideSql/Utility/DynamicParameterUtil.cs:96-133 | a collection argument is flattened to `name1…nameN` in order, and null or an uncastable value fails |
| DynamicParameterUtil.NumberedNamesDistinct | Dapper.OutsideSql/Utility/DynamicParameterUtil.cs:99-103 | the flattened names are pairwise distinct, and none is the collection's own name |
| DynamicParameterUtil.ExpandMatchesParenBind | Dapper.OutsideSql/Utility/DynamicParameterUtil.cs:121 | a list argument is flattened to the names, values and order a list bind uses |
| DynamicParameterUtil.FlattenConcat | Dapper.OutsideSql/Utility/DynamicParameterUtil.cs:55-72 | the arguments are copied one after another, and an error stops the copy |
| DynamicParameterUtil.FlattenFirstError | Dapper.OutsideSql/Utility/DynamicParameterUtil.cs:50-73 | the copy fails exactly when some argument fails, and then with the first failing one's error |
| DynamicParameterUtil.FlattenScalars | Dapper.OutsideSql/Utility/DynamicParameterUtil.cs:65-72 | arguments of non-collection types are copied one entry each, unchanged |
| DynamicParameterUtil.NullFails | Dapper.OutsideSql/Utility/DynamicParameterUtil.cs:58-59 | a null value in a DynamicParameters fails the copy with its name |
| DynamicParameterUtil.DynamicParameters.Add | Dapper.OutsideSql/Utility/DynamicParameterUtil.cs:102 | the entry is appended |
| DynamicParameterUtil.AddEach | Dapper.OutsideSql/Utility/DynamicParameterUtil.cs:99-104 | the foreach with a counter from 1 adds the elements under `name1…` |
| DynamicParameterUtil.CreateParameter | Dapper.OutsideSql/Utility/DynamicParameterUtil.cs:85-147 | _CreateParameter adds what Expand states, or fails with its error having added nothing |
| DynamicParameterUtil.CreateAll | Dapper.OutsideSql/Utility/DynamicParameterUtil.cs:50-73 | the argument loop adds what Flatten states, or fails with its error |
| DynamicParameterUtil.CreateDynamicParameters | Dapper.OutsideSql/Utility/DynamicParameterUtil.cs:40-76 | null stays null and key/value pairs are returned as they are. Anything else is flattened into new parameters. |

## Left out

- CommandContext.CommandContextImpl.AddSqlBatch: the logged SQL (`SqlWithValue`) is written with the corrected substitution. The source's step searches for the bind's name and overwrites from the character before it (Dapper.OutsideSql/Impl/CommandContextImpl.cs:196-211). That step is modelled as StepAsWritten, and the difference is the finding below. The SQL with placeholders and the three bind lists are as the source builds them.
- Render.AcceptBegin: through AddSqlBatch, Render's BEGIN case and AcceptBegin log a BEGIN block's values with the corrected substitution, not the source's.
- The script engine evaluates IF conditions, and Convert.ToBoolean reads its result. Both are one `Evaluator` parameter. It maps the rewritten condition and the argument lookup to a boolean, or to none for a null result.
- Render.Accept: PrefixSqlNode and EmbeddedValueNode render through a `TextRenderer` parameter, because their classes are not part of this model. Nothing is claimed about what they emit.
- Render.AcceptParenBindVariable: the script `self.GetArg('name')` is taken to evaluate to `GetArg(name)` on the context. The script engine is not part of this model.
- Number literals in IF conditions are kept as their text. The source parses them into a `float` and prints that back, so `1.50` would become `1.5`. Floating point is not modelled.
- Case-insensitive comparison, ToUpper/ToLower and char.IsLetterOrDigit are modelled on ASCII only. Culture-sensitive IndexOf is modelled as ordinal. So are the culture-sensitive string StartsWith/EndsWith calls: the `;` check (Dapper.OutsideSql/SqlParser/Parser.cs:40), the `(`/`)` check of a list bind (Dapper.OutsideSql/SqlParser/Parser.cs:164-165), the `IF` check (Dapper.OutsideSql/SqlParser/Parser.cs:232) and the quote check of a symbol (Dapper.OutsideSql/Nodes/ExpressionUtil.cs:158).
- Logging of null binds (NLog) is left out.
- Reflection is a `RuntimeType` record: a name, a set of interface names and the declared properties. A property read on an object that lacks it reads as null.
- .NET's interface rules (every IList is an ICollection) are not imposed on `RuntimeType`. The model follows the branches the code takes on whatever interfaces a type lists.
- SqlParser.Parser: a block is attached to its parent when it closes, not when it opens as in the source, where the object is shared through the stack. Only the top of the stack is ever inspected, so the tree is the same.
- The getters `Sql`, `SqlWithValue`, `BindVariables`, `BindVariableTypes` and `BindVariableNames` are the fields themselves. Sequences are values, so the copies the getters make are implicit.
- Render.Render: SqlNode renders as `AddSql(text)` and ContainerNode and ElseNode render their children. Those classes are not part of this model.
- DynamicParameterUtil.DynamicParameters: Dapper's DynamicParameters is modelled as the list of entries added. Its own handling of repeated names is Dapper's and is not part of this model.
- DynamicParameterUtil.CreateParameter: the `IsArray` branch (Dapper.OutsideSql/Utility/DynamicParameterUtil.cs:134-141) is not modelled. Arrays implement ICollection and take the first branch.
- The legacy copy of the parameter code in DapperOutsideSqlExtension.cs is not part of this model.

## Findings

| source | as written | input that shows it | evidently intended | confidence | as-written member | corrected member |
|---|---|---|---|---|---|---|
| Dapper.OutsideSql/Impl/CommandContextImpl.cs:200-211 | Writing a BEGIN block's values into the parent's logged SQL looks for the first occurrence of the bind's name, not of its marker. It then overwrites the character before it. A column that shares the bind's name is rewritten instead of the marker. | Atmark style, child SQL `AND id = ?` bound as `id` to the Int32 5: the child's own logged SQL is `AND id = 5`, and the parent gets `AND5 = @id` | replace the first occurrence of the bind's own marker (`@id`) with the value, formatted as a single bind formats it | not executed | CommandContext.AsWrittenSplicesColumnName | CommandContext.CorrectedBatchMatchesChild |
