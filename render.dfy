/**
 * The render phase: each node's Accept appends into a CommandContextImpl. Render states
 * what a node does to the context's buffers; the Accept methods do it to the context.
 */
module Render {
  import opened Text
  import opened Errors
  import opened Nodes
  import opened CommandContext

  /** The script engine that evaluates a rewritten IF condition: given the condition and the
      argument lookup `self.GetArg` reaches, a boolean, or none for a null result. */
  type Evaluator = (string, string -> Value) -> Option<bool>

  /** The rendering of PrefixSqlNode and EmbeddedValueNode, whose classes are not part of this
      model: the text such a node appends, given the node, IsEnabled and the argument lookup. */
  type TextRenderer = (Node, bool, string -> Value) -> string

  /** `self.GetArg` over a chain of argument tables. */
  function Lookup(chain: seq<ArgTable>): string -> Value
    requires |chain| > 0
  {
    n => LookupIn(chain, n)
  }

  /** Nodes that render a child list. */
  predicate HasChildren(n: Node) {
    n.ContainerNode? || n.IfNode? || n.ElseNode? || n.BeginNode?
  }

  /** A method's outcome together with the context's state. */
  function Outcome(r: Result<()>, b: Buffers): Result<Buffers> {
    if r.Ok? then Ok(b) else Err(r.error)
  }

  /** IsEnabled set after a branch rendered without error. */
  function Enable(r: Result<Buffers>): Result<Buffers> {
    if r.Ok? then Ok(r.value.(enabled := true)) else r
  }

  /** The type every element of a list is bound with: that of the last non-null element. */
  function LastNonNullType(items: seq<Value>): Option<RuntimeType> {
    if |items| == 0 then None
    else if items[|items| - 1].Null? then LastNonNullType(items[..|items| - 1])
    else Some(items[|items| - 1].rtype)
  }

  /** `(` and the first `n` elements of a list, the first as `?`, the others as `, ?`. */
  function ListBinds(b: Buffers, style: BindVariableType, items: seq<Value>,
                     t: Option<RuntimeType>, name: string, n: nat): (r: Buffers)
    requires 1 <= n <= |items|
    ensures |r.values| == |b.values| + n && |r.types| == |b.types| + n && |r.names| == |b.names| + n
    ensures r.enabled == b.enabled
  {
    if n == 1 then AppendBind(AppendText(b, "("), style, "?", items[0], t, ElementName(name, 0))
    else AppendBind(ListBinds(b, style, items, t, name, n - 1), style, ", ?", items[n - 1], t,
                    ElementName(name, n - 1))
  }

  /** _BindArray: nothing for an empty list, otherwise the parenthesised placeholders. */
  function BindList(b: Buffers, style: BindVariableType, items: seq<Value>, name: string): Buffers {
    if |items| == 0 then b
    else AppendText(ListBinds(b, style, items, LastNonNullType(items), name, |items|), ")")
  }

  /** What rendering a node does to the buffers of a context whose argument tables are
      `chain` and whose placeholder style is `style`. */
  function Render(node: Node, chain: seq<ArgTable>, style: BindVariableType, eval: Evaluator,
                  other: TextRenderer, b: Buffers): (r: Result<Buffers>)
    requires |chain| > 0
    ensures Lockstep(b) && r.Ok? ==> Lockstep(r.value)
    decreases node, 1
  {
    match node
    case ContainerNode(_) => RenderChildren(node, |node.children|, chain, style, eval, other, b)
    case ElseNode(_) => RenderChildren(node, |node.children|, chain, style, eval, other, b)
    case SqlNode(sql) => Ok(AppendText(b, sql))
    case PrefixSqlNode(_, _) => Ok(AppendText(b, other(node, b.enabled, Lookup(chain))))
    case EmbeddedValueNode(_) => Ok(AppendText(b, other(node, b.enabled, Lookup(chain))))
    case IfNode(expression, children, elseNode) =>
      var result := eval(expression, Lookup(chain));
      if result.None? then Err(IllegalBoolExpression(expression))
      else if result.value then Enable(RenderChildren(node, |children|, chain, style, eval, other, b))
      else if elseNode.Some? then Enable(Render(elseNode.value, chain, style, eval, other, b))
      else Ok(b)
    case BeginNode(children) =>
      var child := RenderChildren(node, |children|, [ArgTable(map[], map[])] + chain, style, eval,
                                  other, Buffers([], [], [], [], [], false));
      if child.Err? then Err(child.error)
      else if child.value.enabled then
        Ok(AppendBatch(b, style, child.value.sql, child.value.values, child.value.types,
                       child.value.names))
      else Ok(b)
    case BindVariableNode(expression) =>
      var v := LookupIn(chain, expression);
      Ok(AppendBind(b, style, "?", v, TypeOf(v), ReplaceChar(expression, '.', '_')))
    case ParenBindVariableNode(bindName) =>
      var v := LookupIn(chain, bindName);
      if IsList(v) then Ok(BindList(b, style, v.items.value, bindName)) else Ok(b)
  }

  /** The first `k` children rendered in order; the first error stops the rendering. */
  function RenderChildren(node: Node, k: nat, chain: seq<ArgTable>, style: BindVariableType,
                          eval: Evaluator, other: TextRenderer, b: Buffers): (r: Result<Buffers>)
    requires HasChildren(node) && k <= |node.children| && |chain| > 0
    ensures Lockstep(b) && r.Ok? ==> Lockstep(r.value)
    decreases node, 0, k
  {
    if k == 0 then Ok(b)
    else
      var before := RenderChildren(node, k - 1, chain, style, eval, other, b);
      if before.Err? then before
      else Render(node.children[k - 1], chain, style, eval, other, before.value)
  }

  /** An error stops the rendering of the remaining children. */
  lemma {:induction false} ErrorStopsChildren(node: Node, k: nat, m: nat, chain: seq<ArgTable>,
                                              style: BindVariableType, eval: Evaluator,
                                              other: TextRenderer, b: Buffers)
    requires HasChildren(node) && k <= m <= |node.children| && |chain| > 0
    requires RenderChildren(node, k, chain, style, eval, other, b).Err?
    ensures RenderChildren(node, m, chain, style, eval, other, b) ==
            RenderChildren(node, k, chain, style, eval, other, b)
    decreases m
  {
    if m > k {
      ErrorStopsChildren(node, k, m - 1, chain, style, eval, other, b);
    }
  }

  /** The buffers and the bind lists only grow. */
  predicate Appended(b: Buffers, c: Buffers) {
    b.sql <= c.sql && b.sqlWithValue <= c.sqlWithValue &&
    b.values <= c.values && b.types <= c.types && b.names <= c.names
  }

  lemma AppendedTransitive(a: Buffers, b: Buffers, c: Buffers)
    requires Appended(a, b) && Appended(b, c)
    ensures Appended(a, c)
  {
  }

  /** Rendering never takes back text or binds: everything is appended. */
  lemma {:induction false} RenderOnlyAppends(node: Node, chain: seq<ArgTable>, style: BindVariableType,
                                             eval: Evaluator, other: TextRenderer, b: Buffers)
    requires |chain| > 0
    ensures var r := Render(node, chain, style, eval, other, b); r.Ok? ==> Appended(b, r.value)
    decreases node, 1
  {
    match node
    case ContainerNode(_) =>
      ChildrenOnlyAppend(node, |node.children|, chain, style, eval, other, b);
    case ElseNode(_) =>
      ChildrenOnlyAppend(node, |node.children|, chain, style, eval, other, b);
    case IfNode(expression, children, elseNode) =>
      ChildrenOnlyAppend(node, |children|, chain, style, eval, other, b);
      if elseNode.Some? {
        RenderOnlyAppends(elseNode.value, chain, style, eval, other, b);
      }
    case ParenBindVariableNode(bindName) =>
      var v := LookupIn(chain, bindName);
      if IsList(v) && |v.items.value| > 0 {
        var items := v.items.value;
        ListBindsAppend(b, style, items, LastNonNullType(items), bindName, |items|);
      }
    case BeginNode(_) =>
    case BindVariableNode(_) =>
    case SqlNode(_) =>
    case PrefixSqlNode(_, _) =>
    case EmbeddedValueNode(_) =>
  }

  lemma {:induction false} ChildrenOnlyAppend(node: Node, k: nat, chain: seq<ArgTable>,
                                              style: BindVariableType, eval: Evaluator,
                                              other: TextRenderer, b: Buffers)
    requires HasChildren(node) && k <= |node.children| && |chain| > 0
    ensures var r := RenderChildren(node, k, chain, style, eval, other, b);
      r.Ok? ==> Appended(b, r.value)
    decreases node, 0, k
  {
    if k > 0 {
      ChildrenOnlyAppend(node, k - 1, chain, style, eval, other, b);
      var before := RenderChildren(node, k - 1, chain, style, eval, other, b);
      if before.Ok? {
        RenderOnlyAppends(node.children[k - 1], chain, style, eval, other, before.value);
      }
    }
  }

  lemma {:induction false} ListBindsAppend(b: Buffers, style: BindVariableType, items: seq<Value>,
                                           t: Option<RuntimeType>, name: string, n: nat)
    requires 1 <= n <= |items|
    ensures Appended(b, ListBinds(b, style, items, t, name, n))
    decreases n
  {
    if n > 1 {
      ListBindsAppend(b, style, items, t, name, n - 1);
    }
  }

  /** IF: a null result is an error naming the condition; a false one without ELSE leaves the
      context exactly as it was, IsEnabled included; a branch that renders sets IsEnabled. */
  lemma IfOutcomes(expression: string, children: seq<Node>, elseNode: Option<Node>,
                   chain: seq<ArgTable>, style: BindVariableType, eval: Evaluator,
                   other: TextRenderer, b: Buffers)
    requires |chain| > 0
    ensures var node := IfNode(expression, children, elseNode);
      var r := Render(node, chain, style, eval, other, b);
      var result := eval(expression, Lookup(chain));
      (result.None? ==> r == Err(IllegalBoolExpression(expression))) &&
      (result == Some(true) ==>
        r == Enable(RenderChildren(node, |children|, chain, style, eval, other, b))) &&
      (result == Some(false) && elseNode.Some? ==>
        r == Enable(Render(elseNode.value, chain, style, eval, other, b))) &&
      (result == Some(false) && elseNode.None? ==> r == Ok(b)) &&
      (r.Ok? && (result == Some(true) || elseNode.Some?) ==> r.value.enabled)
  {
  }

  /** A child context's lookups are its parent's. */
  lemma ChildLookupIsParents(chain: seq<ArgTable>, name: string)
    requires |chain| > 0
    ensures LookupIn([ArgTable(map[], map[])] + chain, name) == LookupIn(chain, name)
  {
    assert ([ArgTable(map[], map[])] + chain)[1..] == chain;
  }

  /** BEGIN: the children render into an empty, disabled child context; if it is still
      disabled afterwards, this context is unchanged, and otherwise the child's SQL and all
      its binds are appended in order. */
  lemma BeginOutcomes(children: seq<Node>, chain: seq<ArgTable>, style: BindVariableType,
                      eval: Evaluator, other: TextRenderer, b: Buffers)
    requires |chain| > 0
    ensures var node := BeginNode(children);
      var child := RenderChildren(node, |children|, [ArgTable(map[], map[])] + chain, style,
                                  eval, other, Buffers([], [], [], [], [], false));
      var r := Render(node, chain, style, eval, other, b);
      (child.Err? ==> r == Err(child.error)) &&
      (child.Ok? && !child.value.enabled ==> r == Ok(b)) &&
      (child.Ok? && child.value.enabled ==>
        r.Ok? && r.value.sql == b.sql + child.value.sql &&
        r.value.values == b.values + child.value.values &&
        r.value.types == b.types + child.value.types &&
        r.value.names == b.names + child.value.names &&
        r.value.enabled == b.enabled)
  {
  }

  /** Nodes that can set IsEnabled on the context they render into. */
  predicate MaySetEnabled(n: Node) {
    n.IfNode? || n.ContainerNode? || n.ElseNode?
  }

  /** Children that leave IsEnabled alone: those that cannot set it, and IFs without an
      ELSE whose condition evaluates to false over `chain`. */
  predicate KeepsFlag(n: Node, chain: seq<ArgTable>, eval: Evaluator)
    requires |chain| > 0
  {
    !MaySetEnabled(n) ||
    (n.IfNode? && n.elseNode.None? && eval(n.expression, Lookup(chain)) == Some(false))
  }

  /** Only an IF that fires sets IsEnabled: rendering other children, and IFs without an
      ELSE whose condition is false, leaves it as it was. */
  lemma {:induction false} ChildrenKeepFlag(node: Node, k: nat, chain: seq<ArgTable>,
                                            style: BindVariableType, eval: Evaluator,
                                            other: TextRenderer, b: Buffers)
    requires HasChildren(node) && k <= |node.children| && |chain| > 0
    requires forall i :: 0 <= i < |node.children| ==> KeepsFlag(node.children[i], chain, eval)
    ensures var r := RenderChildren(node, k, chain, style, eval, other, b);
      r.Ok? ==> r.value.enabled == b.enabled
    ensures (forall i :: 0 <= i < |node.children| ==> !node.children[i].BeginNode?) ==>
      RenderChildren(node, k, chain, style, eval, other, b).Ok?
    decreases k
  {
    if k > 0 {
      ChildrenKeepFlag(node, k - 1, chain, style, eval, other, b);
      assert KeepsFlag(node.children[k - 1], chain, eval);
    }
  }

  /** A BEGIN whose children hold no IF, such as one holding only literal text, emits
      nothing. */
  lemma BeginWithoutIfEmitsNothing(children: seq<Node>, chain: seq<ArgTable>,
                                   style: BindVariableType, eval: Evaluator,
                                   other: TextRenderer, b: Buffers)
    requires |chain| > 0
    requires forall i :: 0 <= i < |children| ==> !MaySetEnabled(children[i])
    ensures var r := Render(BeginNode(children), chain, style, eval, other, b);
      r.Ok? ==> r == Ok(b)
    ensures (forall i :: 0 <= i < |children| ==> !children[i].BeginNode?) ==>
      Render(BeginNode(children), chain, style, eval, other, b) == Ok(b)
  {
    ChildrenKeepFlag(BeginNode(children), |children|, [ArgTable(map[], map[])] + chain, style,
                     eval, other, Buffers([], [], [], [], [], false));
  }

  /** A BEGIN whose IFs have no ELSE and all evaluate to false in the child context emits
      nothing: the child context stays disabled, so nothing of it reaches this context. */
  lemma BeginWithFalseIfsEmitsNothing(children: seq<Node>, chain: seq<ArgTable>,
                                      style: BindVariableType, eval: Evaluator,
                                      other: TextRenderer, b: Buffers)
    requires |chain| > 0
    requires forall i :: 0 <= i < |children| ==>
      KeepsFlag(children[i], [ArgTable(map[], map[])] + chain, eval)
    ensures var r := Render(BeginNode(children), chain, style, eval, other, b);
      r.Ok? ==> r == Ok(b)
    ensures (forall i :: 0 <= i < |children| ==> !children[i].BeginNode?) ==>
      Render(BeginNode(children), chain, style, eval, other, b) == Ok(b)
  {
    ChildrenKeepFlag(BeginNode(children), |children|, [ArgTable(map[], map[])] + chain, style,
                     eval, other, Buffers([], [], [], [], [], false));
  }

  /** A bind variable binds exactly one value, null when the name is unbound, typed by the
      value, under the expression's name with every `.` turned into `_`. */
  lemma BindVariableOutcome(expression: string, chain: seq<ArgTable>, style: BindVariableType,
                            eval: Evaluator, other: TextRenderer, b: Buffers)
    requires |chain| > 0
    ensures var v := LookupIn(chain, expression);
      var name := ReplaceChar(expression, '.', '_');
      Render(BindVariableNode(expression), chain, style, eval, other, b) ==
        Ok(b.(sql := b.sql + Marker(style, name),
              sqlWithValue := b.sqlWithValue + FormatValue(v),
              values := b.values + [v], types := b.types + [TypeOf(v)], names := b.names + [name]))
    ensures '.' !in ReplaceChar(expression, '.', '_')
  {
    assert forall k :: 0 <= k < |expression| ==> ReplaceChar(expression, '.', '_')[k] != '.';
    var v := LookupIn(chain, expression);
    var name := ReplaceChar(expression, '.', '_');
    assert [] + "?" + [] == "?";
    BindFragment(b, style, [], [], v, TypeOf(v), name);
    assert b.sql + [] + Marker(style, name) + [] == b.sql + Marker(style, name);
    assert b.sqlWithValue + [] + FormatValue(v) + [] == b.sqlWithValue + FormatValue(v);
  }

  /** The markers of a list's first `n` elements, separated by `, `. */
  function MarkerList(style: BindVariableType, name: string, n: nat): string
    requires n >= 1
  {
    if n == 1 then Marker(style, ElementName(name, 0))
    else MarkerList(style, name, n - 1) + ", " + Marker(style, ElementName(name, n - 1))
  }

  /** The formatted values of a list's first `n` elements, separated by `, `. */
  function ValueList(items: seq<Value>, n: nat): string
    requires 1 <= n <= |items|
  {
    if n == 1 then FormatValue(items[0])
    else ValueList(items, n - 1) + ", " + FormatValue(items[n - 1])
  }

  function Repeat(s: string, n: nat): string {
    if n == 0 then [] else Repeat(s, n - 1) + s
  }

  /** `n` copies of a type. */
  function Copies(t: Option<RuntimeType>, n: nat): (r: seq<Option<RuntimeType>>)
    ensures |r| == n && forall i :: 0 <= i < n ==> r[i] == t
  {
    seq(n, _ => t)
  }

  lemma ListBindsFirst(b: Buffers, style: BindVariableType, items: seq<Value>,
                       t: Option<RuntimeType>, name: string)
    requires 1 <= |items|
    ensures var r := ListBinds(b, style, items, t, name, 1);
      r.sql == b.sql + "(" + MarkerList(style, name, 1) &&
      r.sqlWithValue == b.sqlWithValue + "(" + ValueList(items, 1) &&
      r.values == b.values + items[..1] && r.types == b.types + Copies(t, 1) &&
      r.names == b.names + ElementNames(name, 1) && r.enabled == b.enabled
  {
    var b1 := AppendText(b, "(");
    assert [] + "?" + [] == "?";
    BindFragment(b1, style, [], [], items[0], t, ElementName(name, 0));
    assert b1.sql + [] + Marker(style, ElementName(name, 0)) + [] ==
           b.sql + "(" + Marker(style, ElementName(name, 0));
    assert b1.sqlWithValue + [] + FormatValue(items[0]) + [] ==
           b.sqlWithValue + "(" + FormatValue(items[0]);
    assert items[..1] == [items[0]];
    assert Copies(t, 1) == [t];
    assert ElementNames(name, 1) == [ElementName(name, 0)];
  }

  lemma ListBindsStep(b: Buffers, style: BindVariableType, items: seq<Value>,
                      t: Option<RuntimeType>, name: string, n: nat)
    requires 2 <= n <= |items|
    ensures var p := ListBinds(b, style, items, t, name, n - 1);
      var r := ListBinds(b, style, items, t, name, n);
      r.sql == p.sql + ", " + Marker(style, ElementName(name, n - 1)) &&
      r.sqlWithValue == p.sqlWithValue + ", " + FormatValue(items[n - 1]) &&
      r.values == p.values + [items[n - 1]] && r.types == p.types + [t] &&
      r.names == p.names + [ElementName(name, n - 1)] && r.enabled == p.enabled
  {
    var p := ListBinds(b, style, items, t, name, n - 1);
    assert ", ?" == ", " + "?" + [];
    BindFragment(p, style, ", ", [], items[n - 1], t, ElementName(name, n - 1));
    assert p.sql + ", " + Marker(style, ElementName(name, n - 1)) + [] ==
           p.sql + ", " + Marker(style, ElementName(name, n - 1));
    assert p.sqlWithValue + ", " + FormatValue(items[n - 1]) + [] ==
           p.sqlWithValue + ", " + FormatValue(items[n - 1]);
  }

  /** The text of `n - 1` elements and one more step give the text of `n`. */
  lemma ListTextCombine(b: Buffers, p: Buffers, r: Buffers, style: BindVariableType,
                        items: seq<Value>, name: string, n: nat)
    requires 2 <= n <= |items|
    requires p.sql == b.sql + "(" + MarkerList(style, name, n - 1)
    requires p.sqlWithValue == b.sqlWithValue + "(" + ValueList(items, n - 1)
    requires r.sql == p.sql + ", " + Marker(style, ElementName(name, n - 1))
    requires r.sqlWithValue == p.sqlWithValue + ", " + FormatValue(items[n - 1])
    ensures r.sql == b.sql + "(" + MarkerList(style, name, n)
    ensures r.sqlWithValue == b.sqlWithValue + "(" + ValueList(items, n)
  {
    Regroup(b.sql + "(", MarkerList(style, name, n - 1), ", ", Marker(style, ElementName(name, n - 1)));
    Regroup(b.sqlWithValue + "(", ValueList(items, n - 1), ", ", FormatValue(items[n - 1]));
  }

  lemma Regroup(x: string, a: string, sep: string, c: string)
    ensures x + a + sep + c == x + (a + sep + c)
  {
  }

  /** The binds of `n - 1` elements and one more step give the binds of `n`. */
  lemma ListBindCombine(b: Buffers, p: Buffers, r: Buffers, items: seq<Value>,
                        t: Option<RuntimeType>, name: string, n: nat)
    requires 2 <= n <= |items|
    requires p.values == b.values + items[..n - 1] && p.types == b.types + Copies(t, n - 1)
    requires p.names == b.names + ElementNames(name, n - 1)
    requires r.values == p.values + [items[n - 1]] && r.types == p.types + [t]
    requires r.names == p.names + [ElementName(name, n - 1)]
    ensures r.values == b.values + items[..n] && r.types == b.types + Copies(t, n)
    ensures r.names == b.names + ElementNames(name, n)
  {
    assert items[..n] == items[..n - 1] + [items[n - 1]];
    assert Copies(t, n) == Copies(t, n - 1) + [t];
    assert ElementNames(name, n) == ElementNames(name, n - 1) + [ElementName(name, n - 1)];
  }

  /** The buffers after the first `n` elements of a list: `(` and their markers, and the
      elements bound in order, all with the same type, under the names `name1` to `name<n>`. */
  ghost predicate ListShaped(b: Buffers, r: Buffers, style: BindVariableType, items: seq<Value>,
                             t: Option<RuntimeType>, name: string, n: nat)
    requires 1 <= n <= |items|
  {
    r.sql == b.sql + "(" + MarkerList(style, name, n) &&
    r.sqlWithValue == b.sqlWithValue + "(" + ValueList(items, n) &&
    r.values == b.values + items[..n] && r.types == b.types + Copies(t, n) &&
    r.names == b.names + ElementNames(name, n)
  }

  /** The first `n` elements give `(` and their markers, and bind the elements in order, all
      with the same type, under the names `name1` to `name<n>`. */
  lemma ListBindsShape(b: Buffers, style: BindVariableType, items: seq<Value>,
                       t: Option<RuntimeType>, name: string, n: nat)
    requires 1 <= n <= |items|
    ensures var r := ListBinds(b, style, items, t, name, n);
      r.sql == b.sql + "(" + MarkerList(style, name, n) &&
      r.sqlWithValue == b.sqlWithValue + "(" + ValueList(items, n) &&
      r.values == b.values + items[..n] && r.types == b.types + Copies(t, n) &&
      r.names == b.names + ElementNames(name, n) && r.enabled == b.enabled
  {
    ListBindsShaped(b, style, items, t, name, n);
  }

  lemma {:induction false} ListBindsShaped(b: Buffers, style: BindVariableType, items: seq<Value>,
                                           t: Option<RuntimeType>, name: string, n: nat)
    requires 1 <= n <= |items|
    ensures ListShaped(b, ListBinds(b, style, items, t, name, n), style, items, t, name, n)
    decreases n
  {
    if n == 1 {
      ListBindsFirst(b, style, items, t, name);
    } else {
      ListBindsShaped(b, style, items, t, name, n - 1);
      ListBindsExtend(b, style, items, t, name, n);
    }
  }

  /** The shape of the first `n - 1` elements extends to the first `n`. */
  lemma ListBindsExtend(b: Buffers, style: BindVariableType, items: seq<Value>,
                        t: Option<RuntimeType>, name: string, n: nat)
    requires 2 <= n <= |items|
    requires ListShaped(b, ListBinds(b, style, items, t, name, n - 1), style, items, t, name, n - 1)
    ensures ListShaped(b, ListBinds(b, style, items, t, name, n), style, items, t, name, n)
  {
    var p := ListBinds(b, style, items, t, name, n - 1);
    var r := ListBinds(b, style, items, t, name, n);
    ListBindsStep(b, style, items, t, name, n);
    ListTextCombine(b, p, r, style, items, name, n);
    ListBindCombine(b, p, r, items, t, name, n);
  }

  lemma ParenBindOutcome(bindName: string, chain: seq<ArgTable>, style: BindVariableType,
                         eval: Evaluator, other: TextRenderer, b: Buffers)
    requires |chain| > 0
    ensures var v := LookupIn(chain, bindName);
      var r := Render(ParenBindVariableNode(bindName), chain, style, eval, other, b);
      (!IsList(v) || |v.items.value| == 0 ==> r == Ok(b)) &&
      (IsList(v) && |v.items.value| > 0 ==>
        var items := v.items.value;
        var n := |items|;
        r == Ok(b.(sql := b.sql + "(" + MarkerList(style, bindName, n) + ")",
                   sqlWithValue := b.sqlWithValue + "(" + ValueList(items, n) + ")",
                   values := b.values + items,
                   types := b.types + Copies(LastNonNullType(items), n),
                   names := b.names + ElementNames(bindName, n))))
  {
    var v := LookupIn(chain, bindName);
    var r := Render(ParenBindVariableNode(bindName), chain, style, eval, other, b);
    if IsList(v) && |v.items.value| > 0 {
      var items := v.items.value;
      var n := |items|;
      var t := LastNonNullType(items);
      var p := ListBinds(b, style, items, t, bindName, n);
      ListBindsShape(b, style, items, t, bindName, n);
      assert items[..n] == items;
      assert r == Ok(AppendText(p, ")"));
      assert AppendText(p, ")") ==
        Buffers(b.sql + "(" + MarkerList(style, bindName, n) + ")",
                b.sqlWithValue + "(" + ValueList(items, n) + ")",
                b.values + items, b.types + Copies(t, n), b.names + ElementNames(bindName, n),
                b.enabled);
    } else {
      assert r == Ok(b);
    }
  }

  /** With plain `?` placeholders a list of n elements reads `?` followed by n - 1 times
      `, ?`. */
  lemma {:induction false} QuestionMarkerList(name: string, n: nat)
    requires n >= 1
    ensures MarkerList(Question, name, n) == "?" + Repeat(", ?", n - 1)
    decreases n
  {
    MarkerForms(Question, name);
    if n > 1 {
      QuestionMarkerList(name, n - 1);
      MarkerForms(Question, ElementName(name, n - 1));
      assert "?" + Repeat(", ?", n - 2) + ", " + "?" == "?" + (Repeat(", ?", n - 2) + ", ?");
    } else {
      MarkerForms(Question, ElementName(name, 0));
    }
  }

  /** The shared type is that of the last non-null element, and null only when every
      element is null. */
  lemma {:induction false} LastNonNullTypeIsLast(items: seq<Value>)
    ensures LastNonNullType(items).None? <==> forall i :: 0 <= i < |items| ==> items[i].Null?
    ensures LastNonNullType(items).Some? ==>
      exists i :: 0 <= i < |items| && !items[i].Null? &&
        items[i].rtype == LastNonNullType(items).value &&
        forall j :: i < j < |items| ==> items[j].Null?
    decreases |items|
  {
    if |items| > 0 {
      var init := items[..|items| - 1];
      LastNonNullTypeIsLast(init);
      assert forall i :: 0 <= i < |init| ==> init[i] == items[i];
      if items[|items| - 1].Null? && LastNonNullType(init).Some? {
        var i :| 0 <= i < |init| && !init[i].Null? && init[i].rtype == LastNonNullType(init).value &&
          forall j :: i < j < |init| ==> init[j].Null?;
        assert forall j :: i < j < |items| ==> items[j].Null?;
      }
    }
  }

  /** Accept: the node renders into the context as Render states. The argument tables are
      the ones the context reaches when the call starts (`chain`). */
  method Accept(node: Node, ctx: CommandContextImpl, ghost chain: seq<ArgTable>, eval: Evaluator,
                other: TextRenderer)
    returns (r: Result<()>)
    requires ctx.Linked() && ctx.Chain() == chain
    modifies ctx`sql, ctx`sqlWithValue, ctx`bindVariables, ctx`bindVariableTypes,
             ctx`bindVariableNames, ctx`isEnabled
    ensures Outcome(r, ctx.State()) ==
      Render(node, chain, ctx.bindVariableType, eval, other, old(ctx.State()))
    decreases node, 2
  {
    match node
    case ContainerNode(_) =>
      r := AcceptChildren(node, ctx, chain, eval, other);
    case ElseNode(_) =>
      r := AcceptChildren(node, ctx, chain, eval, other);
    case SqlNode(sql) =>
      ctx.AddSql(sql);
      r := Ok(());
    case PrefixSqlNode(_, _) =>
      ctx.AddSql(other(node, ctx.isEnabled, Lookup(ctx.Chain())));
      r := Ok(());
    case EmbeddedValueNode(_) =>
      ctx.AddSql(other(node, ctx.isEnabled, Lookup(ctx.Chain())));
      r := Ok(());
    case IfNode(_, _, _) =>
      r := AcceptIf(node, ctx, chain, eval, other);
    case BeginNode(_) =>
      r := AcceptBegin(node, ctx, chain, eval, other);
    case BindVariableNode(_) =>
      AcceptBindVariable(node, ctx, chain);
      r := Ok(());
    case ParenBindVariableNode(_) =>
      AcceptParenBindVariable(node, ctx, chain);
      r := Ok(());
  }

  /** IfNode.Accept. */
  method AcceptIf(node: Node, ctx: CommandContextImpl, ghost chain: seq<ArgTable>, eval: Evaluator,
                  other: TextRenderer)
    returns (r: Result<()>)
    requires node.IfNode? && ctx.Linked() && ctx.Chain() == chain
    modifies ctx`sql, ctx`sqlWithValue, ctx`bindVariables, ctx`bindVariableTypes,
             ctx`bindVariableNames, ctx`isEnabled
    ensures Outcome(r, ctx.State()) ==
      Render(node, chain, ctx.bindVariableType, eval, other, old(ctx.State()))
    decreases node, 1
  {
    var result := eval(node.expression, Lookup(ctx.Chain()));
    if result.None? {
      r := Err(IllegalBoolExpression(node.expression));
    } else if result.value {
      r := AcceptChildren(node, ctx, chain, eval, other);
      if r.Ok? {
        ctx.isEnabled := true;
      }
    } else if node.elseNode.Some? {
      r := Accept(node.elseNode.value, ctx, chain, eval, other);
      if r.Ok? {
        ctx.isEnabled := true;
      }
    } else {
      r := Ok(());
    }
  }

  /** BeginNode.Accept: the children render into a child context, spliced in only when
      it ends up enabled. */
  method AcceptBegin(node: Node, ctx: CommandContextImpl, ghost chain: seq<ArgTable>,
                     eval: Evaluator, other: TextRenderer)
    returns (r: Result<()>)
    requires node.BeginNode? && ctx.Linked() && ctx.Chain() == chain
    modifies ctx`sql, ctx`sqlWithValue, ctx`bindVariables, ctx`bindVariableTypes,
             ctx`bindVariableNames, ctx`isEnabled
    ensures Outcome(r, ctx.State()) ==
      Render(node, chain, ctx.bindVariableType, eval, other, old(ctx.State()))
    decreases node, 1
  {
    var childCtx := new CommandContextImpl.Child(ctx, ctx.bindVariableType);
    r := AcceptChildren(node, childCtx, [ArgTable(map[], map[])] + chain, eval, other);
    if r.Ok? && childCtx.isEnabled {
      ctx.AddSqlBatch(childCtx.sql, childCtx.bindVariables, childCtx.bindVariableTypes,
                      childCtx.bindVariableNames);
    }
  }

  /** BindVariableNode.Accept. */
  method AcceptBindVariable(node: Node, ctx: CommandContextImpl, ghost chain: seq<ArgTable>)
    requires node.BindVariableNode? && ctx.Linked() && ctx.Chain() == chain
    modifies ctx`sql, ctx`sqlWithValue, ctx`bindVariables, ctx`bindVariableTypes,
             ctx`bindVariableNames
    ensures var v := LookupIn(chain, node.expression);
      ctx.State() == AppendBind(old(ctx.State()), ctx.bindVariableType, "?", v, TypeOf(v),
                                ReplaceChar(node.expression, '.', '_'))
  {
    var value := ctx.GetArg(node.expression);
    var t: Option<RuntimeType> := None;
    if !value.Null? {
      t := Some(value.rtype);
    }
    ctx.AddBind(value, t, ReplaceChar(node.expression, '.', '_'));
  }

  /** ParenBindVariableNode.Accept: only a list argument is expanded. */
  method AcceptParenBindVariable(node: Node, ctx: CommandContextImpl, ghost chain: seq<ArgTable>)
    requires node.ParenBindVariableNode? && ctx.Linked() && ctx.Chain() == chain
    modifies ctx`sql, ctx`sqlWithValue, ctx`bindVariables, ctx`bindVariableTypes,
             ctx`bindVariableNames
    ensures var v := LookupIn(chain, node.bindName);
      ctx.State() == if IsList(v) then BindList(old(ctx.State()), ctx.bindVariableType,
                                                 v.items.value, node.bindName)
                     else old(ctx.State())
  {
    var o := ctx.GetArg(node.bindName);
    if IsList(o) {
      BindArray(ctx, o.items.value, node.bindName);
    }
  }

  /** The children in order, stopping at the first error. */
  method AcceptChildren(node: Node, ctx: CommandContextImpl, ghost chain: seq<ArgTable>,
                        eval: Evaluator, other: TextRenderer)
    returns (r: Result<()>)
    requires HasChildren(node) && ctx.Linked() && ctx.Chain() == chain
    modifies ctx`sql, ctx`sqlWithValue, ctx`bindVariables, ctx`bindVariableTypes,
             ctx`bindVariableNames, ctx`isEnabled
    ensures Outcome(r, ctx.State()) ==
      RenderChildren(node, |node.children|, chain, ctx.bindVariableType, eval, other,
                     old(ctx.State()))
    decreases node, 0
  {
    r := Ok(());
    for i := 0 to |node.children|
      invariant ctx.Chain() == chain
      invariant Outcome(r, ctx.State()) ==
        RenderChildren(node, i, chain, ctx.bindVariableType, eval, other, old(ctx.State()))
      invariant r.Ok?
    {
      r := Accept(node.children[i], ctx, chain, eval, other);
      if r.Err? {
        ErrorStopsChildren(node, i + 1, |node.children|, chain, ctx.bindVariableType, eval,
                           other, old(ctx.State()));
        return;
      }
    }
  }

  /** _BindArray: the shared type, then `(`, the first element, the others with AppendSql,
      and `)`; nothing at all for an empty list. */
  method BindArray(ctx: CommandContextImpl, items: seq<Value>, bindName: string)
    modifies ctx`sql, ctx`sqlWithValue, ctx`bindVariables, ctx`bindVariableTypes,
             ctx`bindVariableNames
    ensures ctx.State() == BindList(old(ctx.State()), ctx.bindVariableType, items, bindName)
  {
    var length := |items|;
    if length == 0 {
      return;
    }
    var t: Option<RuntimeType> := None;
    for i := 0 to length
      invariant t == LastNonNullType(items[..i])
    {
      assert items[..i + 1][..i] == items[..i];
      if !items[i].Null? {
        t := Some(items[i].rtype);
      }
    }
    assert items[..length] == items;
    ghost var b0 := ctx.State();
    ghost var style := ctx.bindVariableType;
    ctx.AddSql("(");
    ctx.AddBind(items[0], t, bindName + NatToString(1));
    assert ctx.State() == ListBinds(b0, style, items, t, bindName, 1);
    for i := 1 to length
      invariant ctx.bindVariableType == style
      invariant ctx.State() == ListBinds(b0, style, items, t, bindName, i)
    {
      ctx.AppendSql(items[i], t, bindName + NatToString(i + 1));
      assert ctx.State() == ListBinds(b0, style, items, t, bindName, i + 1);
    }
    ctx.AddSql(")");
    assert ctx.State() == AppendText(ListBinds(b0, style, items, t, bindName, length), ")");
  }
}
