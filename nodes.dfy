/**
 * The node tree the parser builds. Nodes are values: once the parser has built a tree,
 * rendering never changes it. A node that is still being filled by the parser is an
 * OpenNode, and the child-list operations of AbstractNode work on it.
 */
module Nodes {
  import opened Errors

  datatype Node =
    /** The root, rendering its children in order. */
    | ContainerNode(children: seq<Node>)
    /** Literal SQL text. */
    | SqlNode(sql: string)
    /** A leading AND/OR (with its white space) and the rest of the fragment. */
    | PrefixSqlNode(prefix: string, sql: string)
    /** The rewritten condition, the children rendered when it holds, and the ElseNode
        attached by `-- ELSE`. */
    | IfNode(expression: string, children: seq<Node>, elseNode: Option<Node>)
    /** The children rendered when the condition does not hold. */
    | ElseNode(children: seq<Node>)
    /** Children rendered into a child context. */
    | BeginNode(children: seq<Node>)
    /** One placeholder bound to the argument named by the expression. */
    | BindVariableNode(expression: string)
    /** A list argument expanded into a parenthesised placeholder list. */
    | ParenBindVariableNode(bindName: string)
    /** An argument's text embedded in the SQL. */
    | EmbeddedValueNode(expression: string)

  /** The name of a node's exact runtime type, which `GetType()` compares. */
  function TypeName(n: Node): string {
    match n
    case ContainerNode(_) => "ContainerNode"
    case SqlNode(_) => "SqlNode"
    case PrefixSqlNode(_, _) => "PrefixSqlNode"
    case IfNode(_, _, _) => "IfNode"
    case ElseNode(_) => "ElseNode"
    case BeginNode(_) => "BeginNode"
    case BindVariableNode(_) => "BindVariableNode"
    case ParenBindVariableNode(_) => "ParenBindVariableNode"
    case EmbeddedValueNode(_) => "EmbeddedValueNode"
  }

  /** A node on the parser's stack, whose child list still grows. An IF that has met
      `-- ELSE` is represented by its ElseNode, which carries the IF it belongs to. */
  datatype OpenNode =
    | OpenContainer(children: seq<Node>)
    | OpenIf(expression: string, children: seq<Node>)
    | OpenElse(ifExpression: string, ifChildren: seq<Node>, children: seq<Node>)
    | OpenBegin(children: seq<Node>)

  /** The runtime type of the node an OpenNode stands for. */
  function OpenTypeName(n: OpenNode): string {
    match n
    case OpenContainer(_) => "ContainerNode"
    case OpenIf(_, _) => "IfNode"
    case OpenElse(_, _, _) => "ElseNode"
    case OpenBegin(_) => "BeginNode"
  }

  /** ChildSize. */
  function ChildSize(n: OpenNode): nat {
    |n.children|
  }

  /** GetChild(index): the index-th child added. */
  function GetChild(n: OpenNode, index: nat): Node
    requires index < ChildSize(n)
  {
    n.children[index]
  }

  /** AddChild: the child goes at the end; nothing else about the node changes. */
  function AddChild(n: OpenNode, child: Node): (r: OpenNode)
    ensures ChildSize(r) == ChildSize(n) + 1 && GetChild(r, ChildSize(n)) == child
    ensures forall i :: 0 <= i < ChildSize(n) ==> GetChild(r, i) == GetChild(n, i)
    ensures OpenTypeName(r) == OpenTypeName(n)
    ensures r.OpenIf? ==> r.expression == n.expression
    ensures r.OpenElse? ==> r.ifExpression == n.ifExpression && r.ifChildren == n.ifChildren
  {
    n.(children := n.children + [child])
  }

  /** A block that has reached its END, as the node the parent holds. */
  function Close(n: OpenNode): (r: Node)
    ensures TypeName(r) == (if n.OpenElse? then "IfNode" else OpenTypeName(n))
  {
    match n
    case OpenContainer(children) => ContainerNode(children)
    case OpenIf(expression, children) => IfNode(expression, children, None)
    case OpenElse(ifExpression, ifChildren, children) => IfNode(ifExpression, ifChildren, Some(ElseNode(children)))
    case OpenBegin(children) => BeginNode(children)
  }

  /** A new node has no children. */
  lemma NewNodesAreEmpty()
    ensures ChildSize(OpenContainer([])) == 0 && ChildSize(OpenBegin([])) == 0
    ensures forall e :: ChildSize(OpenIf(e, [])) == 0
  {
  }

  /** ContainsChild(childType): whether some child has exactly that runtime type. */
  method ContainsChild(children: seq<Node>, childType: string) returns (r: bool)
    ensures r <==> exists i :: 0 <= i < |children| && TypeName(children[i]) == childType
  {
    for i := 0 to |children|
      invariant forall j :: 0 <= j < i ==> TypeName(children[j]) != childType
    {
      if TypeName(children[i]) == childType {
        return true;
      }
    }
    return false;
  }
}
