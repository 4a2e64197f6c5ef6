/**
 * CommandContextImpl: the target the node tree renders into. It holds the argument table
 * (names compared case-insensitively, falling back to a parent context), two text buffers
 * (placeholder SQL, and SQL with the values written in for logging), three lockstep lists
 * of bound values, types and names, and the IsEnabled flag that BEGIN blocks consult.
 */
module CommandContext {
  import opened Text
  import opened Errors

  /** A runtime type as reflection sees it: its full name, the full names of the interfaces
      it implements, and its public properties in declaration order. */
  datatype RuntimeType = RuntimeType(name: string, interfaces: set<string>, properties: seq<Property>)

  /** A property and its declared type. */
  datatype Property = Property(name: string, propertyType: RuntimeType)

  /** An argument value: null, or an object of a runtime type together with the text
      Convert.ToString gives for it, the values of its properties, and its elements when
      it is a collection. */
  datatype Value =
    | Null
    | Obj(rtype: RuntimeType, text: string, fields: map<string, Value>, items: Option<seq<Value>>)

  /** The placeholder styles of the supported ADO.NET providers. */
  datatype BindVariableType = AtmarkWithParam | ColonWithParam | QuestionWithParam | Question

  const IListName: string := "System.Collections.IList"
  const ICollectionName: string := "System.Collections.ICollection"

  /** The runtime types the value formatter writes bare: decimal, byte, double, float, int,
      long, short, sbyte, uint, ulong and ushort. */
  const NumericTypeNames: set<string> := {
    "System.Decimal", "System.Byte", "System.Double", "System.Single", "System.Int32",
    "System.Int64", "System.Int16", "System.SByte", "System.UInt32", "System.UInt64",
    "System.UInt16"
  }

  /** `value.GetType()`, or null for a null value. */
  function TypeOf(v: Value): Option<RuntimeType> {
    if v.Null? then None else Some(v.rtype)
  }

  predicate IsNumeric(v: Value) {
    v.Obj? && v.rtype.name in NumericTypeNames
  }

  /** `o is IList`, with the list's elements. */
  predicate IsList(v: Value) {
    v.Obj? && IListName in v.rtype.interfaces && v.items.Some?
  }

  /** Convert.ToString: the empty string for null. */
  function ConvertToString(v: Value): string {
    if v.Null? then "" else v.text
  }

  /** The value as it is written into the logged SQL of a single bind: numbers bare,
      null as `null`, anything else in single quotes. */
  function FormatValue(v: Value): string {
    if IsNumeric(v) then ConvertToString(v)
    else if v.Null? then "null"
    else "'" + ConvertToString(v) + "'"
  }

  /** Type.GetProperty(name): the declared type of the first property of that name. */
  function FindProperty(properties: seq<Property>, name: string): (r: Option<RuntimeType>)
    ensures r.Some? <==> exists k :: 0 <= k < |properties| && properties[k].name == name
  {
    if |properties| == 0 then None
    else if properties[0].name == name then Some(properties[0].propertyType)
    else FindProperty(properties[1..], name)
  }

  /** PropertyInfo.GetValue: the property's value held by the object; null when the object
      does not hold one. */
  function PropertyValue(v: Value, name: string): Value {
    if v.Obj? && name in v.fields then v.fields[name] else Null
  }

  /** The root's walk along a dotted path: it stops at a null value or an unknown type, and
      yields null at a property the type does not have. */
  function Walk(value: Value, t: Option<RuntimeType>, path: seq<string>): Value
    decreases |path|
  {
    if |path| == 0 || value.Null? || t.None? then value
    else match FindProperty(t.value.properties, path[0])
      case None => Null
      case Some(p) => Walk(PropertyValue(value, path[0]), Some(p), path[1..])
  }

  /** One context's argument tables, keyed by the case-folded name. */
  datatype ArgTable = ArgTable(args: map<string, Value>, argTypes: map<string, Option<RuntimeType>>)

  /** GetArgType along a chain of contexts, nearest first. */
  function TypeIn(chain: seq<ArgTable>, name: string): Option<RuntimeType>
    requires |chain| > 0
    decreases |chain|
  {
    if Fold(name) in chain[0].argTypes then chain[0].argTypes[Fold(name)]
    else if |chain| > 1 then TypeIn(chain[1..], name)
    else None
  }

  /** The root's answer for a name none of the contexts holds: the first segment of the
      dotted path looked up, then walked. */
  function RootWalk(root: ArgTable, name: string): Value {
    var names := Split(name, '.');
    var first := Fold(names[0]);
    Walk(if first in root.args then root.args[first] else Null,
         if first in root.argTypes then root.argTypes[first] else None,
         names[1..])
  }

  /** GetArg along a chain of contexts, nearest first: the local table, then the parent;
      only the root walks a dotted path. */
  function LookupIn(chain: seq<ArgTable>, name: string): Value
    requires |chain| > 0
    decreases |chain|
  {
    if Fold(name) in chain[0].args then chain[0].args[Fold(name)]
    else if |chain| > 1 then LookupIn(chain[1..], name)
    else RootWalk(chain[0], name)
  }

  /** The nearest context holding the name answers. */
  lemma {:induction false} LookupFindsNearest(chain: seq<ArgTable>, name: string, i: nat)
    requires i < |chain| && Fold(name) in chain[i].args
    requires forall j :: 0 <= j < i ==> Fold(name) !in chain[j].args
    ensures LookupIn(chain, name) == chain[i].args[Fold(name)]
    decreases i
  {
    if i > 0 {
      assert Fold(name) !in chain[0].args;
      LookupFindsNearest(chain[1..], name, i - 1);
    }
  }

  /** When no context holds the name, the root's walk answers; a name without a dot is
      then null. */
  lemma {:induction false} LookupFallsToRoot(chain: seq<ArgTable>, name: string)
    requires |chain| > 0
    requires forall i :: 0 <= i < |chain| ==> Fold(name) !in chain[i].args
    ensures LookupIn(chain, name) == RootWalk(chain[|chain| - 1], name)
    ensures '.' !in name ==> LookupIn(chain, name) == Null
    decreases |chain|
  {
    assert Fold(name) !in chain[0].args;
    if |chain| > 1 {
      assert forall i :: 0 <= i < |chain| - 1 ==> chain[1..][i] == chain[i + 1];
      LookupFallsToRoot(chain[1..], name);
    } else if '.' !in name {
      SplitWithoutSeparator(name, '.');
    }
  }

  /** Split of a text without the separator is the text alone. */
  lemma {:induction false} SplitWithoutSeparator(s: string, c: char)
    requires c !in s
    ensures Split(s, c) == [s]
    decreases |s|
  {
    if |s| > 0 {
      SplitWithoutSeparator(s[..|s| - 1], c);
      assert s[..|s| - 1] + [s[|s| - 1]] == s;
    }
  }

  /** The text a placeholder fragment contributes to the SQL in each style: `?` becomes
      `@name` or `:name`, the name follows the fragment, or the fragment stays as it is. */
  function Placeholder(style: BindVariableType, s: string, name: string): string {
    match style
    case AtmarkWithParam => Replace(s, "?", "@" + name)
    case ColonWithParam => Replace(s, "?", ":" + name)
    case QuestionWithParam => s + name
    case Question => s
  }

  /** The placeholder a single bind writes. */
  function Marker(style: BindVariableType, name: string): string {
    Placeholder(style, "?", name)
  }

  /** The name of a list's element at 0-based index `i`: the list's name followed by `i + 1`. */
  function ElementName(name: string, i: nat): string {
    name + NatToString(i + 1)
  }

  /** The names of a list's first `n` elements. */
  function ElementNames(name: string, n: nat): (r: seq<string>)
    ensures |r| == n && forall i :: 0 <= i < n ==> r[i] == ElementName(name, i)
  {
    seq(n, i requires 0 <= i < n => ElementName(name, i))
  }

  /** Each style's marker: `@name`, `:name`, `?name` and `?`. */
  lemma MarkerForms(style: BindVariableType, name: string)
    ensures Marker(AtmarkWithParam, name) == "@" + name
    ensures Marker(ColonWithParam, name) == ":" + name
    ensures Marker(QuestionWithParam, name) == "?" + name
    ensures Marker(Question, name) == "?"
    ensures |Marker(style, name)| > 0
    ensures Marker(style, name)[0] == (match style
      case AtmarkWithParam => '@' case ColonWithParam => ':' case _ => '?')
  {
    ReplaceSingleMarker([], [], '?', "@" + name);
    ReplaceSingleMarker([], [], '?', ":" + name);
    assert [] + "?" + [] == "?";
  }

  /** The buffers and bind lists of a context. */
  datatype Buffers = Buffers(
    sql: string,
    sqlWithValue: string,
    values: seq<Value>,
    types: seq<Option<RuntimeType>>,
    names: seq<string>,
    enabled: bool)

  /** The three bind lists have equal length. */
  predicate Lockstep(b: Buffers) {
    |b.values| == |b.types| == |b.names|
  }

  /** AddSql(sql). */
  function AppendText(b: Buffers, s: string): Buffers {
    b.(sql := b.sql + s, sqlWithValue := b.sqlWithValue + s)
  }

  /** AddSql(sql, value, type, name). */
  function AppendBind(b: Buffers, style: BindVariableType, s: string, v: Value,
                      t: Option<RuntimeType>, name: string): Buffers
  {
    b.(sql := b.sql + Placeholder(style, s, name),
       sqlWithValue := b.sqlWithValue + Replace(s, "?", FormatValue(v)),
       values := b.values + [v], types := b.types + [t], names := b.names + [name])
  }

  /** A fragment with one `?` becomes the fragment with that `?` turned into the marker. */
  lemma PlaceholderFragment(style: BindVariableType, pre: string, post: string, name: string)
    requires '?' !in pre && '?' !in post
    requires style == QuestionWithParam ==> post == []
    ensures Placeholder(style, pre + "?" + post, name) == pre + Marker(style, name) + post
  {
    MarkerForms(style, name);
    match style
    case AtmarkWithParam =>
      ReplaceSingleMarker(pre, post, '?', "@" + name);
    case ColonWithParam =>
      ReplaceSingleMarker(pre, post, '?', ":" + name);
    case QuestionWithParam =>
      assert post == [];
      assert pre + "?" + post + name == pre + ("?" + name) + post;
    case Question =>
  }

  /** A fragment with one `?` gains exactly one bind: its marker in the SQL, the formatted
      value in the logged SQL, and one entry on each list. */
  lemma BindFragment(b: Buffers, style: BindVariableType, pre: string, post: string,
                     v: Value, t: Option<RuntimeType>, name: string)
    requires '?' !in pre && '?' !in post
    requires style == QuestionWithParam ==> post == []
    ensures AppendBind(b, style, pre + "?" + post, v, t, name) ==
      b.(sql := b.sql + pre + Marker(style, name) + post,
         sqlWithValue := b.sqlWithValue + pre + FormatValue(v) + post,
         values := b.values + [v], types := b.types + [t], names := b.names + [name])
    ensures Lockstep(b) ==> Lockstep(AppendBind(b, style, pre + "?" + post, v, t, name))
  {
    PlaceholderFragment(style, pre, post, name);
    ReplaceSingleMarker(pre, post, '?', FormatValue(v));
    assert b.sql + (pre + Marker(style, name) + post) == b.sql + pre + Marker(style, name) + post;
    assert b.sqlWithValue + (pre + FormatValue(v) + post) == b.sqlWithValue + pre + FormatValue(v) + post;
  }

  /** One step of the batch AddSql's value substitution as the source writes it: the first
      occurrence of the bare name, and the character before it, give way to the quoted text
      of the value; nothing happens when that occurrence is at the very start. */
  function StepAsWritten(after: string, v: Value, name: string): string {
    var pos := if |name| == 0 then 0 else IndexOf(after, name, 0);
    var quote := if IsNumeric(v) then "" else "'";
    if pos > 0 then after[..pos - 1] + quote + ConvertToString(v) + quote + after[pos + |name|..]
    else after
  }

  /** The corrected step: the first occurrence of the bind's own marker gives way to the
      value formatted as a single bind formats it. */
  function StepCorrected(style: BindVariableType, after: string, v: Value, name: string): string {
    var marker := Marker(style, name);
    var pos := if |marker| == 0 then -1 else IndexOf(after, marker, 0);
    if pos >= 0 then after[..pos] + FormatValue(v) + after[pos + |marker|..] else after
  }

  /** The first `n` substitution steps, as written. */
  function SubstituteAsWritten(s: string, values: seq<Value>, names: seq<string>, n: nat): string
    requires n <= |values| && n <= |names|
  {
    if n == 0 then s
    else StepAsWritten(SubstituteAsWritten(s, values, names, n - 1), values[n - 1], names[n - 1])
  }

  /** The first `n` substitution steps, corrected. */
  function SubstituteCorrected(style: BindVariableType, s: string, values: seq<Value>,
                               names: seq<string>, n: nat): string
    requires n <= |values| && n <= |names|
  {
    if n == 0 then s
    else StepCorrected(style, SubstituteCorrected(style, s, values, names, n - 1), values[n - 1], names[n - 1])
  }

  /** The batch AddSql, with the corrected substitution: the text goes to the SQL as it is,
      the substituted text to the logged SQL, and the triples are appended in order. */
  function AppendBatch(b: Buffers, style: BindVariableType, s: string, values: seq<Value>,
                       types: seq<Option<RuntimeType>>, names: seq<string>): Buffers
    requires |values| == |types| == |names|
  {
    b.(sql := b.sql + s,
       sqlWithValue := b.sqlWithValue + SubstituteCorrected(style, s, values, names, |values|),
       values := b.values + values, types := b.types + types, names := b.names + names)
  }

  /** The batch AddSql as the source writes it, differing from AppendBatch only in the
      logged SQL. */
  function AppendBatchAsWritten(b: Buffers, s: string, values: seq<Value>,
                                types: seq<Option<RuntimeType>>, names: seq<string>): Buffers
    requires |values| == |types| == |names|
  {
    b.(sql := b.sql + s,
       sqlWithValue := b.sqlWithValue + SubstituteAsWritten(s, values, names, |values|),
       values := b.values + values, types := b.types + types, names := b.names + names)
  }

  /** IndexOf finds an occurrence that nothing before it could start. */
  lemma IndexOfAtFirstMarker(s: string, pat: string, k: nat)
    requires |pat| > 0 && OccursAt(s, pat, k)
    requires forall j :: 0 <= j < k ==> s[j] != pat[0]
    ensures IndexOf(s, pat, 0) == k
  {
    IndexOfIsFirst(s, pat, 0);
    var r := IndexOf(s, pat, 0);
    assert r != -1;
    assert s[r..r + |pat|][0] == pat[0];
  }

  /** The intended behaviour: splicing a child that bound one value writes the same logged
      text as the child wrote for itself. */
  lemma CorrectedBatchMatchesChild(style: BindVariableType, pre: string, post: string,
                                   v: Value, name: string)
    requires '?' !in pre && '?' !in post
    requires style == QuestionWithParam ==> post == []
    requires Marker(style, name)[0] !in pre
    ensures StepCorrected(style, Placeholder(style, pre + "?" + post, name), v, name) ==
            Replace(pre + "?" + post, "?", FormatValue(v))
  {
    PlaceholderFragment(style, pre, post, name);
    StepOnSingleMarker(style, pre, post, v, name);
    ReplaceSingleMarker(pre, post, '?', FormatValue(v));
  }

  /** The corrected step finds the marker right after a text that does not hold its first
      character, and puts the value in its place. */
  lemma StepOnSingleMarker(style: BindVariableType, pre: string, post: string, v: Value,
                           name: string)
    requires Marker(style, name)[0] !in pre
    ensures StepCorrected(style, pre + Marker(style, name) + post, v, name) ==
            pre + FormatValue(v) + post
  {
    var m := Marker(style, name);
    MarkerForms(style, name);
    var text := pre + m + post;
    assert text[|pre|..|pre| + |m|] == m;
    assert forall j :: 0 <= j < |pre| ==> text[j] == pre[j];
    IndexOfAtFirstMarker(text, m, |pre|);
    assert text[..|pre|] == pre;
    assert text[|pre| + |m|..] == post;
  }

  /** The number 5 as an Int32 argument. */
  const Five: Value := Obj(RuntimeType("System.Int32", {}, []), "5", map[], None)

  lemma ColumnExampleIndex()
    ensures IndexOf("AND id = @id", "id", 0) == 4
  {
    var t := "AND id = @id";
    assert t[4..6] == "id";
    assert t[0] != 'i' && t[1] != 'i' && t[2] != 'i' && t[3] != 'i';
    IndexOfAtFirstMarker(t, "id", 4);
  }

  lemma ColumnExampleText()
    ensures Placeholder(AtmarkWithParam, "AND id = ?", "id") == "AND id = @id"
    ensures Replace("AND id = ?", "?", "5") == "AND id = 5"
  {
    assert "AND id = " + "?" + [] == "AND id = ?";
    PlaceholderFragment(AtmarkWithParam, "AND id = ", [], "id");
    MarkerForms(AtmarkWithParam, "id");
    assert "AND id = " + ("@" + "id") + [] == "AND id = @id";
    ReplaceSingleMarker("AND id = ", [], '?', "5");
    assert "AND id = " + "5" + [] == "AND id = 5";
  }

  lemma FiveIsNumber()
    ensures IsNumeric(Five) && FormatValue(Five) == "5" && ConvertToString(Five) == "5"
  {
    assert "System.Int32" in NumericTypeNames;
  }

  /** The source's substitution on a typical block: with `@` placeholders, the child's SQL
      `AND id = @id` bound to the number 5 is logged as `AND5 = @id`, whereas the child
      logged `AND id = 5`. */
  lemma AsWrittenSplicesColumnName()
    ensures StepAsWritten(Placeholder(AtmarkWithParam, "AND id = ?", "id"), Five, "id") == "AND5 = @id"
    ensures Replace("AND id = ?", "?", FormatValue(Five)) == "AND id = 5"
  {
    ColumnExampleText();
    FiveIsNumber();
    ColumnExampleStep();
  }

  lemma ColumnExampleStep()
    ensures StepAsWritten("AND id = @id", Five, "id") == "AND5 = @id"
  {
    var t := "AND id = @id";
    FiveIsNumber();
    ColumnExampleIndex();
    var pos := IndexOf(t, "id", 0);
    assert pos == 4;
    var r := t[..pos - 1] + "" + ConvertToString(Five) + "" + t[pos + 2..];
    assert StepAsWritten(t, Five, "id") == r;
    assert t[..3] == "AND" && t[6..] == " = @id";
    assert r == "AND" + "5" + " = @id";
  }

  class CommandContextImpl {
    /** The argument tables, keyed by the case-folded name (OrdinalIgnoreCase). */
    var args: map<string, Value>
    var argTypes: map<string, Option<RuntimeType>>
    var argNames: map<string, string>
    var sql: string
    var sqlWithValue: string
    var bindVariables: seq<Value>
    var bindVariableTypes: seq<Option<RuntimeType>>
    var bindVariableNames: seq<string>
    var bindVariableType: BindVariableType
    var isEnabled: bool
    const parent: CommandContextImpl?
    /** The chain of parents, for framing and termination. */
    ghost const depth: nat
    ghost const ancestors: set<CommandContextImpl>

    ghost predicate Linked()
      decreases depth
    {
      parent != null ==>
        parent in ancestors && ancestors == {parent} + parent.ancestors &&
        parent.depth < depth && parent.Linked()
    }

    /** The argument tables of this context and its parents, nearest first. */
    function Chain(): (c: seq<ArgTable>)
      requires Linked()
      reads this`args, this`argTypes, ancestors`args, ancestors`argTypes
      ensures |c| > 0 && c[0] == ArgTable(args, argTypes)
      ensures parent == null <==> |c| == 1
      ensures parent != null ==> c[1..] == parent.Chain()
      decreases depth
    {
      [ArgTable(args, argTypes)] + (if parent == null then [] else parent.Chain())
    }

    function State(): Buffers
      reads this`sql, this`sqlWithValue, this`bindVariables, this`bindVariableTypes,
            this`bindVariableNames, this`isEnabled
    {
      Buffers(sql, sqlWithValue, bindVariables, bindVariableTypes, bindVariableNames, isEnabled)
    }

    /** A root context: empty, enabled. */
    constructor (style: BindVariableType)
      ensures parent == null && Linked() && bindVariableType == style
      ensures args == map[] && argTypes == map[] && argNames == map[]
      ensures State() == Buffers([], [], [], [], [], true)
    {
      args, argTypes, argNames := map[], map[], map[];
      sql, sqlWithValue := [], [];
      bindVariables, bindVariableTypes, bindVariableNames := [], [], [];
      bindVariableType := style;
      isEnabled := true;
      parent := null;
      depth := 0;
      ancestors := {};
    }

    /** A child context: empty, disabled, answering lookups through its parent. */
    constructor Child(parent: CommandContextImpl, style: BindVariableType)
      requires parent.Linked()
      ensures this.parent == parent && Linked() && bindVariableType == style
      ensures args == map[] && argTypes == map[] && argNames == map[]
      ensures State() == Buffers([], [], [], [], [], false)
      ensures Chain() == [ArgTable(map[], map[])] + parent.Chain()
    {
      args, argTypes, argNames := map[], map[], map[];
      sql, sqlWithValue := [], [];
      bindVariables, bindVariableTypes, bindVariableNames := [], [], [];
      bindVariableType := style;
      isEnabled := false;
      this.parent := parent;
      depth := parent.depth + 1;
      ancestors := {parent} + parent.ancestors;
    }

    method GetArg(name: string) returns (v: Value)
      requires Linked()
      ensures v == LookupIn(Chain(), name)
      decreases depth
    {
      var key := Fold(name);
      if key in args {
        return args[key];
      } else if parent != null {
        v := parent.GetArg(name);
      } else {
        var names := Split(name, '.');
        var first := Fold(names[0]);
        v := if first in args then args[first] else Null;
        var t := GetArgType(names[0]);
        var pos := 1;
        while pos < |names|
          invariant 1 <= pos <= |names|
          invariant Walk(v, t, names[pos..]) == LookupIn(Chain(), name)
        {
          if v.Null? || t.None? {
            break;
          }
          var pi := FindProperty(t.value.properties, names[pos]);
          if pi.None? {
            return Null;
          }
          v := PropertyValue(v, names[pos]);
          t := pi;
          pos := pos + 1;
        }
      }
    }

    method GetArgType(name: string) returns (t: Option<RuntimeType>)
      requires Linked()
      ensures t == TypeIn(Chain(), name)
      decreases depth
    {
      if Fold(name) in argTypes {
        t := argTypes[Fold(name)];
      } else if parent != null {
        t := parent.GetArgType(name);
      } else {
        t := None;
      }
    }

    /** AddArg: the entry for the name, in any letter case, is replaced. */
    method AddArg(name: string, arg: Value, argType: Option<RuntimeType>)
      requires Linked()
      modifies this`args, this`argTypes, this`argNames
      ensures args == old(args)[Fold(name) := arg]
      ensures argTypes == old(argTypes)[Fold(name) := argType]
      ensures argNames == old(argNames)[Fold(name) := name]
      ensures forall n :: Fold(n) == Fold(name) ==>
        LookupIn(Chain(), n) == arg && TypeIn(Chain(), n) == argType
    {
      args := args[Fold(name) := arg];
      argTypes := argTypes[Fold(name) := argType];
      argNames := argNames[Fold(name) := name];
    }

    /** AddSql(sql): the same text on both buffers. */
    method AddSql(s: string)
      modifies this`sql, this`sqlWithValue
      ensures State() == AppendText(old(State()), s)
    {
      sql := sql + s;
      sqlWithValue := sqlWithValue + s;
    }

    /** AddSql(sql, value, type, name). */
    method AddSqlWithBind(s: string, v: Value, t: Option<RuntimeType>, name: string)
      modifies this`sql, this`sqlWithValue, this`bindVariables, this`bindVariableTypes,
               this`bindVariableNames
      ensures State() == AppendBind(old(State()), bindVariableType, s, v, t, name)
    {
      var after := s;
      if bindVariableType == AtmarkWithParam {
        after := Replace(s, "?", "@" + name);
      }
      if bindVariableType == ColonWithParam {
        after := Replace(s, "?", ":" + name);
      }
      if bindVariableType == QuestionWithParam {
        after := s + name;
      }
      sql := sql + after;
      sqlWithValue := sqlWithValue + Replace(s, "?", FormatValue(v));
      bindVariables := bindVariables + [v];
      bindVariableTypes := bindVariableTypes + [t];
      bindVariableNames := bindVariableNames + [name];
    }

    /** AddSql(value, type, name): a single `?`. */
    method AddBind(v: Value, t: Option<RuntimeType>, name: string)
      modifies this`sql, this`sqlWithValue, this`bindVariables, this`bindVariableTypes,
               this`bindVariableNames
      ensures State() == AppendBind(old(State()), bindVariableType, "?", v, t, name)
    {
      AddSqlWithBind("?", v, t, name);
    }

    /** AppendSql(value, type, name): `, ?`. */
    method AppendSql(v: Value, t: Option<RuntimeType>, name: string)
      modifies this`sql, this`sqlWithValue, this`bindVariables, this`bindVariableTypes,
               this`bindVariableNames
      ensures State() == AppendBind(old(State()), bindVariableType, ", ?", v, t, name)
    {
      AddSqlWithBind(", ?", v, t, name);
    }

    /** AddSql(sql, values, types, names): a rendered block spliced in. */
    method AddSqlBatch(s: string, values: seq<Value>, types: seq<Option<RuntimeType>>,
                       names: seq<string>)
      requires |values| == |types| == |names|
      modifies this`sql, this`sqlWithValue, this`bindVariables, this`bindVariableTypes,
               this`bindVariableNames
      ensures State() == AppendBatch(old(State()), bindVariableType, s, values, types, names)
    {
      sql := sql + s;
      var after := s;
      for i := 0 to |types|
        invariant sql == old(sql) + s
        invariant after == SubstituteCorrected(bindVariableType, s, values, names, i)
      {
        after := StepCorrected(bindVariableType, after, values[i], names[i]);
      }
      sqlWithValue := sqlWithValue + after;
      for i := 0 to |values|
        invariant sql == old(sql) + s && sqlWithValue == old(sqlWithValue) + after
        invariant bindVariables == old(bindVariables) + values[..i]
        invariant bindVariableTypes == old(bindVariableTypes) + types[..i]
        invariant bindVariableNames == old(bindVariableNames) + names[..i]
      {
        bindVariables := bindVariables + [values[i]];
        bindVariableTypes := bindVariableTypes + [types[i]];
        bindVariableNames := bindVariableNames + [names[i]];
      }
      assert values[..|values|] == values && types[..|types|] == types && names[..|names|] == names;
    }
  }

  /** Splicing a BEGIN block that logged `AND id = 5` for itself: as written, the parent logs
      `AND5 = @id`. */
  lemma AsWrittenBatchDiffers(b: Buffers)
    ensures AppendBatchAsWritten(b, "AND id = @id", [Five], [TypeOf(Five)], ["id"]).sqlWithValue ==
            b.sqlWithValue + "AND5 = @id"
  {
    ColumnExampleStep();
    assert SubstituteAsWritten("AND id = @id", [Five], ["id"], 1) == StepAsWritten("AND id = @id", Five, "id");
  }

  /** With the corrected substitution the parent logs the child's own `AND id = 5`. */
  lemma CorrectedBatchLogsChild(b: Buffers)
    ensures AppendBatch(b, AtmarkWithParam, "AND id = @id", [Five], [TypeOf(Five)], ["id"]).sqlWithValue ==
            b.sqlWithValue + "AND id = 5"
  {
    var t := "AND id = @id";
    CorrectedStepOnExample();
    assert SubstituteCorrected(AtmarkWithParam, t, [Five], ["id"], 1) == StepCorrected(AtmarkWithParam, t, Five, "id");
  }

  lemma CorrectedStepOnExample()
    ensures StepCorrected(AtmarkWithParam, "AND id = @id", Five, "id") == "AND id = 5"
  {
    ColumnExampleText();
    FiveIsNumber();
    CorrectedBatchMatchesChild(AtmarkWithParam, "AND id = ", [], Five, "id");
    assert "AND id = " + "?" + [] == "AND id = ?";
  }
}
