/**
 * DynamicParameterUtil: the arguments are copied into a fresh DynamicParameters, with every
 * collection-valued argument `name` flattened into `name1`, `name2`, ... in enumeration order,
 * the names ParenBindVariableNode binds a list's elements under.
 */
module DynamicParameterUtil {
  import opened Text
  import opened Errors
  import opened CommandContext

  /** The generic interface definitions IsGenericEnumerable looks for. */
  const GenericICollectionName: string := "System.Collections.Generic.ICollection`1"
  const GenericIListName: string := "System.Collections.Generic.IList`1"

  /** Dapper's DynamicParameters as this utility uses it: the entries added, in order. */
  class DynamicParameters {
    var added: seq<(string, Value)>

    constructor ()
      ensures added == []
    {
      added := [];
    }

    method Add(name: string, value: Value)
      modifies this
      ensures added == old(added) + [(name, value)]
    {
      added := added + [(name, value)];
    }
  }

  /** The argument object handed to a query. */
  datatype Param =
    | Absent
      // an IEnumerable<KeyValuePair<string, object>>, such as a dictionary
    | KeyValuePairs(pairs: seq<(string, Value)>)
      // a DynamicParameters: its parameter names and their values, in enumeration order
    | Dynamic(entries: seq<(string, Value)>)
      // any other object: read through its public properties
    | Object(rtype: RuntimeType, fields: map<string, Value>)

  /** What CreateDynamicParameters returns: null, the argument itself, or new parameters. */
  datatype Recreation = NoParameters | SameParameters | Flattened(entries: seq<(string, Value)>)

  /** One argument to copy: its name, its value and the type it is declared with; none when
      that type is asked of a null value. */
  datatype Source = Source(name: string, value: Value, declared: Option<RuntimeType>)

  /** IsGenericEnumerable: ICollection<T> or IList<T> among the declared type's interfaces. */
  predicate IsGenericEnumerable(t: RuntimeType) {
    GenericICollectionName in t.interfaces || GenericIListName in t.interfaces
  }

  /** Declared types whose values are flattened. */
  predicate IsCollectionType(t: RuntimeType) {
    ICollectionName in t.interfaces || IListName in t.interfaces || IsGenericEnumerable(t)
  }

  /** A cast to the collection interface `iface` followed by a foreach: null cannot be
      enumerated, and a value whose type lacks the interface cannot be cast. */
  function Enumerate(value: Value, iface: string, name: string): (r: Result<seq<Value>>)
    ensures r.Ok? <==> !value.Null? && iface in value.rtype.interfaces && value.items.Some?
    ensures r.Ok? ==> r.value == value.items.value
    ensures value.Null? ==> r == Err(NullParameter(name))
    ensures r.Err? && !value.Null? ==> r == Err(InvalidCast(name))
  {
    if value.Null? then Err(NullParameter(name))
    else if iface in value.rtype.interfaces && value.items.Some? then Ok(value.items.value)
    else Err(InvalidCast(name))
  }

  /** The elements of a list under the names `name1`, `name2`, ... */
  function Numbered(name: string, items: seq<Value>): seq<(string, Value)> {
    seq(|items|, i requires 0 <= i < |items| => (ElementName(name, i), items[i]))
  }

  function Names(entries: seq<(string, Value)>): seq<string> {
    seq(|entries|, i requires 0 <= i < |entries| => entries[i].0)
  }

  function Values(entries: seq<(string, Value)>): seq<Value> {
    seq(|entries|, i requires 0 <= i < |entries| => entries[i].1)
  }

  /** _CreateParameter: the entries one argument adds. The non-generic ICollection and IList
      branches cast to their own interface; the generic branch casts to IList, and falls back
      to enumerating the value as an ICollection only when it is null. */
  function Expand(value: Value, declared: RuntimeType, name: string): Result<seq<(string, Value)>> {
    if ICollectionName in declared.interfaces then
      var items :- Enumerate(value, ICollectionName, name);
      Ok(Numbered(name, items))
    else if IListName in declared.interfaces then
      var items :- Enumerate(value, IListName, name);
      Ok(Numbered(name, items))
    else if IsGenericEnumerable(declared) then
      var items :- Enumerate(value, IListName, name);
      Ok(Numbered(name, items))
    else Ok([(name, value)])
  }

  /** One source: asking a null value for its type fails before anything is added. */
  function ExpandSource(s: Source): Result<seq<(string, Value)>> {
    if s.declared.None? then Err(NullParameter(s.name)) else Expand(s.value, s.declared.value, s.name)
  }

  /** The sources in order; the first failure stops the copy. */
  function Flatten(sources: seq<Source>): (r: Result<seq<(string, Value)>>)
    decreases |sources|
  {
    if |sources| == 0 then Ok([])
    else
      var before :- Flatten(sources[..|sources| - 1]);
      var last :- ExpandSource(sources[|sources| - 1]);
      Ok(before + last)
  }

  /** A property the reflection reads: its value on the object, null when it has none. */
  function FieldOf(fields: map<string, Value>, name: string): Value {
    if name in fields then fields[name] else Null
  }

  /** The sources a DynamicParameters yields: each value with its runtime type. */
  function DynamicSources(entries: seq<(string, Value)>): seq<Source> {
    seq(|entries|, i requires 0 <= i < |entries| =>
      Source(entries[i].0, entries[i].1, TypeOf(entries[i].1)))
  }

  /** The sources an object yields: each public property with its declared type. */
  function PropertySources(properties: seq<Property>, fields: map<string, Value>): seq<Source> {
    seq(|properties|, i requires 0 <= i < |properties| =>
      Source(properties[i].name, FieldOf(fields, properties[i].name),
             Some(properties[i].propertyType)))
  }

  /** CreateDynamicParameters: null stays null, key/value pairs are returned as they are, and
      anything else is flattened into new parameters. */
  function Recreate(param: Param): Result<Recreation> {
    match param
    case Absent => Ok(NoParameters)
    case KeyValuePairs(_) => Ok(SameParameters)
    case Dynamic(entries) =>
      var flat :- Flatten(DynamicSources(entries));
      Ok(Flattened(flat))
    case Object(rtype, fields) =>
      var flat :- Flatten(PropertySources(rtype.properties, fields));
      Ok(Flattened(flat))
  }

  /** A value whose declared type is no collection is added once, under its own name and
      unchanged. */
  lemma ExpandScalar(value: Value, declared: RuntimeType, name: string)
    requires !IsCollectionType(declared)
    ensures Expand(value, declared, name) == Ok([(name, value)])
  {
  }

  /** A collection's elements are added in enumeration order, the i-th (from 0) as
      `name<i+1>`; null, or a value lacking the interface cast to, is an error. */
  lemma ExpandCollection(value: Value, declared: RuntimeType, name: string)
    requires IsCollectionType(declared)
    ensures var iface := if ICollectionName in declared.interfaces then ICollectionName
                         else IListName;
      var r := Expand(value, declared, name);
      (value.Null? ==> r == Err(NullParameter(name))) &&
      (!value.Null? && !(iface in value.rtype.interfaces && value.items.Some?) ==>
        r == Err(InvalidCast(name))) &&
      (!value.Null? && iface in value.rtype.interfaces && value.items.Some? ==>
        r.Ok? && Names(r.value) == ElementNames(name, |value.items.value|) &&
        Values(r.value) == value.items.value)
  {
    var iface := if ICollectionName in declared.interfaces then ICollectionName else IListName;
    if !value.Null? && iface in value.rtype.interfaces && value.items.Some? {
      var items := value.items.value;
      assert Expand(value, declared, name) == Ok(Numbered(name, items));
      assert Names(Numbered(name, items)) == ElementNames(name, |items|);
      assert Values(Numbered(name, items)) == items;
    }
  }

  /** Flattened names are distinct and none is the collection's own name. */
  lemma NumberedNamesDistinct(name: string, items: seq<Value>)
    ensures forall i :: 0 <= i < |items| ==> Numbered(name, items)[i].0 != name
    ensures forall i, j :: 0 <= i < j < |items| ==>
      Numbered(name, items)[i].0 != Numbered(name, items)[j].0
  {
    forall i, j | 0 <= i < j < |items|
      ensures Numbered(name, items)[i].0 != Numbered(name, items)[j].0
    {
      var a, b := ElementName(name, i), ElementName(name, j);
      if a == b {
        assert a[|name|..] == NatToString(i + 1);
        assert b[|name|..] == NatToString(j + 1);
        NatToStringInjective(i + 1, j + 1);
      }
    }
  }

  /** A list argument is flattened to the very names, values and order ParenBindVariableNode
      binds its elements with, so the SQL's markers meet their parameters. */
  lemma ExpandMatchesParenBind(value: Value, name: string)
    requires IsList(value)
    ensures var r := Expand(value, value.rtype, name);
      r.Ok? && Names(r.value) == ElementNames(name, |value.items.value|) &&
      Values(r.value) == value.items.value
  {
    ExpandCollection(value, value.rtype, name);
  }

  /** The sources are copied one after another: those of `a`, then those of `b`. */
  lemma {:induction false} FlattenConcat(a: seq<Source>, b: seq<Source>)
    ensures Flatten(a).Err? ==> Flatten(a + b) == Flatten(a)
    ensures Flatten(a).Ok? && Flatten(b).Ok? ==>
      Flatten(a + b) == Ok(Flatten(a).value + Flatten(b).value)
    ensures Flatten(a).Ok? && Flatten(b).Err? ==> Flatten(a + b) == Flatten(b)
    decreases |b|
  {
    if |b| == 0 {
      assert a + b == a;
      if Flatten(a).Ok? {
        assert Flatten(a).value + [] == Flatten(a).value;
      }
    } else {
      var n := |b|;
      assert (a + b)[..|a + b| - 1] == a + b[..n - 1];
      assert (a + b)[|a + b| - 1] == b[n - 1];
      FlattenConcat(a, b[..n - 1]);
      if Flatten(a).Ok? && Flatten(b[..n - 1]).Ok? && ExpandSource(b[n - 1]).Ok? {
        assert Flatten(a).value + Flatten(b[..n - 1]).value + ExpandSource(b[n - 1]).value ==
               Flatten(a).value + (Flatten(b[..n - 1]).value + ExpandSource(b[n - 1]).value);
      }
    }
  }

  /** The copy succeeds exactly when every source expands, and otherwise fails with the
      first failing source's error, every source before it having expanded. */
  lemma {:induction false} FlattenFirstError(sources: seq<Source>)
    ensures Flatten(sources).Ok? <==>
      forall i :: 0 <= i < |sources| ==> ExpandSource(sources[i]).Ok?
    ensures Flatten(sources).Err? ==>
      exists i :: 0 <= i < |sources| && Flatten(sources) == ExpandSource(sources[i]) &&
                  forall j :: 0 <= j < i ==> ExpandSource(sources[j]).Ok?
    decreases |sources|
  {
    if |sources| > 0 {
      var n := |sources|;
      var init := sources[..n - 1];
      FlattenFirstError(init);
      assert forall i :: 0 <= i < n - 1 ==> init[i] == sources[i];
      if Flatten(init).Err? {
        var i :| 0 <= i < |init| && Flatten(init) == ExpandSource(init[i]) &&
                 forall j :: 0 <= j < i ==> ExpandSource(init[j]).Ok?;
        assert Flatten(sources) == ExpandSource(sources[i]);
      } else if ExpandSource(sources[n - 1]).Err? {
        assert Flatten(sources) == ExpandSource(sources[n - 1]);
      }
    }
  }

  /** Each source as one entry: its own name and its value. */
  function NamedValues(sources: seq<Source>): (r: seq<(string, Value)>)
    ensures |r| == |sources|
    ensures forall i :: 0 <= i < |sources| ==> r[i] == (sources[i].name, sources[i].value)
  {
    if |sources| == 0 then []
    else
      var last := sources[|sources| - 1];
      NamedValues(sources[..|sources| - 1]) + [(last.name, last.value)]
  }

  /** Arguments none of whose types is a collection are copied one entry each, under their
      own names and with their values unchanged. */
  lemma {:induction false} FlattenScalars(sources: seq<Source>)
    requires forall i :: 0 <= i < |sources| ==>
      sources[i].declared.Some? && !IsCollectionType(sources[i].declared.value)
    ensures Flatten(sources) == Ok(NamedValues(sources))
    decreases |sources|
  {
    if |sources| > 0 {
      var n := |sources|;
      var last := sources[n - 1];
      FlattenScalars(sources[..n - 1]);
      ExpandScalar(last.value, last.declared.value, last.name);
      assert ExpandSource(last) == Ok([(last.name, last.value)]);
    }
  }

  /** A null DynamicParameters value fails with its name; so does a property whose value is
      null when its declared type is a collection. */
  lemma NullFails(entries: seq<(string, Value)>, i: nat)
    requires i < |entries| && entries[i].1.Null?
    ensures ExpandSource(DynamicSources(entries)[i]) == Err(NullParameter(entries[i].0))
    ensures Flatten(DynamicSources(entries)).Err?
  {
    FlattenFirstError(DynamicSources(entries));
  }

  /** The foreach of the ICollection and IList branches: a counter from 1 names each element. */
  method AddEach(newParam: DynamicParameters, list: seq<Value>, name: string)
    modifies newParam
    ensures newParam.added == old(newParam.added) + Numbered(name, list)
  {
    var i := 1;
    for k := 0 to |list|
      invariant i == k + 1
      invariant newParam.added == old(newParam.added) + Numbered(name, list[..k])
    {
      assert Numbered(name, list[..k + 1]) == Numbered(name, list[..k]) + [(name + NatToString(i), list[k])];
      newParam.Add(name + NatToString(i), list[k]);
      i := i + 1;
    }
    assert list[..|list|] == list;
  }

  /** _CreateParameter: the entries one argument adds to `newParam`; on an error nothing is
      added. */
  method CreateParameter(newParam: DynamicParameters, value: Value, info: RuntimeType,
                         name: string)
    returns (r: Result<()>)
    modifies newParam
    ensures r.Ok? <==> Expand(value, info, name).Ok?
    ensures r.Ok? ==> newParam.added == old(newParam.added) + Expand(value, info, name).value
    ensures r.Err? ==> r.error == Expand(value, info, name).error &&
                       newParam.added == old(newParam.added)
  {
    if ICollectionName in info.interfaces {
      var list := Enumerate(value, ICollectionName, name);
      if list.Err? {
        return Err(list.error);
      }
      AddEach(newParam, list.value, name);
    } else if IListName in info.interfaces {
      var list := Enumerate(value, IListName, name);
      if list.Err? {
        return Err(list.error);
      }
      AddEach(newParam, list.value, name);
    } else if IsGenericEnumerable(info) {
      if value.Null? {
        // the IList cast yields null and the fallback enumerates that null as an ICollection
        return Err(NullParameter(name));
      }
      var list := Enumerate(value, IListName, name);
      if list.Err? {
        return Err(list.error);
      }
      var val := list.value;
      for i := 0 to |val|
        invariant newParam.added == old(newParam.added) + Numbered(name, val[..i])
      {
        assert Numbered(name, val[..i + 1]) ==
               Numbered(name, val[..i]) + [(name + NatToString(i + 1), val[i])];
        newParam.Add(name + NatToString(i + 1), val[i]);
      }
      assert val[..|val|] == val;
    } else {
      newParam.Add(name, value);
    }
    r := Ok(());
  }

  /** The sources in order into `newParam`, stopping at the first error. */
  method CreateAll(newParam: DynamicParameters, sources: seq<Source>) returns (r: Result<()>)
    modifies newParam
    ensures r.Ok? <==> Flatten(sources).Ok?
    ensures r.Ok? ==> newParam.added == old(newParam.added) + Flatten(sources).value
    ensures r.Err? ==> r.error == Flatten(sources).error
  {
    for k := 0 to |sources|
      invariant Flatten(sources[..k]).Ok?
      invariant newParam.added == old(newParam.added) + Flatten(sources[..k]).value
    {
      assert sources[..k + 1][..k] == sources[..k];
      var s := sources[k];
      if s.declared.None? {
        // p.GetType() on a null value
        r := Err(NullParameter(s.name));
      } else {
        r := CreateParameter(newParam, s.value, s.declared.value, s.name);
      }
      if r.Err? {
        FlattenConcat(sources[..k + 1], sources[k + 1..]);
        assert sources[..k + 1] + sources[k + 1..] == sources;
        return;
      }
    }
    assert sources[..|sources|] == sources;
    r := Ok(());
  }

  /** CreateDynamicParameters: `created` is the new DynamicParameters when one is made. */
  method CreateDynamicParameters(param: Param) returns (r: Result<Recreation>,
                                                       created: DynamicParameters?)
    ensures r == Recreate(param)
    ensures created != null <==> r.Ok? && r.value.Flattened?
    ensures created != null ==> fresh(created) && created.added == r.value.entries
  {
    created := null;
    if param.Absent? {
      assert Recreate(param) == Ok(NoParameters);
      return Ok(NoParameters), null;
    }
    if param.KeyValuePairs? {
      return Ok(SameParameters), null;
    }
    var newParam := new DynamicParameters();
    var sources := if param.Dynamic? then DynamicSources(param.entries)
                   else PropertySources(param.rtype.properties, param.fields);
    ghost var before := newParam.added;
    var result := CreateAll(newParam, sources);
    if result.Err? {
      assert Recreate(param) == Err(Flatten(sources).error);
      return Err(result.error), null;
    }
    assert Recreate(param) == Ok(Flattened(Flatten(sources).value));
    assert before == [] && newParam.added == before + Flatten(sources).value;
    assert [] + Flatten(sources).value == Flatten(sources).value;
    r, created := Ok(Flattened(newParam.added)), newParam;
  }
}
