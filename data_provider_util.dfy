/**
 * DataProviderUtil: the placeholder style follows from the connection's class name.
 */
module DataProviderUtil {
  import opened CommandContext

  /** GetBindVariableType: the short class name of the connection, matched exactly and
      case-sensitively; every unknown provider gets the bare `?` style. */
  function GetBindVariableType(connectionTypeName: string): (r: BindVariableType)
    ensures r == AtmarkWithParam <==>
      connectionTypeName == "SqlConnection" || connectionTypeName == "DB2Connection"
    ensures r == ColonWithParam <==>
      connectionTypeName == "OracleConnection" || connectionTypeName == "NpgsqlConnection"
    ensures r == QuestionWithParam <==> connectionTypeName == "MySqlConnection"
  {
    if connectionTypeName == "SqlConnection" || connectionTypeName == "DB2Connection" then
      AtmarkWithParam
    else if connectionTypeName == "OracleConnection" then ColonWithParam
    else if connectionTypeName == "MySqlConnection" then QuestionWithParam
    else if connectionTypeName == "NpgsqlConnection" then ColonWithParam
    else if connectionTypeName == "FbConnection" then Question
    else Question
  }

  /** The five known providers other than Firebird. */
  predicate NamesParameters(connectionTypeName: string) {
    connectionTypeName in {"SqlConnection", "DB2Connection", "OracleConnection",
                           "NpgsqlConnection", "MySqlConnection"}
  }

  /** Only the five known providers other than Firebird put the parameter's name into the
      SQL; Firebird and every unknown connection get a bare `?`, which binds by position. */
  lemma MarkerNamesParameter(connectionTypeName: string, name: string)
    ensures var m := Marker(GetBindVariableType(connectionTypeName), name);
      (NamesParameters(connectionTypeName) ==> m[|m| - |name|..] == name && |m| == |name| + 1) &&
      (!NamesParameters(connectionTypeName) ==> m == "?")
  {
    MarkerForms(GetBindVariableType(connectionTypeName), name);
  }

  /** The markers each provider's connection gets for a bind named `name`. */
  lemma ProviderMarkers(name: string)
    ensures Marker(GetBindVariableType("SqlConnection"), name) == "@" + name
    ensures Marker(GetBindVariableType("DB2Connection"), name) == "@" + name
    ensures Marker(GetBindVariableType("OracleConnection"), name) == ":" + name
    ensures Marker(GetBindVariableType("NpgsqlConnection"), name) == ":" + name
    ensures Marker(GetBindVariableType("MySqlConnection"), name) == "?" + name
    ensures Marker(GetBindVariableType("FbConnection"), name) == "?"
  {
    MarkerForms(Question, name);
  }
}
