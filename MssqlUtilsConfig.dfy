/**
 * The MssqlUtils configuration: the connections built from the configured database
 * entries, with default credentials, and the host filter of `get_databases`.
 */
module MssqlUtilsConfig {
  import opened Wrappers
  import opened PyStr
  import MssqlScripter

  /** One configured database entry. */
  datatype DatabaseEntry = DatabaseEntry(host: string, database: string, username: string, password: string)

  /** `MssqlConnection`: the port is the constructor's default, 1433. */
  datatype MssqlConnection = MssqlConnection(host: string, database: string, username: string, password: string, port: int)

  const DEFAULT_USERNAME := "sa"
  const DEFAULT_PASSWORD := ""

  /** The configured entries: one local Northwind database with empty credentials. */
  const DATABASES := [DatabaseEntry("localhost", "Northwind", "", "")]

  /** `get_connections()` over the given entries: one connection per entry, in order; an
      empty username or password becomes the default, decided for each entry on its own. */
  method GetConnectionsFrom(entries: seq<DatabaseEntry>) returns (connections: seq<MssqlConnection>)
    ensures |connections| == |entries|
    ensures forall i :: 0 <= i < |entries| ==>
      connections[i].host == entries[i].host && connections[i].database == entries[i].database
      && connections[i].port == 1433
    ensures forall i :: 0 <= i < |entries| ==>
      connections[i].username == (if entries[i].username == [] then DEFAULT_USERNAME else entries[i].username)
    ensures forall i :: 0 <= i < |entries| ==>
      connections[i].password == (if entries[i].password == [] then DEFAULT_PASSWORD else entries[i].password)
  {
    var username := "";
    var password := "";
    connections := [];
    for i := 0 to |entries|
      invariant |connections| == i
      invariant forall k :: 0 <= k < i ==>
        connections[k].host == entries[k].host && connections[k].database == entries[k].database
        && connections[k].port == 1433
      invariant forall k :: 0 <= k < i ==>
        connections[k].username == (if entries[k].username == [] then DEFAULT_USERNAME else entries[k].username)
      invariant forall k :: 0 <= k < i ==>
        connections[k].password == (if entries[k].password == [] then DEFAULT_PASSWORD else entries[k].password)
    {
      var database := entries[i];
      if database.username == [] {
        username := DEFAULT_USERNAME;
      } else {
        username := database.username;
      }
      if database.password == [] {
        password := DEFAULT_PASSWORD;
      } else {
        password := database.password;
      }
      var conn := MssqlConnection(database.host, database.database, username, password, 1433);
      connections := connections + [conn];
    }
  }

  /** `get_connections()`: the one configured entry, as user 'sa' with an empty password on
      port 1433. */
  method GetConnections() returns (connections: seq<MssqlConnection>)
    ensures connections == [MssqlConnection("localhost", "Northwind", "sa", "", 1433)]
  {
    connections := GetConnectionsFrom(DATABASES);
  }

  /** The connections `get_databases(db_name)` keeps: those whose host equals `db_name`
      ignoring surrounding whitespace and case, or all of them when `db_name` is empty. */
  function HostFilter(conns: seq<MssqlConnection>, dbName: string): (r: seq<MssqlConnection>)
    ensures dbName == [] ==> r == conns
    ensures forall c :: c in r <==> c in conns && (dbName == [] || Norm(c.host) == Norm(dbName))
  {
    if conns == [] then []
    else
      var init := HostFilter(conns[..|conns| - 1], dbName);
      var c := conns[|conns| - 1];
      assert conns == conns[..|conns| - 1] + [c];
      if dbName == [] || Norm(c.host) == Norm(dbName) then init + [c] else init
  }

  /** `get_databases(db_name)` over the given connections. `MssqlDatabase(connection=conn)`
      does not match the `MssqlDatabase` constructor, so the first connection the filter
      keeps raises TypeError; the result is an empty list only when the filter keeps
      none. */
  method GetDatabasesFrom(conns: seq<MssqlConnection>, dbName: Option<string>)
    returns (r: Result<seq<MssqlScripter.MssqlDatabase>>)
    ensures r.Ok? <==> HostFilter(conns, if dbName.Some? then dbName.value else "") == []
    ensures r.Ok? ==> r.value == []
    ensures r.Err? ==> r.error == TypeError
  {
    var name := if dbName.Some? then dbName.value else "";
    var databases: seq<MssqlScripter.MssqlDatabase> := [];
    for i := 0 to |conns|
      invariant HostFilter(conns[..i], name) == []
    {
      assert conns[..i + 1][..i] == conns[..i];
      var conn := conns[i];
      if name != [] {
        if Norm(conn.host) != Norm(name) {
          continue;
        }
      }
      return Err(TypeError);
    }
    assert conns[..|conns|] == conns;
    return Ok(databases);
  }

  /** `get_databases(db_name)`: TypeError for a name the configured host matches, and for no
      name at all. */
  method GetDatabases(dbName: Option<string>) returns (r: Result<seq<MssqlScripter.MssqlDatabase>>)
    ensures var name := if dbName.Some? then dbName.value else "";
      r == if name == [] || Norm(name) == Norm("localhost") then Err(TypeError) else Ok([])
  {
    var conns := GetConnections();
    r := GetDatabasesFrom(conns, dbName);
    var name := if dbName.Some? then dbName.value else "";
    assert conns[0] in conns;
    if name != [] && Norm(name) != Norm("localhost") {
      assert forall c :: c in conns ==> c.host == "localhost";
    }
  }
}
