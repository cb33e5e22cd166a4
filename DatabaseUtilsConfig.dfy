/**
 * The DatabaseUtils configuration: a list of one-dict lists, looked up by database name,
 * and the `MssqlDatabase` objects built from the lookup.
 */
module DatabaseUtilsConfig {
  import opened Wrappers
  import opened PyStr
  import MssqlScripter

  /** One configured database dict. */
  datatype DbDict = DbDict(name: string, relPath: string, server: string, username: string, password: string)

  /** The configured list: each item is a list holding one dict. */
  const DATABASES: seq<seq<DbDict>> := [
    [DbDict("Northwind", "..\\Databases\\Northwind", "localhost", "sa", "")],
    [DbDict("WideWorldImporters", "..\\Databases\\Northwind", "localhost", "sa", "")]
  ]

  /** What `get_databases_as_dict` returns: the whole configured list, the one matching
      item, or `None`. */
  datatype Lookup = All(items: seq<seq<DbDict>>) | Found(item: seq<DbDict>) | NotFound

  /** An item whose first dict has the name, compared after stripping and ignoring case. */
  predicate Matches(item: seq<DbDict>, name: string) {
    item != [] && Norm(item[0].name) == Norm(name)
  }

  /** An item the search passes over: it has a first dict, of another name. */
  predicate Misses(item: seq<DbDict>, name: string) {
    item != [] && Norm(item[0].name) != Norm(name)
  }

  /** The search loop from item `k` on: the index of the first matching item; `db[0]` of an
      empty item raises IndexError. */
  function FirstMatch(dbs: seq<seq<DbDict>>, name: string, k: nat): (r: Result<Option<nat>>)
    requires k <= |dbs|
    ensures r.Ok? && r.value.Some? ==> k <= r.value.value < |dbs| && Matches(dbs[r.value.value], name)
    ensures r.Ok? && r.value.Some? ==> forall j :: k <= j < r.value.value ==> Misses(dbs[j], name)
    ensures r.Ok? && r.value.None? ==> forall j :: k <= j < |dbs| ==> Misses(dbs[j], name)
    ensures r.Err? ==> r.error == IndexError && exists j :: k <= j < |dbs| && dbs[j] == []
    decreases |dbs| - k
  {
    if k == |dbs| then Ok(None)
    else if dbs[k] == [] then Err(IndexError)
    else if Matches(dbs[k], name) then Ok(Some(k))
    else FirstMatch(dbs, name, k + 1)
  }

  /** `get_databases_as_dict(database_name)`: the whole list for an empty or missing name,
      otherwise the first matching item, or `None`. */
  function GetDatabasesAsDict(dbs: seq<seq<DbDict>>, databaseName: Option<string>): (r: Result<Lookup>)
    ensures databaseName.None? || databaseName.value == [] ==> r == Ok(All(dbs))
    ensures r.Ok? && r.value.Found? ==> (r.value.item in dbs && databaseName.Some?
                                         && Matches(r.value.item, databaseName.value))
    ensures r.Ok? && r.value.NotFound? ==> (databaseName.Some?
                                            && forall j :: 0 <= j < |dbs| ==> Misses(dbs[j], databaseName.value))
    ensures r.Err? ==> r.error == IndexError && [] in dbs
  {
    if databaseName.None? || databaseName.value == [] then Ok(All(dbs))
    else
      match FirstMatch(dbs, databaseName.value, 0)
      case Err(e) => Err(e)
      case Ok(None) => Ok(NotFound)
      case Ok(Some(i)) => Ok(Found(dbs[i]))
  }

  /** The database built for one dict: `local_path` is the relative path and the port,
      `None`, becomes 1433. */
  function DatabaseFor(db: DbDict): MssqlScripter.MssqlDatabase {
    MssqlScripter.NewMssqlDatabase(db.server, db.name, db.username, db.password, None, Some(db.relPath))
  }

  function DatabasesFor(item: seq<DbDict>): (r: seq<MssqlScripter.MssqlDatabase>)
    ensures |r| == |item|
    ensures forall i :: 0 <= i < |item| ==> r[i] == DatabaseFor(item[i])
  {
    if item == [] then [] else DatabasesFor(item[..|item| - 1]) + [DatabaseFor(item[|item| - 1])]
  }

  /** `get_databases_as_obj(database_name)`: one database per dict of the matching item.
      With an empty name the loop meets a list where it expects a dict, and with no match
      it iterates `None`; both raise TypeError. */
  function DatabasesAsObj(dbs: seq<seq<DbDict>>, databaseName: Option<string>): Result<seq<MssqlScripter.MssqlDatabase>> {
    match GetDatabasesAsDict(dbs, databaseName)
    case Err(e) => Err(e)
    case Ok(All(items)) => if items == [] then Ok([]) else Err(TypeError)
    case Ok(Found(item)) => Ok(DatabasesFor(item))
    case Ok(NotFound) => Err(TypeError)
  }

  /** A database is built for a name only when the name matches a configured one; each
      built database carries the dict's server, name, credentials and relative path, on port
      1433. An empty name raises TypeError unless nothing is configured. */
  lemma DatabasesAsObjMeaning(dbs: seq<seq<DbDict>>, databaseName: Option<string>)
    ensures var r := DatabasesAsObj(dbs, databaseName);
      (databaseName.None? || databaseName.value == []) ==> r == (if dbs == [] then Ok([]) else Err(TypeError))
    ensures var r := DatabasesAsObj(dbs, databaseName);
      r.Ok? && databaseName.Some? && databaseName.value != [] ==>
        exists j :: 0 <= j < |dbs| && Matches(dbs[j], databaseName.value) && Built(r.value, dbs[j])
  {
    var r := DatabasesAsObj(dbs, databaseName);
    if r.Ok? && databaseName.Some? && databaseName.value != [] {
      var j := FirstMatch(dbs, databaseName.value, 0).value.value;
      assert Matches(dbs[j], databaseName.value) && Built(r.value, dbs[j]);
    }
  }

  /** The databases built for an item: one per dict, with the dict's server, name,
      credentials and relative path, on port 1433. */
  predicate Built(r: seq<MssqlScripter.MssqlDatabase>, item: seq<DbDict>) {
    |r| == |item|
    && forall i :: 0 <= i < |item| ==>
         (r[i].server == item[i].server && r[i].database == item[i].name && r[i].username == item[i].username
          && r[i].password == item[i].password && r[i].localPath == Some(item[i].relPath) && r[i].port == 1433)
  }

  /** With a name that matches nothing, the lookup is `None` and building raises
      TypeError. */
  lemma DatabasesAsObjNoMatch(dbs: seq<seq<DbDict>>, name: string)
    requires name != []
    requires forall j :: 0 <= j < |dbs| ==> Misses(dbs[j], name)
    ensures GetDatabasesAsDict(dbs, Some(name)) == Ok(NotFound)
    ensures DatabasesAsObj(dbs, Some(name)) == Err(TypeError)
  {
  }

  /** When every item has a dict, a name matching item `j` and no earlier item finds item
      `j`, and the databases built are those of item `j`. */
  lemma FoundByName(dbs: seq<seq<DbDict>>, j: nat, name: string)
    requires j < |dbs| && name != [] && Matches(dbs[j], name)
    requires forall i :: 0 <= i < |dbs| ==> dbs[i] != []
    requires forall i :: 0 <= i < j ==> Misses(dbs[i], name)
    ensures GetDatabasesAsDict(dbs, Some(name)) == Ok(Found(dbs[j]))
    ensures DatabasesAsObj(dbs, Some(name)) == Ok(DatabasesFor(dbs[j]))
  {
    assert !Misses(dbs[j], name);
  }

  /** Over the configured list, every configured name, in any case and with any surrounding
      whitespace, builds the one database of its own item, while no name raises TypeError. */
  lemma ConfiguredDatabases(j: nat, name: string)
    requires j < |DATABASES| && Norm(name) == Norm(DATABASES[j][0].name)
    ensures DatabasesAsObj(DATABASES, Some(name)) == Ok([DatabaseFor(DATABASES[j][0])])
    ensures DatabasesAsObj(DATABASES, None) == Err(TypeError)
  {
    ConfiguredNamesDiffer();
    StripFacts(name);
    assert name != [];
    TwoSingleItems(DATABASES, j, name);
  }

  /** Over two one-dict items whose names differ, a name matching either builds that item's
      database, and no name reaches the build loop with lists. */
  lemma TwoSingleItems(dbs: seq<seq<DbDict>>, j: nat, name: string)
    requires |dbs| == 2 && |dbs[0]| == 1 && |dbs[1]| == 1
    requires |Norm(dbs[0][0].name)| != |Norm(dbs[1][0].name)|
    requires j < 2 && name != [] && Norm(name) == Norm(dbs[j][0].name)
    ensures DatabasesAsObj(dbs, Some(name)) == Ok([DatabaseFor(dbs[j][0])])
    ensures DatabasesAsObj(dbs, None) == Err(TypeError)
  {
    if j == 1 {
      assert Norm(dbs[0][0].name) != Norm(name);
    }
    FoundByName(dbs, j, name);
    var item := dbs[j];
    assert DatabasesFor(item) == [DatabaseFor(item[0])] by {
      assert item[..0] == [];
    }
  }

  /** The two configured names stay apart after trimming and lower-casing. */
  lemma ConfiguredNamesDiffer()
    ensures |DATABASES| == 2 && |DATABASES[0]| == 1 && |DATABASES[1]| == 1
    ensures |Norm(DATABASES[0][0].name)| == 9 && |Norm(DATABASES[1][0].name)| == 18
  {
    var n0, n1 := DATABASES[0][0].name, DATABASES[1][0].name;
    StripOfStripped(n0);
    StripOfStripped(n1);
  }

  /** The building loop of `get_databases_as_obj`. */
  method GetDatabasesAsObj(dbs: seq<seq<DbDict>>, databaseName: Option<string>)
    returns (r: Result<seq<MssqlScripter.MssqlDatabase>>)
    ensures r == DatabasesAsObj(dbs, databaseName)
  {
    var lookup := GetDatabasesAsDict(dbs, databaseName);
    if lookup.Err? {
      return Err(lookup.error);
    }
    match lookup.value
    case NotFound =>
      return Err(TypeError);
    case All(items) =>
      if items != [] {
        return Err(TypeError);
      }
      return Ok([]);
    case Found(item) =>
      var databases := BuildDatabases(item);
      return Ok(databases);
  }

  /** The loop body of `get_databases_as_obj`: one `MssqlDatabase` appended per dict. */
  method BuildDatabases(item: seq<DbDict>) returns (databases: seq<MssqlScripter.MssqlDatabase>)
    ensures databases == DatabasesFor(item)
  {
    databases := [];
    for i := 0 to |item|
      invariant databases == DatabasesFor(item[..i])
    {
      assert item[..i + 1][..i] == item[..i];
      var db := item[i];
      databases := databases + [MssqlScripter.NewMssqlDatabase(db.server, db.name, db.username, db.password,
                                                               None, Some(db.relPath))];
    }
    assert item[..|item|] == item;
  }
}
