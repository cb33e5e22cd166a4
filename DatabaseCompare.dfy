/**
 * `MssqlDatabase.compare_objects_in_databases`: the catalog query that compares the
 * programmable objects of a source and a destination database, stated as a function over
 * the two catalogs. SQL Server's `HASHBYTES('SHA1', …)` is an uninterpreted function.
 */
module DatabaseCompare {
  import opened Wrappers
  import DatabaseSql

  /** The `type_desc` values both halves of the query keep. */
  const MODULE_TYPES: set<string> :=
    {"SQL_SCALAR_FUNCTION", "SQL_INLINE_TABLE_VALUED_FUNCTION", "VIEW", "SQL_STORED_PROCEDURE"}

  const NOT_EXISTS := "not exists"
  const HASH := "hash"

  /** One row of `sys.objects` joined with its schema and (left-joined) module text. */
  datatype CatalogObject = CatalogObject(objectId: int, schema: string, name: string, typeDesc: string,
                                         definition: Option<string>)

  /** The SHA-1 of a (non-NULL) text. */
  type Hasher = string -> string

  /** T-SQL `TRIM(s)`: leading and trailing spaces only. */
  function SqlTrim(s: string): (r: string)
    decreases |s|
  {
    if s != [] && s[0] == ' ' then SqlTrim(s[1..])
    else if s != [] && s[|s| - 1] == ' ' then SqlTrim(s[..|s| - 1])
    else s
  }

  /** `REPLACE(s, c, '')` */
  function RemoveChar(s: string, c: char): string {
    if s == [] then [] else (if s[0] == c then [] else [s[0]]) + RemoveChar(s[1..], c)
  }

  lemma {:induction false} RemoveCharFacts(s: string, c: char)
    ensures c !in RemoveChar(s, c)
    ensures forall d :: d != c ==> (d in RemoveChar(s, c) <==> d in s)
  {
    if s != [] {
      RemoveCharFacts(s[1..], c);
      assert s == [s[0]] + s[1..];
    }
  }

  /** `ObjDefinition`: trimmed, then every LF and CR removed; NULL stays NULL. */
  function ObjDefinition(definition: Option<string>): (r: Option<string>)
    ensures r.None? <==> definition.None?
  {
    if definition.None? then None else Some(RemoveChar(RemoveChar(SqlTrim(definition.value), '\n'), '\r'))
  }

  /** The normalised text contains no line breaks. */
  lemma ObjDefinitionHasNoLineBreaks(definition: string)
    ensures '\n' !in ObjDefinition(Some(definition)).value && '\r' !in ObjDefinition(Some(definition)).value
  {
    var t := RemoveChar(SqlTrim(definition), '\n');
    RemoveCharFacts(SqlTrim(definition), '\n');
    RemoveCharFacts(t, '\r');
  }

  /** `Sha1Hash`; the hash of NULL is NULL. */
  function Sha1Hash(h: Hasher, o: CatalogObject): Option<string> {
    var d := ObjDefinition(o.definition);
    if d.None? then None else Some(h(d.value))
  }

  function FullName(o: CatalogObject): string {
    o.schema + "." + o.name
  }

  function FullNameQuoted(o: CatalogObject): string {
    DatabaseSql.QuoteName(o.schema) + "." + DatabaseSql.QuoteName(o.name)
  }

  /** A result row, in the query's column order: CompareType, Sha1Hash, object_id,
      FullName, FullNameQuoted, name, type_desc, ObjDefinition. */
  datatype CompareRow = CompareRow(compareType: string, sha1Hash: Option<string>, objectId: int, fullName: string,
                                   fullNameQuoted: string, name: string, typeDesc: string, objDefinition: Option<string>)

  function RowOf(compareType: string, h: Hasher, o: CatalogObject): CompareRow {
    CompareRow(compareType, Sha1Hash(h, o), o.objectId, FullName(o), FullNameQuoted(o), o.name, o.typeDesc,
               ObjDefinition(o.definition))
  }

  /** `c_DB1_GetData` / `c_DB2_GetData`: the objects of the four module types. */
  function Modules(db: seq<CatalogObject>): seq<CatalogObject> {
    if db == [] then []
    else (if db[0].typeDesc in MODULE_TYPES then [db[0]] else []) + Modules(db[1..])
  }

  lemma {:induction false} ModulesMembers(db: seq<CatalogObject>)
    ensures forall o :: o in Modules(db) <==> o in db && o.typeDesc in MODULE_TYPES
  {
    if db != [] {
      ModulesMembers(db[1..]);
      assert db == [db[0]] + db[1..];
    }
  }

  /** The quoted names and the non-NULL hashes of a database's modules. */
  function QuotedNames(db: seq<CatalogObject>): set<string> {
    set o | o in Modules(db) :: FullNameQuoted(o)
  }

  function Hashes(h: Hasher, db: seq<CatalogObject>): set<string> {
    set o | o in Modules(db) && Sha1Hash(h, o).Some? :: Sha1Hash(h, o).value
  }

  /** `c_NotExists`: no destination module has the same quoted name. */
  predicate IsNotExists(o: CatalogObject, dst: seq<CatalogObject>) {
    FullNameQuoted(o) !in QuotedNames(dst)
  }

  /** `c_Hash`: the hash matches no destination hash, under any name; a NULL hash never
      matches. */
  predicate IsHashChange(h: Hasher, o: CatalogObject, dst: seq<CatalogObject>) {
    Sha1Hash(h, o).None? || Sha1Hash(h, o).value !in Hashes(h, dst)
  }

  /** The row a source module contributes to the UNION, if any. */
  function RowFor(h: Hasher, o: CatalogObject, dst: seq<CatalogObject>): seq<CompareRow> {
    if IsNotExists(o, dst) then [RowOf(NOT_EXISTS, h, o)]
    else if IsHashChange(h, o, dst) then [RowOf(HASH, h, o)]
    else []
  }

  /** Both branches of the UNION, before duplicates are removed. */
  function UnionRows(h: Hasher, src: seq<CatalogObject>, dst: seq<CatalogObject>): seq<CompareRow> {
    if src == [] then [] else RowFor(h, src[0], dst) + UnionRows(h, src[1..], dst)
  }

  lemma {:induction false} UnionRowsMembers(h: Hasher, src: seq<CatalogObject>, dst: seq<CatalogObject>)
    ensures forall r :: r in UnionRows(h, src, dst) <==> exists o :: o in src && r in RowFor(h, o, dst)
  {
    if src != [] {
      UnionRowsMembers(h, src[1..], dst);
      assert src == [src[0]] + src[1..];
    }
  }

  // Ordering: ORDER BY CompareType, FullNameQuoted, with an ordinal string order.

  predicate StrLe(a: string, b: string)
    decreases |a|
  {
    a == [] || (b != [] && (a[0] < b[0] || (a[0] == b[0] && StrLe(a[1..], b[1..]))))
  }

  lemma {:induction false} StrLeTotal(a: string, b: string)
    ensures StrLe(a, b) || StrLe(b, a)
    decreases |a|
  {
    if a != [] && b != [] && a[0] == b[0] {
      StrLeTotal(a[1..], b[1..]);
    }
  }

  lemma {:induction false} StrLeTrans(a: string, b: string, c: string)
    requires StrLe(a, b) && StrLe(b, c)
    ensures StrLe(a, c)
    decreases |a|
  {
    if a != [] && b != [] && c != [] && a[0] == b[0] && b[0] == c[0] {
      StrLeTrans(a[1..], b[1..], c[1..]);
    }
  }

  lemma {:induction false} StrLeAntisym(a: string, b: string)
    requires StrLe(a, b) && StrLe(b, a)
    ensures a == b
    decreases |a|
  {
    if a != [] {
      StrLeAntisym(a[1..], b[1..]);
      assert a == [a[0]] + a[1..] && b == [b[0]] + b[1..];
    }
  }

  predicate RowLe(x: CompareRow, y: CompareRow) {
    if x.compareType == y.compareType then StrLe(x.fullNameQuoted, y.fullNameQuoted)
    else StrLe(x.compareType, y.compareType)
  }

  lemma RowLeTotal(x: CompareRow, y: CompareRow)
    ensures RowLe(x, y) || RowLe(y, x)
  {
    StrLeTotal(x.compareType, y.compareType);
    StrLeTotal(x.fullNameQuoted, y.fullNameQuoted);
  }

  lemma RowLeTrans(x: CompareRow, y: CompareRow, z: CompareRow)
    requires RowLe(x, y) && RowLe(y, z)
    ensures RowLe(x, z)
  {
    if x.compareType == y.compareType && y.compareType == z.compareType {
      StrLeTrans(x.fullNameQuoted, y.fullNameQuoted, z.fullNameQuoted);
    } else if x.compareType != y.compareType && y.compareType != z.compareType {
      StrLeTrans(x.compareType, y.compareType, z.compareType);
      if x.compareType == z.compareType {
        StrLeAntisym(x.compareType, y.compareType);
      }
    }
  }

  predicate Sorted(s: seq<CompareRow>) {
    forall i, j :: 0 <= i < j < |s| ==> RowLe(s[i], s[j])
  }

  lemma SortedSnoc(d: seq<CompareRow>, x: CompareRow)
    requires Sorted(d) && forall r :: r in d ==> RowLe(r, x)
    ensures Sorted(d + [x])
  {
    forall i, j | 0 <= i < j < |d| + 1
      ensures RowLe((d + [x])[i], (d + [x])[j])
    {
      if j == |d| {
        assert (d + [x])[i] == d[i];
      }
    }
  }

  function Insert(x: CompareRow, s: seq<CompareRow>): seq<CompareRow> {
    if s == [] then [x]
    else if RowLe(x, s[0]) then [x] + s
    else [s[0]] + Insert(x, s[1..])
  }

  function SortRows(s: seq<CompareRow>): seq<CompareRow> {
    if s == [] then [] else Insert(s[0], SortRows(s[1..]))
  }

  lemma {:induction false} InsertFacts(x: CompareRow, s: seq<CompareRow>)
    requires Sorted(s)
    ensures Sorted(Insert(x, s))
    ensures multiset(Insert(x, s)) == multiset(s) + multiset{x}
  {
    if s == [] {
    } else if RowLe(x, s[0]) {
      InsertFront(x, s);
    } else {
      RowLeTotal(x, s[0]);
      InsertFacts(x, s[1..]);
      InsertBehind(s[0], Insert(x, s[1..]), s[1..], x);
      assert s == [s[0]] + s[1..];
    }
  }

  /** A row no greater than the first of a sorted sequence goes in front of it. */
  lemma InsertFront(x: CompareRow, s: seq<CompareRow>)
    requires Sorted(s) && s != [] && RowLe(x, s[0])
    ensures Sorted([x] + s)
  {
    forall j | 0 <= j < |s|
      ensures RowLe(x, s[j])
    {
      if j > 0 {
        RowLeTrans(x, s[0], s[j]);
      }
    }
  }

  /** A sorted result of inserting into the rest stays sorted behind the first row,
      when that row is no greater than anything inserted or already there. */
  lemma InsertBehind(h: CompareRow, t: seq<CompareRow>, rest: seq<CompareRow>, x: CompareRow)
    requires Sorted(t) && multiset(t) == multiset(rest) + multiset{x} && RowLe(h, x)
    requires forall y :: y in rest ==> RowLe(h, y)
    ensures Sorted([h] + t)
  {
    forall y | y in t
      ensures RowLe(h, y)
    {
      assert y in multiset(t);
    }
  }

  lemma {:induction false} SortRowsFacts(s: seq<CompareRow>)
    ensures Sorted(SortRows(s))
    ensures multiset(SortRows(s)) == multiset(s)
  {
    if s != [] {
      SortRowsFacts(s[1..]);
      InsertFacts(s[0], SortRows(s[1..]));
      assert s == [s[0]] + s[1..];
    }
  }

  /** UNION: later copies of a row are dropped. */
  function Dedup(s: seq<CompareRow>): seq<CompareRow>
    decreases |s|
  {
    if s == [] then []
    else
      var init := s[..|s| - 1];
      Dedup(init) + (if s[|s| - 1] in init then [] else [s[|s| - 1]])
  }

  predicate NoDuplicates(s: seq<CompareRow>) {
    forall i, j :: 0 <= i < j < |s| ==> s[i] != s[j]
  }

  lemma {:induction false} DedupFacts(s: seq<CompareRow>)
    ensures forall r :: r in Dedup(s) <==> r in s
    ensures NoDuplicates(Dedup(s))
    ensures Sorted(s) ==> Sorted(Dedup(s))
    decreases |s|
  {
    if s != [] {
      var init := s[..|s| - 1];
      DedupFacts(init);
      assert s == init + [s[|s| - 1]];
      if Sorted(s) {
        assert Sorted(init);
        forall r | r in Dedup(init)
          ensures RowLe(r, s[|s| - 1])
        {
          var k :| 0 <= k < |init| && init[k] == r;
          assert RowLe(s[k], s[|s| - 1]);
        }
        SortedSnoc(Dedup(init), s[|s| - 1]);
      }
    }
  }

  /** `compare_objects_in_databases(db1, db2)`; `src` and `dst` are the catalogs of
      `db1` and `db2`. Empty names give None. */
  function CompareObjects(db1: string, db2: string, h: Hasher, src: seq<CatalogObject>, dst: seq<CatalogObject>)
    : Option<seq<CompareRow>>
  {
    if db1 == [] || db2 == [] then None
    else Some(Dedup(SortRows(UnionRows(h, Modules(src), Modules(dst)))))
  }

  /** The rows are exactly the UNION of the two branches: a 'not exists' row for every
      source module whose quoted name no destination module has, and a 'hash' row for
      every other source module whose hash matches no destination hash. */
  lemma CompareObjectsMembers(db1: string, db2: string, h: Hasher, src: seq<CatalogObject>, dst: seq<CatalogObject>)
    requires db1 != [] && db2 != []
    ensures forall r :: r in CompareObjects(db1, db2, h, src, dst).value <==>
      exists o :: o in src && o.typeDesc in MODULE_TYPES && r in RowFor(h, o, Modules(dst))
  {
    var u := UnionRows(h, Modules(src), Modules(dst));
    UnionRowsMembers(h, Modules(src), Modules(dst));
    ModulesMembers(src);
    SortRowsFacts(u);
    DedupFacts(SortRows(u));
    forall r
      ensures r in SortRows(u) <==> r in u
    {
      assert r in SortRows(u) <==> r in multiset(SortRows(u));
    }
  }

  /** The rows come back sorted by CompareType then FullNameQuoted, with no duplicates. */
  lemma CompareObjectsSorted(db1: string, db2: string, h: Hasher, src: seq<CatalogObject>, dst: seq<CatalogObject>)
    requires db1 != [] && db2 != []
    ensures Sorted(CompareObjects(db1, db2, h, src, dst).value)
    ensures NoDuplicates(CompareObjects(db1, db2, h, src, dst).value)
  {
    var u := UnionRows(h, Modules(src), Modules(dst));
    SortRowsFacts(u);
    DedupFacts(SortRows(u));
  }

  /** 'hash' sorts before 'not exists'. */
  lemma HashBeforeNotExists()
    ensures StrLe(HASH, NOT_EXISTS) && HASH != NOT_EXISTS
  {
    assert HASH[0] == 'h' && NOT_EXISTS[0] == 'n';
  }

  /** Every 'hash' row precedes every 'not exists' row. */
  lemma HashRowsFirst(db1: string, db2: string, h: Hasher, src: seq<CatalogObject>, dst: seq<CatalogObject>)
    requires db1 != [] && db2 != []
    ensures var rows := CompareObjects(db1, db2, h, src, dst).value;
      forall i, j :: 0 <= i < |rows| && 0 <= j < |rows| && rows[i].compareType == NOT_EXISTS && rows[j].compareType == HASH ==> j < i
  {
    var rows := CompareObjects(db1, db2, h, src, dst).value;
    CompareObjectsSorted(db1, db2, h, src, dst);
    HashBeforeNotExists();
    forall i, j | 0 <= i < |rows| && 0 <= j < |rows| && rows[i].compareType == NOT_EXISTS && rows[j].compareType == HASH
      ensures j < i
    {
      if i < j {
        assert RowLe(rows[i], rows[j]);
        StrLeAntisym(HASH, NOT_EXISTS);
      }
    }
  }

  /** A module whose quoted name is in both databases and whose hash is among the
      destination's is not reported, so comparing a database with itself reports only
      modules with a NULL definition, each as a 'hash' row. */
  lemma CompareWithItself(db1: string, h: Hasher, src: seq<CatalogObject>)
    requires db1 != []
    ensures forall r :: r in CompareObjects(db1, db1, h, src, src).value ==>
      r.compareType == HASH && r.sha1Hash.None? && r.objDefinition.None?
    ensures forall o :: o in src && o.typeDesc in MODULE_TYPES && o.definition.None? ==>
      RowOf(HASH, h, o) in CompareObjects(db1, db1, h, src, src).value
  {
    CompareObjectsMembers(db1, db1, h, src, src);
    ModulesMembers(src);
    ModulesMembers(Modules(src));
    forall o | o in src && o.typeDesc in MODULE_TYPES
      ensures !IsNotExists(o, Modules(src))
      ensures Sha1Hash(h, o).Some? ==> !IsHashChange(h, o, Modules(src))
    {
      assert o in Modules(Modules(src));
    }
    forall o | o in src && o.typeDesc in MODULE_TYPES && o.definition.None?
      ensures RowOf(HASH, h, o) in RowFor(h, o, Modules(src))
    {
    }
  }

  /** A destination-only object never appears: every row is a source module's row. */
  lemma OnlySourceObjects(db1: string, db2: string, h: Hasher, src: seq<CatalogObject>, dst: seq<CatalogObject>)
    requires db1 != [] && db2 != []
    ensures forall r :: r in CompareObjects(db1, db2, h, src, dst).value ==>
      exists o :: o in src && o.typeDesc in MODULE_TYPES && r.objectId == o.objectId && r.fullNameQuoted == FullNameQuoted(o)
  {
    CompareObjectsMembers(db1, db2, h, src, dst);
  }
}
