/**
 * `DirectoryCollection.compare_paths`: the differences between two collections of
 * (file, md5sum) records. A directory path argument is listed and hashed by
 * `get_files_and_hashes`, which is an oracle here.
 */
module DirectoryCollection {
  import opened Wrappers

  /** One `{'file': …, 'md5sum': …}` record; "" stands for a falsy entry. */
  datatype FileRecord = FileRecord(file: string, md5sum: string)

  /** An argument of `compare_paths`: a directory path, a list or tuple of records, or a
      value of any other type (with its truthiness). */
  datatype PathArg = PathText(path: string) | Records(records: seq<FileRecord>) | Other(truthy: bool)

  predicate Falsy(p: PathArg) {
    match p
    case PathText(s) => s == []
    case Records(rs) => rs == []
    case Other(t) => !t
  }

  function Names(rs: seq<FileRecord>): (names: seq<string>)
    ensures |names| == |rs| && forall i :: 0 <= i < |rs| ==> names[i] == rs[i].file
  {
    if rs == [] then [] else Names(rs[..|rs| - 1]) + [rs[|rs| - 1].file]
  }

  function Hashes(rs: seq<FileRecord>): (hashes: seq<string>)
    ensures |hashes| == |rs| && forall i :: 0 <= i < |rs| ==> hashes[i] == rs[i].md5sum
  {
    if rs == [] then [] else Hashes(rs[..|rs| - 1]) + [rs[|rs| - 1].md5sum]
  }

  /** The entries of `xs`, in order and with repetitions, that are truthy and absent
      from `ys`. */
  function Missing(xs: seq<string>, ys: seq<string>): seq<string> {
    if xs == [] then []
    else
      var x := xs[|xs| - 1];
      Missing(xs[..|xs| - 1], ys) + (if x != [] && x !in ys then [x] else [])
  }

  /** Membership in `Missing`, both ways. */
  lemma {:induction false} MissingMembers(xs: seq<string>, ys: seq<string>, x: string)
    ensures x in Missing(xs, ys) <==> x in xs && x != [] && x !in ys
  {
    if xs != [] {
      MissingMembers(xs[..|xs| - 1], ys, x);
      assert xs == xs[..|xs| - 1] + [xs[|xs| - 1]];
    }
  }

  /** Nothing is missing from a collection compared with itself. */
  lemma {:induction false} MissingSelf(xs: seq<string>, ys: seq<string>)
    requires forall x :: x in xs ==> x in ys
    ensures Missing(xs, ys) == []
  {
    if xs != [] {
      MissingSelf(xs[..|xs| - 1], ys);
      assert xs[|xs| - 1] in xs;
    }
  }

  /** Entries are not de-duplicated: a missing entry listed n times is reported n times. */
  lemma {:induction false} MissingRepeats(x: string, n: nat, ys: seq<string>)
    requires x != [] && x !in ys
    ensures Missing(seq(n, _ => x), ys) == seq(n, _ => x)
  {
    if n > 0 {
      assert seq(n, _ => x)[..n - 1] == seq(n - 1, _ => x);
      MissingRepeats(x, n - 1, ys);
      assert seq(n - 1, _ => x) + [x] == seq(n, _ => x);
    }
  }

  /** The reference result of `compare_paths` on two record collections: names of the
      first missing from the second, hashes of the first missing from the second, then
      the same in the other direction. */
  function Difference(p1: seq<FileRecord>, p2: seq<FileRecord>): seq<string> {
    Missing(Names(p1), Names(p2)) + Missing(Hashes(p1), Hashes(p2))
      + Missing(Names(p2), Names(p1)) + Missing(Hashes(p2), Hashes(p1))
  }

  /** Appends `Missing(xs, ys)` to `acc`, one entry at a time. */
  method AppendMissing(acc: seq<string>, xs: seq<string>, ys: seq<string>) returns (r: seq<string>)
    ensures r == acc + Missing(xs, ys)
  {
    r := acc;
    var i := 0;
    while i < |xs|
      invariant 0 <= i <= |xs|
      invariant r == acc + Missing(xs[..i], ys)
    {
      var f := xs[i];
      assert xs[..i + 1][..i] == xs[..i];
      if f == [] {
        i := i + 1;
        continue;
      }
      if f !in ys {
        r := r + [f];
      }
      i := i + 1;
    }
    assert xs[..|xs|] == xs;
  }

  /** `compare_paths(path1, path2)`. `listing` plays `get_files_and_hashes` for a
      directory path. None if either argument is falsy; ValueError for an argument of
      another type. */
  method ComparePaths(path1: PathArg, path2: PathArg, listing: string -> seq<FileRecord>)
    returns (r: Result<Option<seq<string>>>)
    ensures Falsy(path1) || Falsy(path2) ==> r == Ok(None)
    ensures !Falsy(path1) && !Falsy(path2) && (path1.Other? || path2.Other?) ==> r == Err(ValueError)
    ensures !Falsy(path1) && !Falsy(path2) && !path1.Other? && !path2.Other? ==>
      r == Ok(Some(Difference(Listed(path1, listing), Listed(path2, listing))))
  {
    if Falsy(path1) || Falsy(path2) {
      return Ok(None);
    }
    if path1.Other? || path2.Other? {
      return Err(ValueError);
    }
    var files1 := Listed(path1, listing);
    var files2 := Listed(path2, listing);
    ghost var a, b, c, d := Missing(Names(files1), Names(files2)), Missing(Hashes(files1), Hashes(files2)),
      Missing(Names(files2), Names(files1)), Missing(Hashes(files2), Hashes(files1));
    var diff := [];
    diff := AppendMissing(diff, Names(files1), Names(files2));
    assert diff == a;
    diff := AppendMissing(diff, Hashes(files1), Hashes(files2));
    assert diff == a + b;
    diff := AppendMissing(diff, Names(files2), Names(files1));
    assert diff == a + b + c;
    diff := AppendMissing(diff, Hashes(files2), Hashes(files1));
    assert diff == a + b + c + d;
    return Ok(Some(diff));
  }

  /** The records an argument stands for: listed from disk for a path, as given otherwise. */
  function Listed(p: PathArg, listing: string -> seq<FileRecord>): seq<FileRecord> {
    match p
    case PathText(s) => listing(s)
    case Records(rs) => rs
    case Other(_) => []
  }

  /** Comparing a collection with itself finds no difference. */
  lemma DifferenceSelf(rs: seq<FileRecord>)
    ensures Difference(rs, rs) == []
  {
    MissingSelf(Names(rs), Names(rs));
    MissingSelf(Hashes(rs), Hashes(rs));
  }

  /** An entry is reported exactly when it is a truthy name (or hash) of one side that
      the other side lacks. */
  lemma DifferenceMembers(p1: seq<FileRecord>, p2: seq<FileRecord>, x: string)
    ensures x in Difference(p1, p2) <==>
      x != [] && ((x in Names(p1) && x !in Names(p2)) || (x in Hashes(p1) && x !in Hashes(p2))
               || (x in Names(p2) && x !in Names(p1)) || (x in Hashes(p2) && x !in Hashes(p1)))
  {
    MissingMembers(Names(p1), Names(p2), x);
    MissingMembers(Hashes(p1), Hashes(p2), x);
    MissingMembers(Names(p2), Names(p1), x);
    MissingMembers(Hashes(p2), Hashes(p1), x);
  }

  /** Names are compared only with names and hashes only with hashes: a file renamed
      with its content unchanged reports both names and no hash. */
  lemma DifferenceRenamed(a: string, b: string, h: string)
    requires a != [] && b != [] && h != [] && a != b
    ensures Difference([FileRecord(a, h)], [FileRecord(b, h)]) == [a, b]
  {
    DifferenceOfSingles(FileRecord(a, h), FileRecord(b, h));
    MissingSingle(a, [b]);
    MissingSingle(b, [a]);
    MissingSingle(h, [h]);
    PairWithGaps(a, b);
  }

  /** Two one-entry pieces with empty pieces after each make the pair. */
  lemma PairWithGaps<T>(x: T, y: T)
    ensures [x] + [] + [y] + [] == [x, y]
  {
  }

  /** Two one-record collections compare by their names and their hashes. */
  lemma DifferenceOfSingles(x: FileRecord, y: FileRecord)
    ensures Difference([x], [y]) == Missing([x.file], [y.file]) + Missing([x.md5sum], [y.md5sum])
                                    + Missing([y.file], [x.file]) + Missing([y.md5sum], [x.md5sum])
  {
    assert Names([x]) == [x.file] && Hashes([x]) == [x.md5sum];
    assert Names([y]) == [y.file] && Hashes([y]) == [y.md5sum];
  }

  /** A single entry is missing iff it is truthy and absent. */
  lemma MissingSingle(x: string, ys: seq<string>)
    ensures Missing([x], ys) == (if x != [] && x !in ys then [x] else [])
  {
    assert [x][..0] == [];
  }
}
