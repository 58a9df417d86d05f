/** The chunk store of app/bin/binary_manager.py: named records kept as
    files `<name>.bin` in the directory app/bin.

    The directory is a map from the file names it holds to their contents;
    serialisation is abstracted away, so a record holds its object itself.
    The order in which the operating system lists the directory is not
    determined by its contents, so it is a parameter of the listing.

    The source imports a logging function that its logging module does not
    define, which makes the module fail on import; logging only prints, so
    this model leaves it out and models what the store does without it. */
module BinaryManager {
  import opened Results

  /** The content of one file: a pickled object, or bytes that pickle.load
      refuses (an empty or truncated file, or a file that is not a pickle). */
  datatype Entry<T> = Pickled(obj: T) | Garbage

  /** The directory app/bin: each file name it holds, with its content. The
      key `FileName(n)` stands for the file at `PathConversor(n)`. Every
      operation reaches a record through that path, so keying by the file
      name alone loses nothing (see PathConversorInjective). */
  type Directory<T> = map<string, Entry<T>>

  const Ext: string := ".bin"
  const BinDir: string := "app/bin"

  /** The file name a record is kept under: `<name>.bin`. */
  function FileName(name: string): (f: string)
    ensures |f| == |name| + |Ext| && f[..|name|] == name && f[|name|..] == Ext
  {
    name + Ext
  }

  /** _path_conversor: the path of a record's file, app/bin/<name>.bin. */
  function PathConversor(name: string): (p: string)
    ensures |p| == |BinDir| + 1 + |FileName(name)|
    ensures p[..|BinDir|] == BinDir && p[|BinDir|] == '/'
    ensures p[|BinDir| + 1..] == FileName(name)
  {
    BinDir + "/" + FileName(name)
  }

  /** Distinct names have distinct files. */
  lemma FileNameInjective(a: string, b: string)
    requires FileName(a) == FileName(b)
    ensures a == b
  {
    assert |a| == |b|;
    assert a == FileName(a)[..|a|];
    assert b == FileName(b)[..|b|];
  }

  /** Distinct names have distinct paths: the path determines the name. */
  lemma PathConversorInjective(a: string, b: string)
    requires PathConversor(a) == PathConversor(b)
    ensures a == b
  {
    var k := |BinDir| + 1;
    assert FileName(a) == PathConversor(a)[k..];
    assert FileName(b) == PathConversor(b)[k..];
    FileNameInjective(a, b);
  }

  /** Python's str.split("."): the pieces between dots, always at least one. */
  function Split(s: string): (parts: seq<string>)
    ensures |parts| >= 1
    ensures forall i :: 0 <= i < |parts| ==> '.' !in parts[i]
  {
    if s == [] then [[]]
    else
      var rest := Split(s[1..]);
      if s[0] == '.' then [[]] + rest else [[s[0]] + rest[0]] + rest[1..]
  }

  /** ".".join(parts), the inverse of Split. */
  function Join(parts: seq<string>): string
    requires |parts| >= 1
  {
    if |parts| == 1 then parts[0] else parts[0] + "." + Join(parts[1..])
  }

  lemma {:induction false} JoinSplit(s: string)
    ensures Join(Split(s)) == s
    decreases |s|
  {
    if s != [] {
      JoinSplit(s[1..]);
      var rest := Split(s[1..]);
      if s[0] == '.' {
        assert Split(s) == [[]] + rest;
        assert Join(Split(s)) == "" + "." + Join(rest);
      } else if |rest| > 1 {
        assert Split(s) == [[s[0]] + rest[0]] + rest[1..];
        assert Join(rest) == rest[0] + "." + Join(rest[1..]);
        assert Split(s)[1..] == rest[1..];
      }
    }
  }

  lemma {:induction false} SplitDotFree(a: string)
    requires '.' !in a
    ensures Split(a) == [a]
    decreases |a|
  {
    if a != [] {
      assert '.' !in a[1..] by {
        forall k | 0 <= k < |a[1..]| ensures a[1..][k] != '.' {
          assert a[1..][k] == a[k + 1];
        }
      }
      SplitDotFree(a[1..]);
      assert [a[0]] + a[1..] == a;
    }
  }

  lemma {:induction false} SplitAfterDotFree(a: string, b: string)
    requires '.' !in a
    ensures Split(a + "." + b) == [a] + Split(b)
    decreases |a|
  {
    if a == [] {
      assert a + "." + b == "." + b;
      assert ("." + b)[1..] == b;
    } else {
      assert '.' !in a[1..] by {
        forall k | 0 <= k < |a[1..]| ensures a[1..][k] != '.' {
          assert a[1..][k] == a[k + 1];
        }
      }
      SplitAfterDotFree(a[1..], b);
      assert (a + "." + b)[1..] == a[1..] + "." + b;
      assert [a[0]] + a[1..] == a;
    }
  }

  /** The name bin_files_list reports for a directory entry: the piece
      before the first dot, provided the piece after it is "bin". */
  function ListedName(entry: string): (r: Option<string>)
    ensures r.Some? ==> '.' !in r.value
  {
    var parts := Split(entry);
    if |parts| >= 2 && parts[1] == Ext[1..] then Some(parts[0]) else None
  }

  /** A dot-free name followed by ".bin" and then nothing or a further dot
      ("x.bin", "x.bin.old") is listed under that name. */
  lemma ListedNameOfEntry(n: string, rest: string)
    requires '.' !in n
    requires rest == [] || rest[0] == '.'
    ensures ListedName(n + Ext + rest) == Some(n)
  {
    assert n + Ext + rest == n + "." + ("bin" + rest);
    SplitAfterDotFree(n, "bin" + rest);
    if rest == [] {
      assert "bin" + rest == "bin";
      SplitDotFree("bin");
    } else {
      assert "bin" + rest == "bin" + "." + rest[1..];
      SplitAfterDotFree("bin", rest[1..]);
    }
  }

  /** Conversely, every listed entry has that form. */
  lemma ListedNameShape(entry: string, n: string)
    requires ListedName(entry) == Some(n)
    ensures '.' !in n
    ensures |entry| >= |n| + |Ext|
    ensures entry == n + Ext + entry[|n| + |Ext|..]
    ensures |entry| == |n| + |Ext| || entry[|n| + |Ext|] == '.'
  {
    var parts := Split(entry);
    JoinSplit(entry);
    var tail := Join(parts[1..]);
    assert entry == n + "." + tail;
    if |parts| == 2 {
      assert tail == "bin";
      assert entry == n + Ext;
    } else {
      assert tail == "bin" + "." + Join(parts[2..]) by {
        assert parts[1..][1..] == parts[2..];
      }
      assert entry == n + Ext + ("." + Join(parts[2..]));
    }
  }

  /** A stale copy "x.bin.old" is listed as "x". */
  lemma ListedStaleCopy()
    ensures ListedName("x.bin.old") == Some("x")
  {
    ListedNameOfEntry("x", ".old");
    assert "x.bin.old" == "x" + Ext + ".old";
  }

  /** "a.b.bin" is not listed: its second piece is "b", not "bin". */
  lemma UnlistedSecondPiece()
    ensures ListedName("a.b.bin") == None
  {
    var rest: string := "b.bin";
    assert "a.b.bin" == "a" + "." + rest;
    SplitAfterDotFree("a", rest);
    assert rest == "b" + "." + "bin";
    SplitAfterDotFree("b", "bin");
  }

  /** A name without a dot is not listed, even "bin" itself. */
  lemma UnlistedWithoutDot(entry: string)
    requires '.' !in entry
    ensures ListedName(entry) == None
  {
    SplitDotFree(entry);
  }

  /** In particular an entry named "bin" is not listed. */
  lemma UnlistedBin()
    ensures ListedName("bin") == None
  {
    UnlistedWithoutDot("bin");
  }

  /** The module's own source file is not listed. */
  lemma UnlistedSourceFile()
    ensures ListedName("binary_manager.py") == None
  {
    assert "binary_manager.py" == "binary_manager" + "." + "py";
    SplitAfterDotFree("binary_manager", "py");
    SplitDotFree("py");
  }

  function NameOf(entry: string): seq<string> {
    match ListedName(entry)
    case Some(n) => [n]
    case None => []
  }

  /** The names bin_files_list builds from a directory listing, in order. */
  function ListedNames(entries: seq<string>): (names: seq<string>)
    ensures |names| <= |entries|
    ensures forall i :: 0 <= i < |names| ==> '.' !in names[i]
  {
    if entries == [] then []
    else ListedNames(entries[..|entries| - 1]) + NameOf(entries[|entries| - 1])
  }

  /** Listing distributes over the listing order: names keep the order of
      their entries. */
  lemma {:induction false} ListedNamesAppend(a: seq<string>, b: seq<string>)
    ensures ListedNames(a + b) == ListedNames(a) + ListedNames(b)
    decreases |b|
  {
    if b == [] {
      assert a + b == a;
    } else {
      var b' := b[..|b| - 1];
      assert (a + b)[..|a + b| - 1] == a + b';
      ListedNamesAppend(a, b');
    }
  }

  /** A name is listed exactly when some entry is listed under it. */
  lemma {:induction false} ListedNamesMembers(entries: seq<string>, n: string)
    ensures n in ListedNames(entries) <==> exists i :: 0 <= i < |entries| && ListedName(entries[i]) == Some(n)
    decreases |entries|
  {
    if entries != [] {
      var init := entries[..|entries| - 1];
      ListedNamesMembers(init, n);
      if n in ListedNames(init) {
        var i :| 0 <= i < |init| && ListedName(init[i]) == Some(n);
        assert entries[i] == init[i];
      }
      if exists i :: 0 <= i < |entries| && ListedName(entries[i]) == Some(n) {
        var i :| 0 <= i < |entries| && ListedName(entries[i]) == Some(n);
        if i < |init| {
          assert init[i] == entries[i];
        }
      }
    }
  }

  /** An order in which the operating system may list a directory: every
      file once. */
  ghost predicate IsListing<T>(order: seq<string>, d: Directory<T>) {
    && (forall i, j :: 0 <= i < j < |order| ==> order[i] != order[j])
    && (forall f :: f in d <==> f in order)
  }

  /** get, as documented: the stored object, or the error open or
      pickle.load raises. */
  function Lookup<T>(d: Directory<T>, name: string): (r: Result<T>)
    ensures r.Ok? <==> FileName(name) in d && d[FileName(name)].Pickled?
    ensures r.Ok? ==> d[FileName(name)] == Pickled(r.value)
    ensures r.Fail? ==> r.error == if FileName(name) in d then Unreadable else NotFound
  {
    if FileName(name) !in d then Fail(NotFound)
    else match d[FileName(name)]
      case Pickled(obj) => Ok(obj)
      case Garbage => Fail(Unreadable)
  }

  /** delete: os.remove of the record's file, which must exist. */
  function Removed<T>(d: Directory<T>, name: string): (r: Result<Directory<T>>)
    ensures r.Ok? <==> FileName(name) in d
    ensures r.Fail? ==> r.error == NotFound
    ensures r.Ok? ==> r.value.Keys == d.Keys - {FileName(name)}
    ensures r.Ok? ==> forall f :: f in r.value ==> r.value[f] == d[f]
  {
    if FileName(name) in d then Ok(d - {FileName(name)}) else Fail(NotFound)
  }

  /** post: delete an existing record of that name, then write the new one. */
  function Posted<T>(d: Directory<T>, name: string, obj: T): (r: Directory<T>)
    ensures r.Keys == d.Keys + {FileName(name)}
    ensures r[FileName(name)] == Pickled(obj)
    ensures forall f :: f in d && f != FileName(name) ==> r[f] == d[f]
  {
    var cleared := if FileName(name) in d then d - {FileName(name)} else d;
    cleared[FileName(name) := Pickled(obj)]
  }

  /** get as written: opening with "wb" creates or truncates the file, and
      reading from it raises. */
  function LookupAsWritten<T>(d: Directory<T>, name: string): (r: (Directory<T>, Result<T>))
    ensures r.1.Fail? && r.1.error == NotReadable
    ensures r.0.Keys == d.Keys + {FileName(name)} && r.0[FileName(name)] == Garbage
    ensures forall f :: f in d && f != FileName(name) ==> r.0[f] == d[f]
  {
    (d[FileName(name) := Garbage], Fail(NotReadable))
  }

  /** post replaces the one record of that name and touches no other file. */
  lemma PostOverwrites<T>(d: Directory<T>, name: string, obj: T)
    ensures Posted(d, name, obj) == d[FileName(name) := Pickled(obj)]
    ensures Posted(d, name, obj).Keys == d.Keys + {FileName(name)}
    ensures forall f :: f in d && f != FileName(name) ==> Posted(d, name, obj)[f] == d[f]
  {
  }

  /** Round trip: get after post returns the posted object. */
  lemma PostGetRoundTrip<T>(d: Directory<T>, name: string, obj: T)
    ensures Lookup(Posted(d, name, obj), name) == Ok(obj)
  {
  }

  /** post leaves every other record as it was. */
  lemma PostKeepsOthers<T>(d: Directory<T>, name: string, obj: T, other: string)
    requires other != name
    ensures Lookup(Posted(d, name, obj), other) == Lookup(d, other)
    ensures FileName(other) in Posted(d, name, obj) <==> FileName(other) in d
  {
    if FileName(other) == FileName(name) {
      FileNameInjective(other, name);
    }
  }

  /** A second post of the same name leaves one record, holding the second
      object. */
  lemma PostTwice<T>(d: Directory<T>, name: string, a: T, b: T)
    ensures Posted(Posted(d, name, a), name, b) == Posted(d, name, b)
  {
  }

  /** delete fails on a missing record; otherwise the record is gone and
      every other record is as it was. */
  lemma DeleteRemoves<T>(d: Directory<T>, name: string, other: string)
    ensures Removed(d, name).Fail? <==> FileName(name) !in d
    ensures Removed(d, name).Fail? ==> Removed(d, name).error == NotFound
    ensures Removed(d, name).Ok? ==> Lookup(Removed(d, name).value, name) == Fail(NotFound)
    ensures Removed(d, name).Ok? && other != name ==> Lookup(Removed(d, name).value, other) == Lookup(d, other)
  {
    if FileName(other) == FileName(name) {
      FileNameInjective(other, name);
    }
  }

  /** Deleting a freshly posted record restores the directory. */
  lemma DeleteUndoesPost<T>(d: Directory<T>, name: string, obj: T)
    requires FileName(name) !in d
    ensures Removed(Posted(d, name, obj), name) == Ok(d)
  {
    assert Posted(d, name, obj) - {FileName(name)} == d;
  }

  /** Posting a dot-free name makes the listing report it, whatever order
      the directory is listed in. */
  lemma PostThenListed<T>(d: Directory<T>, name: string, obj: T, order: seq<string>)
    requires '.' !in name
    requires IsListing(order, Posted(d, name, obj))
    ensures name in ListedNames(order)
  {
    assert FileName(name) in order;
    var i :| 0 <= i < |order| && order[i] == FileName(name);
    ListedNameOfEntry(name, []);
    assert FileName(name) == name + Ext + [];
    ListedNamesMembers(order, name);
  }

  /** get as written destroys the record it was asked for: after a post, it
      raises instead of returning the object, and leaves an empty file that
      no later get can read. */
  lemma GetAsWrittenBreaksRoundTrip<T>(d: Directory<T>, name: string, obj: T)
    ensures LookupAsWritten(Posted(d, name, obj), name).1 == Fail(NotReadable)
    ensures Lookup(LookupAsWritten(Posted(d, name, obj), name).0, name) == Fail(Unreadable)
    ensures Lookup(Posted(d, name, obj), name) == Ok(obj)
  {
  }

  /** BinManager: the store over the directory app/bin. */
  class BinManager<T> {
    var directory: Directory<T>

    constructor (directory: Directory<T>)
      ensures this.directory == directory
    {
      this.directory := directory;
    }

    /** bin_files_list: walk the directory listing, keeping the name of each
        entry whose second dot-piece is "bin". */
    method BinFilesList(order: seq<string>) returns (names: seq<string>)
      requires IsListing(order, directory)
      ensures names == ListedNames(order)
      ensures forall n :: n in names <==> exists f :: f in directory && ListedName(f) == Some(n)
    {
      names := [];
      for i := 0 to |order|
        invariant names == ListedNames(order[..i])
      {
        assert order[..i + 1][..i] == order[..i];
        names := names + NameOf(order[i]);
      }
      assert order[..|order|] == order;
      forall n
        ensures n in names <==> exists f :: f in directory && ListedName(f) == Some(n)
      {
        ListedNamesMembers(order, n);
        if exists f :: f in directory && ListedName(f) == Some(n) {
          var f :| f in directory && ListedName(f) == Some(n);
          var i :| 0 <= i < |order| && order[i] == f;
        }
      }
    }

    /** bin_exists: whether the record's file is present. */
    function BinExists(name: string): (b: bool)
      reads this
      ensures b <==> Lookup(directory, name) != Fail(NotFound)
    {
      FileName(name) in directory
    }

    method Delete(name: string) returns (r: Outcome)
      modifies this
      ensures r.Pass? <==> FileName(name) in old(directory)
      ensures r.Pass? ==> Removed(old(directory), name) == Ok(directory)
      ensures r.Failed? ==> r.error == NotFound && directory == old(directory)
    {
      if FileName(name) !in directory {
        return Failed(NotFound);
      }
      directory := directory - {FileName(name)};
      r := Pass;
    }

    method Post(name: string, obj: T)
      modifies this
      ensures directory == Posted(old(directory), name, obj)
      ensures Get(name) == Ok(obj)
    {
      if BinExists(name) {
        var _ := Delete(name);
      }
      directory := directory[FileName(name) := Pickled(obj)];
    }

    /** get, reading the file as its documentation says. */
    function Get(name: string): (r: Result<T>)
      reads this
      ensures r == Lookup(directory, name)
      ensures r.Ok? ==> BinExists(name)
    {
      Lookup(directory, name)
    }

    /** get as written: the file is opened with "wb". */
    method GetAsWritten(name: string) returns (r: Result<T>)
      modifies this
      ensures directory == LookupAsWritten(old(directory), name).0
      ensures r == LookupAsWritten(old(directory), name).1
    {
      directory := directory[FileName(name) := Garbage];
      r := Fail(NotReadable);
    }
  }
}
