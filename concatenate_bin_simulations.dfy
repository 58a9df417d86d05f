/** The dataset assembler of app/data/concatenate_bin_simulations.py: load
    every listed record and stack their rows with np.concatenate. */
module ConcatenateBinSimulations {
  import opened Results
  import opened CoinflipChunk
  import opened BinaryManager

  /** The column count numpy sees: a chunk with no rows came from
      np.array([]) and is one-dimensional, so it has none. */
  function Width(c: Chunk): Option<nat> {
    if c == [] then None else Some(|c[0]|)
  }

  /** Every row of the chunk has the same length. */
  predicate Rectangular(c: Chunk) {
    forall i :: 0 <= i < |c| ==> |c[i]| == |c[0]|
  }

  /** np.concatenate along the first axis accepts the chunks: all have the
      same number of dimensions and the same column count. */
  predicate SameShape(chunks: seq<Chunk>) {
    forall i :: 0 <= i < |chunks| ==> Rectangular(chunks[i]) && Width(chunks[i]) == Width(chunks[0])
  }

  /** The chunks' rows, chunk after chunk. */
  function Flatten(chunks: seq<Chunk>): (rows: Chunk)
    ensures |rows| == TotalRows(chunks)
    ensures chunks != [] ==> rows[..|chunks[0]|] == chunks[0]
  {
    if chunks == [] then [] else chunks[0] + Flatten(chunks[1..])
  }

  function TotalRows(chunks: seq<Chunk>): nat {
    if chunks == [] then 0 else |chunks[0]| + TotalRows(chunks[1..])
  }

  /** np.concatenate(bin_data): refused for an empty list and for chunks
      whose shapes do not line up. */
  function Concatenate(chunks: seq<Chunk>): (r: Result<Chunk>)
    ensures r.Fail? <==> chunks == [] || !SameShape(chunks)
    ensures r.Fail? ==> r.error == if chunks == [] then EmptyDataset else ShapeMismatch
    ensures r.Ok? ==> |r.value| == TotalRows(chunks) && r.value[..|chunks[0]|] == chunks[0]
  {
    if chunks == [] then Fail(EmptyDataset)
    else if !SameShape(chunks) then Fail(ShapeMismatch)
    else Ok(Flatten(chunks))
  }

  /** Each chunk appears contiguously and in its own order: row j of chunk i
      is row TotalRows(chunks[..i]) + j of the result. */
  lemma {:induction false} FlattenAt(chunks: seq<Chunk>, i: nat, j: nat)
    requires i < |chunks| && j < |chunks[i]|
    ensures TotalRows(chunks[..i]) + j < |Flatten(chunks)|
    ensures Flatten(chunks)[TotalRows(chunks[..i]) + j] == chunks[i][j]
  {
    if i > 0 {
      FlattenAt(chunks[1..], i - 1, j);
      assert chunks[1..][..i - 1] == chunks[..i][1..];
      assert TotalRows(chunks[..i]) == |chunks[0]| + TotalRows(chunks[1..][..i - 1]);
    }
  }

  /** Concatenating two lists of chunks concatenates their rows. */
  lemma {:induction false} FlattenAppend(a: seq<Chunk>, b: seq<Chunk>)
    ensures Flatten(a + b) == Flatten(a) + Flatten(b)
    ensures TotalRows(a + b) == TotalRows(a) + TotalRows(b)
  {
    if a != [] {
      assert (a + b)[1..] == a[1..] + b;
      FlattenAppend(a[1..], b);
    } else {
      assert a + b == b;
    }
  }

  /** Every row of an accepted concatenation has the chunks' common width. */
  lemma {:induction false} FlattenWidth(chunks: seq<Chunk>, w: nat)
    requires forall i :: 0 <= i < |chunks| ==> forall k :: 0 <= k < |chunks[i]| ==> |chunks[i][k]| == w
    ensures forall k :: 0 <= k < |Flatten(chunks)| ==> |Flatten(chunks)[k]| == w
  {
    if chunks != [] {
      FlattenWidth(chunks[1..], w);
      forall k | 0 <= k < |Flatten(chunks)| ensures |Flatten(chunks)[k]| == w {
        if k >= |chunks[0]| {
          assert Flatten(chunks)[k] == Flatten(chunks[1..])[k - |chunks[0]|];
        } else {
          assert Flatten(chunks)[k] == chunks[0][k];
        }
      }
    }
  }

  /** Chunks of shapes (a, T) and (b, T) give a result of shape (a + b, T);
      chunks of different widths are refused. */
  lemma ConcatenateTwo(x: Chunk, y: Chunk)
    requires x != [] && y != [] && Rectangular(x) && Rectangular(y)
    ensures |x[0]| == |y[0]| ==> Concatenate([x, y]) == Ok(x + y)
    ensures |x[0]| != |y[0]| ==> Concatenate([x, y]) == Fail(ShapeMismatch)
  {
    assert [x, y][1..] == [y];
    assert [y][1..] == [];
    if |x[0]| != |y[0]| {
      assert !(Rectangular([x, y][1]) && Width([x, y][1]) == Width([x, y][0]));
    } else {
      assert SameShape([x, y]);
      assert Flatten([y]) == y + Flatten([]) == y;
      assert Flatten([x, y]) == x + Flatten([y]);
    }
  }

  /** The records' objects for the listed names, in order; the first name
      whose get raises stops the loop. */
  function LoadAll(d: Directory<Chunk>, names: seq<string>): (r: Result<seq<Chunk>>)
    ensures r.Ok? ==> |r.value| == |names|
    ensures r.Fail? ==> r.error in {NotFound, Unreadable}
  {
    if names == [] then Ok([])
    else
      match LoadAll(d, names[..|names| - 1])
      case Fail(e) => Fail(e)
      case Ok(chunks) =>
        match Lookup(d, names[|names| - 1])
        case Fail(e) => Fail(e)
        case Ok(c) => Ok(chunks + [c])
  }

  /** Loading succeeds exactly when every name can be fetched, and then
      fetches each name exactly once, in listing order. When it fails, it
      fails with the error of the first name that cannot be fetched. */
  lemma {:induction false} LoadAllFetchesEach(d: Directory<Chunk>, names: seq<string>)
    ensures LoadAll(d, names).Ok? <==> forall i :: 0 <= i < |names| ==> Lookup(d, names[i]).Ok?
    ensures LoadAll(d, names).Ok? ==>
              && |LoadAll(d, names).value| == |names|
              && forall i :: 0 <= i < |names| ==> Lookup(d, names[i]) == Ok(LoadAll(d, names).value[i])
    ensures LoadAll(d, names).Fail? ==>
              exists i :: && 0 <= i < |names|
                          && Lookup(d, names[i]) == Fail(LoadAll(d, names).error)
                          && forall j :: 0 <= j < i ==> Lookup(d, names[j]).Ok?
    decreases |names|
  {
    if names != [] {
      var init := names[..|names| - 1];
      var last := |names| - 1;
      LoadAllFetchesEach(d, init);
      assert forall i :: 0 <= i < |init| ==> init[i] == names[i];
      if LoadAll(d, init).Fail? {
        var i :| && 0 <= i < |init|
                 && Lookup(d, init[i]) == Fail(LoadAll(d, init).error)
                 && forall j :: 0 <= j < i ==> Lookup(d, init[j]).Ok?;
        assert Lookup(d, names[i]) == Fail(LoadAll(d, names).error);
      } else if Lookup(d, names[last]).Fail? {
        assert forall j :: 0 <= j < last ==> Lookup(d, names[j]).Ok?;
      }
    }
  }

  /** Once a prefix of the names fails to load, loading all of them fails
      the same way: the loop stops at the first failure. */
  lemma {:induction false} LoadAllStopsAtFailure(d: Directory<Chunk>, names: seq<string>, k: nat)
    requires k <= |names|
    requires LoadAll(d, names[..k]).Fail?
    ensures LoadAll(d, names) == LoadAll(d, names[..k])
    decreases |names|
  {
    if k < |names| {
      var init := names[..|names| - 1];
      assert init[..k] == names[..k];
      LoadAllStopsAtFailure(d, init, k);
    } else {
      assert names[..k] == names;
    }
  }

  /** What concat_simulations computes from a directory and its listing. */
  function Assemble(d: Directory<Chunk>, order: seq<string>): (r: Result<Chunk>)
    ensures ListedNames(order) == [] ==> r == Fail(EmptyDataset)
    ensures r.Ok? ==> LoadAll(d, ListedNames(order)).Ok? && |r.value| == TotalRows(LoadAll(d, ListedNames(order)).value)
  {
    match LoadAll(d, ListedNames(order))
    case Fail(e) => Fail(e)
    case Ok(chunks) => Concatenate(chunks)
  }

  /** concat_simulations: list, load each listed record, concatenate. It only
      reads the store. */
  method ConcatSimulations(directory: Directory<Chunk>, order: seq<string>) returns (r: Result<Chunk>)
    requires IsListing(order, directory)
    ensures r == Assemble(directory, order)
  {
    var binManager := new BinManager(directory);
    var binData: seq<Chunk> := [];
    var filenames := binManager.BinFilesList(order);
    for i := 0 to |filenames|
      invariant binManager.directory == directory
      invariant LoadAll(directory, filenames[..i]) == Ok(binData)
    {
      assert filenames[..i + 1][..i] == filenames[..i];
      var loaded := binManager.Get(filenames[i]);
      if loaded.Fail? {
        assert LoadAll(directory, filenames[..i + 1]) == Fail(loaded.error);
        LoadAllStopsAtFailure(directory, filenames, i + 1);
        return Fail(loaded.error);
      }
      binData := binData + [loaded.value];
    }
    assert filenames[..|filenames|] == filenames;
    r := Concatenate(binData);
  }

  /** An empty listing is an error, not an empty dataset. */
  lemma EmptyListing(d: Directory<Chunk>, order: seq<string>)
    requires ListedNames(order) == []
    ensures Assemble(d, order) == Fail(EmptyDataset)
  {
  }

  /** A successful assembly has as many rows as the loaded chunks together,
      each chunk's rows kept contiguous and in order, and every listed
      record loaded once. */
  lemma AssembleRows(d: Directory<Chunk>, order: seq<string>)
    requires Assemble(d, order).Ok?
    ensures LoadAll(d, ListedNames(order)).Ok?
    ensures |Assemble(d, order).value| == TotalRows(LoadAll(d, ListedNames(order)).value)
    ensures |LoadAll(d, ListedNames(order)).value| == |ListedNames(order)|
  {
    LoadAllFetchesEach(d, ListedNames(order));
  }

  /** A stale copy "x.bin.old" is listed as "x" too, so the record of x is
      loaded twice and its rows appear twice in the dataset. */
  lemma StaleCopyListed()
    ensures ListedNames(["x.bin", "x.bin.old"]) == ["x", "x"]
  {
    ListedNameOfEntry("x", []);
    assert "x.bin" == "x" + Ext + [];
    ListedNameOfEntry("x", ".old");
    assert "x.bin.old" == "x" + Ext + ".old";
    var order := ["x.bin", "x.bin.old"];
    assert order[..1] == ["x.bin"] && order[..1][..0] == [];
  }

  lemma StaleCopyLoaded(c: Chunk, other: Chunk)
    ensures LoadAll(map["x.bin" := Pickled(c), "x.bin.old" := Pickled(other)], ["x", "x"]) == Ok([c, c])
  {
    var d := map["x.bin" := Pickled(c), "x.bin.old" := Pickled(other)];
    assert FileName("x") == "x.bin";
    assert Lookup(d, "x") == Ok(c);
    var one: seq<string> := ["x"];
    var two: seq<string> := ["x", "x"];
    var none: seq<string> := [];
    var loaded: seq<Chunk> := [];
    assert one[..0] == none;
    assert LoadAll(d, none) == Ok(loaded);
    assert LoadAll(d, one) == Ok(loaded + [c]);
    assert loaded + [c] == [c];
    assert two[..1] == one;
    assert LoadAll(d, two) == Ok([c] + [c]);
    assert [c] + [c] == [c, c];
  }

  lemma StaleCopyDuplicates(c: Chunk, other: Chunk)
    requires c != [] && Rectangular(c)
    ensures Assemble(map["x.bin" := Pickled(c), "x.bin.old" := Pickled(other)], ["x.bin", "x.bin.old"]) == Ok(c + c)
  {
    StaleCopyListed();
    StaleCopyLoaded(c, other);
    ConcatenateTwo(c, c);
  }
}
