/**
 * merge_h5.py: joins HDF5 files that hold the same datasets and attributes.
 * Every dataset's rows are concatenated in input order; each attribute is the
 * concatenation of the files' attribute values. The two hit-index datasets
 * are rebased so that every file's entries point into the merged hit arrays.
 */
module MergeH5 {
  import opened Common
  import opened Ragged

  /** One row of a dataset: its cells, flattened over the trailing dimensions. */
  type Row = seq<int>

  /** A dataset: its shape after the leading (row) dimension, and its rows. */
  datatype Dataset = Dataset(trailing: seq<nat>, rows: seq<Row>)

  /**
   * An input file: its dataset names in iteration order, its datasets, its
   * attribute names in iteration order, and its attribute values.
   */
  datatype H5File = H5File(
    keys: seq<string>,
    datasets: map<string, Dataset>,
    attrKeys: seq<string>,
    attrs: map<string, seq<string>>)

  /** Why the merge stops: the KeyErrors of the name checks and of the hit-array lookup, and the ValueError of the shape check. */
  datatype MergeError =
    | KeysDiffer(file: nat)
    | AttrsDiffer(file: nat)
    | ShapeDiffers(key: string, file: nat)
    | MissingHits(key: string)

  /** The name lists enumerate the file's datasets and attributes. */
  predicate Listed(f: H5File) {
    && (forall k :: k in f.keys ==> k in f.datasets)
    && (forall k :: k in f.datasets ==> k in f.keys)
    && (forall k :: k in f.attrKeys ==> k in f.attrs)
    && (forall k :: k in f.attrs ==> k in f.attrKeys)
  }

  // ---------------------------------------------------------------------
  // Name checks
  // ---------------------------------------------------------------------

  /** File j checked against the first file: dataset names first, then attribute names. */
  function FileMismatch(first: H5File, f: H5File, j: nat): Option<MergeError> {
    if f.datasets.Keys != first.datasets.Keys then Some(KeysDiffer(j))
    else if f.attrs.Keys != first.attrs.Keys then Some(AttrsDiffer(j))
    else None
  }

  /** The outcome of checking files j, j + 1, ... in input order: the first mismatch. */
  function KeyCheckFrom(files: seq<H5File>, j: nat): Option<MergeError>
    requires |files| >= 1
    decreases |files| - j
  {
    if j >= |files| then None
    else if FileMismatch(files[0], files[j], j).Some? then FileMismatch(files[0], files[j], j)
    else KeyCheckFrom(files, j + 1)
  }

  function KeyCheck(files: seq<H5File>): Option<MergeError>
    requires |files| >= 1
  {
    KeyCheckFrom(files, 1)
  }

  /** Every file has the first file's dataset names and attribute names. */
  predicate KeysAgree(files: seq<H5File>)
    requires |files| >= 1
  {
    forall j :: 0 <= j < |files| ==>
      files[j].datasets.Keys == files[0].datasets.Keys && files[j].attrs.Keys == files[0].attrs.Keys
  }

  /**
   * The name check passes exactly when all files agree; when it fails, it
   * names the first disagreeing file, and the error says which names differ.
   */
  lemma {:induction false} KeyCheckFromSpec(files: seq<H5File>, j: nat)
    requires 1 <= j && |files| >= 1
    ensures KeyCheckFrom(files, j).None? <==>
      forall i :: j <= i < |files| ==> FileMismatch(files[0], files[i], i).None?
    ensures KeyCheckFrom(files, j).Some? ==>
      var e := KeyCheckFrom(files, j).value;
      && (e.KeysDiffer? || e.AttrsDiffer?)
      && j <= e.file < |files|
      && FileMismatch(files[0], files[e.file], e.file) == Some(e)
      && forall i :: j <= i < e.file ==> FileMismatch(files[0], files[i], i).None?
    decreases |files| - j
  {
    if j < |files| && FileMismatch(files[0], files[j], j).None? {
      KeyCheckFromSpec(files, j + 1);
    }
  }

  lemma KeyCheckSpec(files: seq<H5File>)
    requires |files| >= 1
    ensures KeyCheck(files).None? <==> KeysAgree(files)
    ensures KeyCheck(files).Some? ==>
      var e := KeyCheck(files).value;
      && (e.KeysDiffer? || e.AttrsDiffer?)
      && 1 <= e.file < |files|
      && (e.KeysDiffer? <==> files[e.file].datasets.Keys != files[0].datasets.Keys)
      && forall i :: 1 <= i < e.file ==> FileMismatch(files[0], files[i], i).None?
  {
    KeyCheckFromSpec(files, 1);
    if KeyCheck(files).None? {
      forall j | 0 <= j < |files|
        ensures files[j].datasets.Keys == files[0].datasets.Keys && files[j].attrs.Keys == files[0].attrs.Keys
      {
        if j > 0 {
          assert FileMismatch(files[0], files[j], j).None?;
        }
      }
    }
  }

  /**
   * The check loop of the script: each later file in input order, stopping
   * at the first whose names differ from the first file's.
   */
  method CheckKeys(files: seq<H5File>) returns (err: Option<MergeError>)
    requires |files| >= 1
    ensures err == KeyCheck(files)
  {
    var j := 1;
    while j < |files|
      invariant 1 <= j <= |files|
      invariant KeyCheckFrom(files, j) == KeyCheck(files)
    {
      if files[j].datasets.Keys != files[0].datasets.Keys {
        return Some(KeysDiffer(j));
      }
      if files[j].attrs.Keys != files[0].attrs.Keys {
        return Some(AttrsDiffer(j));
      }
      j := j + 1;
    }
    return None;
  }

  // ---------------------------------------------------------------------
  // Attributes
  // ---------------------------------------------------------------------

  /** Attribute `a` of every file, joined in input order (`np.hstack`). */
  function HStack(files: seq<H5File>, a: string): (r: seq<string>)
    requires forall j :: 0 <= j < |files| ==> a in files[j].attrs
  {
    Concat(seq(|files|, j requires 0 <= j < |files| => files[j].attrs[a]))
  }

  /** The merged attributes: one entry per attribute name of the first file. */
  function HStacked(files: seq<H5File>): map<string, seq<string>>
    requires |files| >= 1 && KeysAgree(files)
  {
    map a | a in files[0].attrs :: HStack(files, a)
  }

  /** File j's values of attribute `a` sit in the merged attribute after those of the earlier files. */
  lemma HStackAt(files: seq<H5File>, a: string, j: nat)
    requires j < |files| && forall i :: 0 <= i < |files| ==> a in files[i].attrs
    ensures var start := |Concat(seq(j, i requires 0 <= i < j => files[i].attrs[a]))|;
      && start + |files[j].attrs[a]| <= |HStack(files, a)|
      && HStack(files, a)[start .. start + |files[j].attrs[a]|] == files[j].attrs[a]
  {
    var parts := seq(|files|, i requires 0 <= i < |files| => files[i].attrs[a]);
    SliceAt(parts, j);
    OffsetAt(parts, j);
    assert parts[..j] == seq(j, i requires 0 <= i < j => files[i].attrs[a]);
  }

  // ---------------------------------------------------------------------
  // Datasets
  // ---------------------------------------------------------------------

  /** The hit array whose length rebases dataset `k`, if `k` is one of the two hit-index datasets. */
  function IndexedBy(k: string): Option<string> {
    if k == "event_hits_index_20" then Some("hit_pmt_20")
    else if k == "event_hits_index_3" then Some("hit_pmt_3")
    else None
  }

  /** Every file holds dataset `k`. */
  predicate HasKey(files: seq<H5File>, k: string) {
    forall j :: 0 <= j < |files| ==> k in files[j].datasets
  }

  /** Rows of hit array `h` in file `f`. */
  function HitCount(f: H5File, h: string): nat {
    if h in f.datasets then |f.datasets[h].rows| else 0
  }

  /** `offset_20` / `offset_3` when file j is written: the hit-array rows of the files before it. */
  function Before(files: seq<H5File>, h: string, j: nat): nat
    requires j <= |files|
  {
    if j == 0 then 0 else Before(files, h, j - 1) + HitCount(files[j - 1], h)
  }

  /** Every cell of every row increased by `d`. */
  function ShiftRows(rows: seq<Row>, d: int): (r: seq<Row>)
    ensures |r| == |rows|
  {
    seq(|rows|, i requires 0 <= i < |rows| => Shift(rows[i], d))
  }

  /** What file j contributes to dataset `k`: its rows, rebased when `k` is a hit index. */
  function FilePart(files: seq<H5File>, k: string, j: nat): (r: seq<Row>)
    requires j < |files| && HasKey(files, k)
    ensures |r| == |files[j].datasets[k].rows|
  {
    match IndexedBy(k)
    case None => files[j].datasets[k].rows
    case Some(h) => ShiftRows(files[j].datasets[k].rows, Before(files, h, j))
  }

  function Parts(files: seq<H5File>, k: string): (r: seq<seq<Row>>)
    requires HasKey(files, k)
    ensures |r| == |files|
  {
    seq(|files|, j requires 0 <= j < |files| => FilePart(files, k, j))
  }

  /** The merged rows of dataset `k`: every file's part, in input order. */
  function MergedRows(files: seq<H5File>, k: string): seq<Row>
    requires HasKey(files, k)
  {
    Concat(Parts(files, k))
  }

  /** The rows of dataset `k` in files 0 .. j - 1: where file j's rows start. */
  function RowsBefore(files: seq<H5File>, k: string, j: nat): nat
    requires j <= |files| && HasKey(files, k)
  {
    if j == 0 then 0 else RowsBefore(files, k, j - 1) + |files[j - 1].datasets[k].rows|
  }

  lemma {:induction false} RowsBeforeIsLength(files: seq<H5File>, k: string, j: nat)
    requires j <= |files| && HasKey(files, k)
    ensures RowsBefore(files, k, j) == |Concat(Parts(files, k)[..j])|
  {
    if j > 0 {
      RowsBeforeIsLength(files, k, j - 1);
      ConcatPrefixStep(Parts(files, k), j - 1);
    }
  }

  /**
   * File j's rows land at `[start, start + len)` of the merged dataset, with
   * `start` the rows of the earlier files: copied unchanged for an ordinary
   * dataset, increased by the earlier files' hit-array rows for a hit index.
   */
  lemma MergedRowsAt(files: seq<H5File>, k: string, j: nat)
    requires j < |files| && HasKey(files, k)
    ensures var start := RowsBefore(files, k, j);
      var rows := files[j].datasets[k].rows;
      && start + |rows| <= |MergedRows(files, k)|
      && (IndexedBy(k).None? ==> MergedRows(files, k)[start .. start + |rows|] == rows)
      && (IndexedBy(k).Some? ==>
            MergedRows(files, k)[start .. start + |rows|] == ShiftRows(rows, Before(files, IndexedBy(k).value, j)))
  {
    SliceAt(Parts(files, k), j);
    OffsetAt(Parts(files, k), j);
    RowsBeforeIsLength(files, k, j);
  }

  /** The first file, from index j on, whose trailing shape differs from the first file's. */
  function ShapeCheckFrom(files: seq<H5File>, k: string, j: nat): Option<MergeError>
    requires |files| >= 1 && HasKey(files, k)
    decreases |files| - j
  {
    if j >= |files| then None
    else if files[j].datasets[k].trailing != files[0].datasets[k].trailing then Some(ShapeDiffers(k, j))
    else ShapeCheckFrom(files, k, j + 1)
  }

  /** The shape check passes exactly when every file has the first file's trailing shape; otherwise it names the first that does not. */
  lemma {:induction false} ShapeCheckSpec(files: seq<H5File>, k: string, j: nat)
    requires 1 <= j && |files| >= 1 && HasKey(files, k)
    ensures ShapeCheckFrom(files, k, j).None? <==>
      forall i :: j <= i < |files| ==> files[i].datasets[k].trailing == files[0].datasets[k].trailing
    ensures ShapeCheckFrom(files, k, j).Some? ==>
      var e := ShapeCheckFrom(files, k, j).value;
      && e.ShapeDiffers? && e.key == k && j <= e.file < |files|
      && files[e.file].datasets[k].trailing != files[0].datasets[k].trailing
      && forall i :: j <= i < e.file ==> files[i].datasets[k].trailing == files[0].datasets[k].trailing
    decreases |files| - j
  {
    if j < |files| && files[j].datasets[k].trailing == files[0].datasets[k].trailing {
      ShapeCheckSpec(files, k, j + 1);
    }
  }

  /**
   * The `shape` loop of the script: the leading dimension grows by every
   * file's rows, and a file whose trailing shape differs from the first
   * file's stops the merge. On success the length is that of the merged rows.
   */
  method MergedLength(files: seq<H5File>, k: string) returns (r: Result<nat, MergeError>)
    requires |files| >= 1 && HasKey(files, k)
    ensures ShapeCheckFrom(files, k, 1).Some? ==> r == Failure(ShapeCheckFrom(files, k, 1).value)
    ensures ShapeCheckFrom(files, k, 1).None? ==> r == Success(|MergedRows(files, k)|)
  {
    var trailing := files[0].datasets[k].trailing;
    var total := |files[0].datasets[k].rows|;
    RowsBeforeIsLength(files, k, |files|);
    var j := 1;
    while j < |files|
      invariant 1 <= j <= |files|
      invariant ShapeCheckFrom(files, k, j) == ShapeCheckFrom(files, k, 1)
      invariant total == RowsBefore(files, k, j)
    {
      total := total + |files[j].datasets[k].rows|;
      if files[j].datasets[k].trailing != trailing {
        return Failure(ShapeDiffers(k, j));
      }
      j := j + 1;
    }
    assert Parts(files, k)[..|files|] == Parts(files, k);
    return Success(total);
  }

  /**
   * The write loop for dataset `k`, with `start` and the hit offset as
   * cursors: every file's slice is written, rebased for a hit index. When
   * the hit array a hit index needs is absent, the lookup after the first
   * file's slice stops the merge with that slice written.
   */
  method WriteRows(files: seq<H5File>, k: string, total: nat) returns (rows: seq<Row>, missing: bool)
    requires |files| >= 1 && HasKey(files, k) && KeysAgree(files)
    requires total == |MergedRows(files, k)|
    ensures missing <==> IndexedBy(k).Some? && IndexedBy(k).value !in files[0].datasets
    ensures |rows| == total
    ensures !missing ==> rows == MergedRows(files, k)
    ensures missing ==> |files[0].datasets[k].rows| <= |rows| && rows[..|files[0].datasets[k].rows|] == files[0].datasets[k].rows
  {
    var dset := new Row[total](_ => []);
    var start := 0;
    var offset := 0;
    var j := 0;
    while j < |files|
      invariant 0 <= j <= |files|
      invariant start == |Concat(Parts(files, k)[..j])| <= total
      invariant dset[..start] == Concat(Parts(files, k)[..j])
      invariant IndexedBy(k).Some? ==> offset == Before(files, IndexedBy(k).value, j)
      invariant IndexedBy(k).Some? && j > 0 ==> IndexedBy(k).value in files[0].datasets
    {
      var part := files[j].datasets[k].rows;
      var stop := start + |part|;
      assert stop <= total by {
        ConcatPrefixStep(Parts(files, k), j);
        RowsBeforeIsLength(files, k, j + 1);
        MergedRowsAt(files, k, j);
        RowsBeforeIsLength(files, k, j);
      }
      if IndexedBy(k).Some? {
        var h := IndexedBy(k).value;
        WriteSlice(dset, start, ShiftRows(part, offset));
        if h !in files[j].datasets {
          assert j == 0 && start == 0 && offset == 0;
          assert ShiftRows(part, 0) == part by {
            forall i | 0 <= i < |part| ensures Shift(part[i], 0) == part[i] {
              assert Shift(part[i], 0) == part[i];
            }
          }
          assert dset[..][..stop] == part;
          return dset[..], true;
        }
        offset := offset + |files[j].datasets[h].rows|;
      } else {
        WriteSlice(dset, start, part);
      }
      ConcatPrefixStep(Parts(files, k), j);
      start := stop;
      j := j + 1;
    }
    assert Parts(files, k)[..j] == Parts(files, k);
    return dset[..], false;
  }

  /** `dset[start:stop] = part`: the rows before `start` stay, and `part` follows them. */
  method WriteSlice(dset: array<Row>, start: nat, part: seq<Row>)
    requires start + |part| <= dset.Length
    modifies dset
    ensures dset[..start + |part|] == old(dset[..start]) + part
  {
    forall i | 0 <= i < |part| {
      dset[start + i] := part[i];
    }
  }

  /** The output file, opened for writing: the datasets and attributes written so far. */
  class H5Out {
    var datasets: map<string, Dataset>
    var attrs: map<string, seq<string>>

    /** Opening with mode 'w' starts from an empty file. */
    constructor ()
      ensures datasets == map[] && attrs == map[]
    {
      datasets := map[];
      attrs := map[];
    }
  }

  /** The attribute loop: every attribute name of the first file gets the joined values. */
  method MergeAttrs(files: seq<H5File>, out: H5Out)
    requires |files| >= 1 && KeysAgree(files) && Listed(files[0])
    modifies out
    ensures out.attrs == HStacked(files)
    ensures out.datasets == old(out.datasets)
  {
    var names := files[0].attrKeys;
    out.attrs := map[];
    var i := 0;
    while i < |names|
      invariant 0 <= i <= |names|
      invariant out.attrs == map a | a in names[..i] :: HStack(files, a)
      invariant out.datasets == old(out.datasets)
    {
      assert names[..i + 1] == names[..i] + [names[i]];
      out.attrs := out.attrs[names[i] := HStack(files, names[i])];
      i := i + 1;
    }
    assert names[..i] == names;
  }

  /** How dataset `k` stops the merge, if it does: a trailing shape mismatch, or a hit index without its hit array. */
  function KeyFailure(files: seq<H5File>, k: string): Option<MergeError>
    requires |files| >= 1 && HasKey(files, k)
  {
    if ShapeCheckFrom(files, k, 1).Some? then ShapeCheckFrom(files, k, 1)
    else if IndexedBy(k).Some? && IndexedBy(k).value !in files[0].datasets then Some(MissingHits(k))
    else None
  }

  /** Every file holds every dataset the first file lists. */
  lemma ListedKeysShared(files: seq<H5File>)
    requires |files| >= 1 && KeysAgree(files) && Listed(files[0])
    ensures forall k :: k in files[0].keys ==> HasKey(files, k)
  {
  }

  /** Position, among the first file's dataset names from i on, of the first dataset that stops the merge. */
  function FirstFailure(files: seq<H5File>, i: nat): (n: nat)
    requires |files| >= 1 && KeysAgree(files) && Listed(files[0])
    ensures n == |files[0].keys| || (i <= n < |files[0].keys| && KeyFailure(files, files[0].keys[n]).Some?)
    decreases |files[0].keys| - i
  {
    ListedKeysShared(files);
    if i >= |files[0].keys| then |files[0].keys|
    else if KeyFailure(files, files[0].keys[i]).Some? then i
    else FirstFailure(files, i + 1)
  }

  /** Dataset `k` of the merged file. */
  function Merged(files: seq<H5File>, k: string): Dataset
    requires |files| >= 1 && HasKey(files, k)
  {
    Dataset(files[0].datasets[k].trailing, MergedRows(files, k))
  }

  /** The merged datasets of the first n names. */
  function MergedUpTo(files: seq<H5File>, n: nat): map<string, Dataset>
    requires |files| >= 1 && KeysAgree(files) && Listed(files[0]) && n <= |files[0].keys|
  {
    ListedKeysShared(files);
    map k | k in files[0].keys[..n] :: Merged(files, k)
  }

  /**
   * Dataset `k` after a missing hit array stopped the merge: created at the
   * merged length, with the first file's rows written at its start.
   */
  ghost predicate PartialIndex(files: seq<H5File>, k: string, ds: map<string, Dataset>)
    requires |files| >= 1 && HasKey(files, k)
  {
    && k in ds
    && ds[k].trailing == files[0].datasets[k].trailing
    && |ds[k].rows| == |MergedRows(files, k)|
    && |files[0].datasets[k].rows| <= |ds[k].rows|
    && ds[k].rows[..|files[0].datasets[k].rows|] == files[0].datasets[k].rows
  }

  /**
   * What the dataset loop leaves: with no failing dataset, every dataset
   * merged and no error; otherwise the datasets before the first failing one
   * merged, and the error it raises. A shape mismatch stops before the
   * dataset is created; a missing hit array stops after the first file's
   * rows of the index were written into it.
   */
  ghost predicate DatasetsMerged(files: seq<H5File>, err: Option<MergeError>, ds: map<string, Dataset>)
    requires |files| >= 1 && KeysAgree(files) && Listed(files[0])
  {
    ListedKeysShared(files);
    var n := FirstFailure(files, 0);
    var keys := files[0].keys;
    if n == |keys| then err == None && ds == MergedUpTo(files, n)
    else
      && err == KeyFailure(files, keys[n])
      && (err.value.ShapeDiffers? ==> ds == MergedUpTo(files, n))
      && (err.value.MissingHits? ==>
            PartialIndex(files, keys[n], ds) && ds == MergedUpTo(files, n)[keys[n] := ds[keys[n]]])
  }

  /**
   * One pass of the dataset loop: the shape check, then the dataset created
   * at the merged length and filled file by file.
   */
  method MergeKey(files: seq<H5File>, k: string, out: H5Out) returns (err: Option<MergeError>)
    requires |files| >= 1 && KeysAgree(files) && HasKey(files, k)
    modifies out
    ensures out.attrs == old(out.attrs)
    ensures err == KeyFailure(files, k)
    ensures err.Some? ==> err.value.ShapeDiffers? || err.value.MissingHits?
    ensures err.None? ==> out.datasets == old(out.datasets)[k := Merged(files, k)]
    ensures err.Some? && err.value.ShapeDiffers? ==> out.datasets == old(out.datasets)
    ensures err.Some? && err.value.MissingHits? ==>
      PartialIndex(files, k, out.datasets) && out.datasets == old(out.datasets)[k := out.datasets[k]]
  {
    ShapeCheckSpec(files, k, 1);
    var r := MergedLength(files, k);
    if r.Failure? {
      return Some(r.error);
    }
    var rows, missing := WriteRows(files, k, r.value);
    out.datasets := out.datasets[k := Dataset(files[0].datasets[k].trailing, rows)];
    if missing {
      return Some(MissingHits(k));
    }
    return None;
  }

  /** A name that merges cleanly extends the merged map by its dataset. */
  lemma MergedUpToStep(files: seq<H5File>, i: nat)
    requires |files| >= 1 && KeysAgree(files) && Listed(files[0]) && i < |files[0].keys|
    ensures HasKey(files, files[0].keys[i])
    ensures MergedUpTo(files, i + 1) == MergedUpTo(files, i)[files[0].keys[i] := Merged(files, files[0].keys[i])]
  {
    ListedKeysShared(files);
    assert files[0].keys[..i + 1] == files[0].keys[..i] + [files[0].keys[i]];
  }

  /** The first name that fails, reached after every earlier name merged, ends the loop as `DatasetsMerged` describes. */
  lemma StopsAt(files: seq<H5File>, i: nat, err: Option<MergeError>, ds: map<string, Dataset>)
    requires |files| >= 1 && KeysAgree(files) && Listed(files[0]) && i < |files[0].keys|
    requires HasKey(files, files[0].keys[i])
    requires FirstFailure(files, 0) == FirstFailure(files, i)
    requires err == KeyFailure(files, files[0].keys[i]) && err.Some?
    requires err.value.ShapeDiffers? ==> ds == MergedUpTo(files, i)
    requires err.value.MissingHits? ==>
      PartialIndex(files, files[0].keys[i], ds) && ds == MergedUpTo(files, i)[files[0].keys[i] := ds[files[0].keys[i]]]
    ensures DatasetsMerged(files, err, ds)
  {
    assert FirstFailure(files, i) == i;
  }

  /** The loop over the first file's dataset names, in order, stopping at the first failure. */
  method MergeDatasets(files: seq<H5File>, out: H5Out) returns (err: Option<MergeError>)
    requires |files| >= 1 && KeysAgree(files) && Listed(files[0])
    requires out.datasets == map[]
    modifies out
    ensures out.attrs == old(out.attrs)
    ensures DatasetsMerged(files, err, out.datasets)
  {
    ListedKeysShared(files);
    var keys := files[0].keys;
    var i := 0;
    while i < |keys|
      invariant 0 <= i <= |keys|
      invariant FirstFailure(files, 0) == FirstFailure(files, i)
      invariant out.datasets == MergedUpTo(files, i)
      invariant out.attrs == old(out.attrs)
    {
      MergedUpToStep(files, i);
      err := MergeKey(files, keys[i], out);
      if err.Some? {
        StopsAt(files, i, err, out.datasets);
        return;
      }
      i := i + 1;
    }
    err := None;
  }

  /**
   * The whole script. A name mismatch stops it before anything is written;
   * otherwise the attributes are written, then the datasets in order.
   */
  method Merge(files: seq<H5File>, out: H5Out) returns (err: Option<MergeError>)
    requires |files| >= 1 && forall j :: 0 <= j < |files| ==> Listed(files[j])
    requires out.datasets == map[] && out.attrs == map[]
    modifies out
    ensures KeyCheck(files).Some? ==> err == KeyCheck(files) && out.datasets == map[] && out.attrs == map[]
    ensures KeyCheck(files).None? ==> KeysAgree(files)
    ensures KeysAgree(files) ==> out.attrs == HStacked(files) && DatasetsMerged(files, err, out.datasets)
  {
    KeyCheckSpec(files);
    err := CheckKeys(files);
    if err.Some? {
      return;
    }
    MergeAttrs(files, out);
    err := MergeDatasets(files, out);
  }

  // ---------------------------------------------------------------------
  // Properties of the rebased hit index
  // ---------------------------------------------------------------------

  /** Rows of a hit index: one cell each, every value in `[lo, hi]`, never decreasing. */
  predicate IndexWithin(rows: seq<Row>, lo: int, hi: int) {
    && (forall i :: 0 <= i < |rows| ==> |rows[i]| == 1 && lo <= rows[i][0] <= hi)
    && (forall i, j :: 0 <= i <= j < |rows| ==> rows[i][0] <= rows[j][0])
  }

  lemma IndexWithinAppend(a: seq<Row>, b: seq<Row>, lo: int, mid: int, hi: int)
    requires lo <= mid <= hi && IndexWithin(a, lo, mid) && IndexWithin(b, mid, hi)
    ensures IndexWithin(a + b, lo, hi)
  {
    forall i, j | 0 <= i <= j < |a + b|
      ensures (a + b)[i][0] <= (a + b)[j][0]
    {
      if j < |a| {
      } else if i >= |a| {
        assert (a + b)[i] == b[i - |a|] && (a + b)[j] == b[j - |a|];
      } else {
        assert (a + b)[j] == b[j - |a|];
      }
    }
  }

  lemma IndexWithinShift(rows: seq<Row>, h: int, d: int)
    requires IndexWithin(rows, 0, h)
    ensures IndexWithin(ShiftRows(rows, d), d, d + h)
  {
  }

  lemma {:induction false} MergedIndexPrefix(files: seq<H5File>, k: string, h: string, n: nat)
    requires n <= |files| && HasKey(files, k) && IndexedBy(k) == Some(h)
    requires forall j :: 0 <= j < |files| ==> IndexWithin(files[j].datasets[k].rows, 0, HitCount(files[j], h))
    ensures IndexWithin(Concat(Parts(files, k)[..n]), 0, Before(files, h, n))
  {
    if n > 0 {
      MergedIndexPrefix(files, k, h, n - 1);
      ConcatPrefixStep(Parts(files, k), n - 1);
      IndexWithinShift(files[n - 1].datasets[k].rows, HitCount(files[n - 1], h), Before(files, h, n - 1));
      IndexWithinAppend(Concat(Parts(files, k)[..n - 1]), Parts(files, k)[n - 1], 0, Before(files, h, n - 1), Before(files, h, n));
    } else {
      assert Parts(files, k)[..0] == [];
    }
  }

  /**
   * If every file's hit index is ordered and points into its own hit array,
   * the merged index is ordered and points into the merged hit array.
   */
  lemma MergedIndexOrdered(files: seq<H5File>, k: string)
    requires HasKey(files, k) && IndexedBy(k).Some? && HasKey(files, IndexedBy(k).value)
    requires forall j :: 0 <= j < |files| ==> IndexWithin(files[j].datasets[k].rows, 0, HitCount(files[j], IndexedBy(k).value))
    ensures IndexWithin(MergedRows(files, k), 0, |MergedRows(files, IndexedBy(k).value)|)
  {
    var h := IndexedBy(k).value;
    MergedIndexPrefix(files, k, h, |files|);
    assert Parts(files, k)[..|files|] == Parts(files, k);
    HitsBefore(files, h, |files|);
    RowsBeforeIsLength(files, h, |files|);
    assert Parts(files, h)[..|files|] == Parts(files, h);
  }

  /** For a dataset present everywhere, the hit offset counts its rows. */
  lemma {:induction false} HitsBefore(files: seq<H5File>, h: string, n: nat)
    requires n <= |files| && HasKey(files, h)
    ensures Before(files, h, n) == RowsBefore(files, h, n)
  {
    if n > 0 {
      HitsBefore(files, h, n - 1);
    }
  }

  /** A hit index as dataset rows: one single-cell row per entry. */
  function Column(xs: seq<int>): (r: seq<Row>)
    ensures |r| == |xs|
  {
    seq(|xs|, i requires 0 <= i < |xs| => [xs[i]])
  }

  lemma ColumnAppend(a: seq<int>, b: seq<int>)
    ensures Column(a + b) == Column(a) + Column(b)
  {
  }

  lemma ColumnShift(xs: seq<int>, d: int)
    ensures ShiftRows(Column(xs), d) == Column(Shift(xs, d))
  {
    forall i | 0 <= i < |xs|
      ensures ShiftRows(Column(xs), d)[i] == Column(Shift(xs, d))[i]
    {
      assert Shift([xs[i]], d) == [xs[i] + d];
    }
  }

  /**
   * Merging commutes with flattening: when file j holds the index of the
   * ragged hit lists `lists[j]` and as many hits as they have, the merged
   * index is the index of all files' lists taken in order.
   */
  lemma {:induction false} MergeOfFlattened<T>(files: seq<H5File>, k: string, lists: seq<seq<seq<T>>>, n: nat)
    requires n <= |files| == |lists| && HasKey(files, k) && IndexedBy(k).Some?
    requires forall j :: 0 <= j < |files| ==>
      files[j].datasets[k].rows == Column(Offsets(lists[j])) &&
      HitCount(files[j], IndexedBy(k).value) == |Concat(lists[j])|
    ensures Concat(Parts(files, k)[..n]) == Column(Offsets(Concat(lists[..n])))
    ensures Before(files, IndexedBy(k).value, n) == |Concat(Concat(lists[..n]))|
  {
    var h := IndexedBy(k).value;
    if n == 0 {
      assert Parts(files, k)[..0] == [] && lists[..0] == [];
    } else {
      var m := n - 1;
      MergeOfFlattened(files, k, lists, m);
      var prev := Concat(lists[..m]);
      ConcatPrefixStep(Parts(files, k), m);
      ConcatPrefixStep(lists, m);
      OffsetsAppend(prev, lists[m]);
      ConcatAppend(prev, lists[m]);
      ColumnShift(Offsets(lists[m]), |Concat(prev)|);
      ColumnAppend(Offsets(prev), Shift(Offsets(lists[m]), |Concat(prev)|));
    }
  }

  /** The merged index of flattened files is the flattened index of their concatenation. */
  lemma MergedFlattenedIndex<T>(files: seq<H5File>, k: string, lists: seq<seq<seq<T>>>)
    requires |files| == |lists| && HasKey(files, k) && IndexedBy(k).Some?
    requires forall j :: 0 <= j < |files| ==>
      files[j].datasets[k].rows == Column(Offsets(lists[j])) &&
      HitCount(files[j], IndexedBy(k).value) == |Concat(lists[j])|
    ensures MergedRows(files, k) == Column(Offsets(Concat(lists)))
  {
    MergeOfFlattened(files, k, lists, |files|);
    assert Parts(files, k)[..|files|] == Parts(files, k);
    assert lists[..|files|] == lists;
  }

  /** A file with one event and `hits` 20-inch hits, as the converter writes it. */
  function OneEventFile(hits: nat): H5File {
    H5File(["event_hits_index_20", "hit_pmt_20"],
           map["event_hits_index_20" := Dataset([], [[0]]), "hit_pmt_20" := Dataset([], seq(hits, _ => [0]))],
           [], map[])
  }

  function ThreeFiles(): seq<H5File> {
    [OneEventFile(3), OneEventFile(0), OneEventFile(5)]
  }

  /** Three one-event files with 3, 0 and 5 hits merge to the index [0, 3, 3]. */
  lemma ThreeFileExample()
    ensures HasKey(ThreeFiles(), "event_hits_index_20")
    ensures MergedRows(ThreeFiles(), "event_hits_index_20") == [[0], [3], [3]]
  {
    var files := ThreeFiles();
    var k := "event_hits_index_20";
    assert Before(files, "hit_pmt_20", 1) == 3;
    assert Before(files, "hit_pmt_20", 2) == 3;
    assert Shift([0], 0) == [0] && Shift([0], 3) == [3];
    assert ShiftRows([[0]], 0) == [[0]] && ShiftRows([[0]], 3) == [[3]];
    assert forall j :: 0 <= j < 3 ==> files[j].datasets[k].rows == [[0]];
    var parts := Parts(files, k);
    assert parts == [[[0]], [[3]], [[3]]] by {
      assert FilePart(files, k, 0) == [[0]];
      assert FilePart(files, k, 1) == [[3]];
      assert FilePart(files, k, 2) == [[3]];
    }
    assert parts[..0] == [] && parts[..3] == parts;
    ConcatPrefixStep(parts, 0);
    ConcatPrefixStep(parts, 1);
    ConcatPrefixStep(parts, 2);
  }

  /** The merged hit array of the three files has their 3 + 0 + 5 hits. */
  lemma ThreeFileHits()
    ensures HasKey(ThreeFiles(), "hit_pmt_20")
    ensures |MergedRows(ThreeFiles(), "hit_pmt_20")| == 8
  {
    var files := ThreeFiles();
    RowsBeforeIsLength(files, "hit_pmt_20", 3);
    assert Parts(files, "hit_pmt_20")[..3] == Parts(files, "hit_pmt_20");
  }
}
