/** Element loading and bundle preparation of script/index.js: `getAssetElementData`,
    which appends the element files of one directory to the `uiData` record, and
    `createAssetBundle`, which fills a fresh `uiData` from the platform directory
    and then the common one and names the bundle file. */
module Elements {
  import opened JsText
  import opened Fs
  import opened Bundle

  /** The extension element files carry. */
  const Suffix := ".json"

  /** `asset.indexOf(suffix) !== -1`: the name contains `.json` anywhere. */
  predicate IsElementFile(name: string)
  {
    IndexOf(name, Suffix) != -1
  }

  /** The entries of a listing kept as element files, in listing order. */
  function ElementFiles(listing: seq<string>): (r: seq<string>)
    ensures forall x :: x in r <==> x in listing && IsElementFile(x)
    ensures |r| <= |listing|
  {
    if listing == [] then []
    else if IsElementFile(listing[0]) then [listing[0]] + ElementFiles(listing[1..])
    else ElementFiles(listing[1..])
  }

  /** Filtering a concatenated listing filters each part in turn: no entry is
      reordered, duplicated or dropped other than by the test. */
  lemma {:induction false} ElementFilesAppend(a: seq<string>, b: seq<string>)
    ensures ElementFiles(a + b) == ElementFiles(a) + ElementFiles(b)
  {
    if a != [] {
      assert (a + b)[1..] == a[1..] + b;
      ElementFilesAppend(a[1..], b);
    } else {
      assert a + b == b;
    }
  }

  /** `asset.replace(suffix, "")`: the element name, i.e. the file name with its
      first `.json` removed. Putting `.json` back where the first one was gives
      the file name again. */
  function ElementName(file: string): (r: string)
    ensures !IsElementFile(file) ==> r == file
    ensures IsElementFile(file) ==>
      var i := IndexOf(file, Suffix);
      |r| == |file| - |Suffix| && i <= |r| && r[..i] + Suffix + r[i..] == file
  {
    var r := ReplaceFirst(file, Suffix, "");
    if IsElementFile(file) then
      var i := IndexOf(file, Suffix);
      SubstitutionLiteral("", file, i, |Suffix|);
      assert r == file[..i] + file[i + |Suffix|..];
      assert r[..i] == file[..i] && r[i..] == file[i + |Suffix|..];
      assert file[..i] + Suffix + file[i + |Suffix|..] == file by {
        assert file[i..i + |Suffix|] == Suffix;
      }
      r
    else
      r
  }

  /** The element name of a file whose first `.json` is at `i`: the text before
      it followed by the text after it. */
  lemma ElementNameAt(file: string, i: int)
    requires FirstOccurrence(file, Suffix, i)
    ensures ElementName(file) == file[..i] + file[i + |Suffix|..]
  {
    PlainReplaceFirst(file, Suffix, "", i);
    assert file[..i] + "" == file[..i];
  }

  /** The test looks for `.json` anywhere in the name, not only at its end: a
      file such as `a.json.bak` is taken as the element `a.bak`. */
  lemma InnerSuffixCounts()
    ensures IsElementFile("a.json.bak") && ElementName("a.json.bak") == "a.bak"
  {
    var f := "a.json.bak";
    assert FirstOccurrence(f, Suffix, 1) by {
      assert f == "a" + (Suffix + ".bak");
      SliceRight("a", Suffix + ".bak", 1, 6);
      SliceLeft(Suffix, ".bak", 0, 5);
      assert f[0] != '.';
    }
    ElementNameAt(f, 1);
    assert f[..1] + f[6..] == "a.bak";
  }

  /** The names appended for a sequence of element files. */
  function ElementNames(files: seq<string>): (r: seq<string>)
    ensures |r| == |files|
    ensures forall k :: 0 <= k < |files| ==> r[k] == ElementName(files[k])
  {
    if files == [] then []
    else [ElementName(files[0])] + ElementNames(files[1..])
  }

  /** The descriptors appended for the element files of the directory at `dirPath`,
      each read from that file. */
  function ElementDescriptors<V>(fsys: FileSystem<V>, dirPath: string, files: seq<string>): (r: seq<V>)
    ensures |r| == |files|
    ensures forall k :: 0 <= k < |files| ==> r[k] == fsys.descriptor(Join(dirPath, files[k]))
  {
    if files == [] then []
    else [fsys.descriptor(Join(dirPath, files[0]))] + ElementDescriptors(fsys, dirPath, files[1..])
  }

  /** The value of a `uiData` record: element names and, at the same index,
      their descriptors. */
  datatype UiData<V> = UiData(names: seq<string>, data: seq<V>)
  {
    predicate Parallel()
    {
      |names| == |data|
    }

    function Concat(other: UiData<V>): UiData<V>
    {
      UiData(names + other.names, data + other.data)
    }
  }

  /** The element names and descriptors of the listing of the directory at
      `dirPath`, gathered in one pass over the listing. */
  function ElementsIn<V>(fsys: FileSystem<V>, dirPath: string, listing: seq<string>): (u: UiData<V>)
    ensures u.Parallel()
  {
    if listing == [] then UiData([], [])
    else
      var rest := ElementsIn(fsys, dirPath, listing[1..]);
      if IsElementFile(listing[0]) then
        UiData([ElementName(listing[0])] + rest.names, [fsys.descriptor(Join(dirPath, listing[0]))] + rest.data)
      else rest
  }

  /** The one-pass reading agrees with the script's filter-then-map: the names
      and descriptors of the element files of the listing, in listing order. */
  lemma {:induction false} ElementsInFilterMap<V>(fsys: FileSystem<V>, dirPath: string, listing: seq<string>)
    ensures var files := ElementFiles(listing);
            ElementsIn(fsys, dirPath, listing) == UiData(ElementNames(files), ElementDescriptors(fsys, dirPath, files))
  {
    if listing != [] {
      ElementsInFilterMap(fsys, dirPath, listing[1..]);
      var files := ElementFiles(listing);
      if IsElementFile(listing[0]) {
        assert files[1..] == ElementFiles(listing[1..]);
      }
    }
  }

  /** What `getAssetElementData` contributes for `dirPath`: nothing for a null
      path, the element files of the listing otherwise, or the path itself when
      reading the directory throws. */
  function Collected<V>(fsys: FileSystem<V>, dirPath: Option<string>): (r: Result<UiData<V>>)
    ensures dirPath.None? ==> r == Ok(UiData([], []))
    ensures dirPath.Some? && dirPath.value !in fsys.dirs ==> r == Thrown(dirPath.value)
    ensures dirPath.Some? && dirPath.value in fsys.dirs ==>
      r == Ok(ElementsIn(fsys, dirPath.value, fsys.dirs[dirPath.value]))
    ensures r.Ok? ==> r.value.Parallel()
  {
    match dirPath
    case None => Ok(UiData([], []))
    case Some(p) =>
      match ReadDir(fsys, p)
      case Thrown(q) => Thrown(q)
      case Ok(listing) =>
        Ok(ElementsIn(fsys, p, listing))
  }

  /** The `uiData` record, updated in place by `getAssetElementData`. */
  class ElementData<V> {
    var names: seq<string>
    var data: seq<V>

    ghost predicate Valid()
      reads this
    {
      |names| == |data|
    }

    function View(): UiData<V>
      reads this
    {
      UiData(names, data)
    }

    /** `{ names: [], data: [] }` */
    constructor ()
      ensures Valid() && names == [] && data == []
    {
      names := [];
      data := [];
    }

    /** `getAssetElementData(uiData, dirPath)`: appends the element names and
        their descriptors of the directory, keeping the record parallel; a null
        path leaves it as it is; a directory that cannot be read throws before
        anything is appended. */
    method Append(fsys: FileSystem<V>, dirPath: Option<string>) returns (thrown: Option<string>)
      requires Valid()
      modifies this
      ensures Valid()
      ensures dirPath.None? ==> thrown == None && View() == old(View())
      ensures dirPath.Some? && dirPath.value in fsys.dirs ==>
        var files := ElementFiles(fsys.dirs[dirPath.value]);
        thrown == None &&
        names == old(names) + ElementNames(files) &&
        data == old(data) + ElementDescriptors(fsys, dirPath.value, files)
      ensures Collected(fsys, dirPath).Thrown? ==>
        thrown == Some(Collected(fsys, dirPath).path) && View() == old(View())
      ensures Collected(fsys, dirPath).Ok? ==>
        thrown == None && View() == old(View()).Concat(Collected(fsys, dirPath).value)
    {
      if dirPath.None? {
        return None;
      }
      var p := dirPath.value;
      var content := ReadDir(fsys, p);
      if content.Thrown? {
        return Some(content.path);
      }
      var assets := ElementFiles(content.value);
      ElementsInFilterMap(fsys, p, content.value);
      names := names + ElementNames(assets);
      data := data + ElementDescriptors(fsys, p, assets);
      thrown := None;
    }
  }

  /** The element data of a bundle: the platform directory first, then the common one. */
  function Merged<V>(fsys: FileSystem<V>, mainPath: Option<string>, commonPath: Option<string>): Result<UiData<V>>
  {
    match Collected(fsys, mainPath)
    case Thrown(p) => Thrown(p)
    case Ok(main) =>
      match Collected(fsys, commonPath)
      case Thrown(p) => Thrown(p)
      case Ok(common) => Ok(main.Concat(common))
  }

  /** The name of the bundle file of a variant. */
  function BundleName(isMobile: bool): (r: string)
    ensures r == if isMobile then "bundle_m.json" else "bundle_d.json"
  {
    "bundle_" + (if isMobile then "m" else "d") + ".json"
  }

  /** A bundle file as `createAssetBundle` leaves it to the UI parser and writes
      it: its path, the bundle it was given and the element data gathered for it. */
  datatype BundleFile<V> = BundleFile(path: string, isMobile: bool, bundle: AssetBundle<V>, ui: UiData<V>)

  /** The bundle file `createAssetBundle(bundle, mainPath, commonPath, name, isMobile)` produces. */
  function AssetBundleFile<V>(fsys: FileSystem<V>, exportPath: string, name: string, bundle: AssetBundle<V>,
                              mainPath: Option<string>, commonPath: Option<string>, isMobile: bool): Result<BundleFile<V>>
  {
    match Merged(fsys, mainPath, commonPath)
    case Thrown(p) => Thrown(p)
    case Ok(ui) => Ok(BundleFile(Join(Join(exportPath, name), BundleName(isMobile)), isMobile, bundle, ui))
  }

  /** `createAssetBundle`: gathers the element data into a fresh record, platform
      directory first, and names the file after the variant. */
  method CreateAssetBundle<V>(fsys: FileSystem<V>, exportPath: string, name: string, bundle: AssetBundle<V>,
                              mainPath: Option<string>, commonPath: Option<string>, isMobile: bool)
    returns (r: Result<BundleFile<V>>)
    ensures r == AssetBundleFile(fsys, exportPath, name, bundle, mainPath, commonPath, isMobile)
  {
    var bundleName := BundleName(isMobile);
    var bundlePath := Join(exportPath, name);
    var bundleFilePath := Join(bundlePath, bundleName);
    var uiData := new ElementData<V>();
    var thrown := uiData.Append(fsys, mainPath);
    if thrown.Some? {
      return Thrown(thrown.value);
    }
    thrown := uiData.Append(fsys, commonPath);
    if thrown.Some? {
      return Thrown(thrown.value);
    }
    ghost var main := Collected(fsys, mainPath).value;
    ghost var common := Collected(fsys, commonPath).value;
    assert uiData.View() == UiData([] + main.names + common.names, [] + main.data + common.data);
    assert [] + main.names == main.names && [] + main.data == main.data;
    r := Ok(BundleFile(bundleFilePath, isMobile, bundle, uiData.View()));
  }

  /** The bundle's element data lists the platform directory's elements and then
      the common directory's, each in listing order, with one descriptor per name. */
  lemma MergeOrder<V>(fsys: FileSystem<V>, mainPath: string, commonPath: string)
    requires mainPath in fsys.dirs && commonPath in fsys.dirs
    ensures var mainFiles := ElementFiles(fsys.dirs[mainPath]);
            var commonFiles := ElementFiles(fsys.dirs[commonPath]);
            Merged(fsys, Some(mainPath), Some(commonPath)) ==
              Ok(UiData(ElementNames(mainFiles) + ElementNames(commonFiles),
                        ElementDescriptors(fsys, mainPath, mainFiles) + ElementDescriptors(fsys, commonPath, commonFiles)))
  {
    ElementsInFilterMap(fsys, mainPath, fsys.dirs[mainPath]);
    ElementsInFilterMap(fsys, commonPath, fsys.dirs[commonPath]);
  }

  /** The merged element data stays parallel: name `k` and descriptor `k` come
      from the same file. */
  lemma MergedParallel<V>(fsys: FileSystem<V>, mainPath: Option<string>, commonPath: Option<string>)
    requires Merged(fsys, mainPath, commonPath).Ok?
    ensures Merged(fsys, mainPath, commonPath).value.Parallel()
  {
  }

  /** An element present in both directories is listed twice, the platform one
      first: neither overrides the other. */
  lemma {:induction false} DuplicateNamesKept<V>(fsys: FileSystem<V>, mainPath: string, commonPath: string, file: string)
    requires mainPath in fsys.dirs && commonPath in fsys.dirs
    requires file in fsys.dirs[mainPath] && file in fsys.dirs[commonPath] && IsElementFile(file)
    ensures var u := Merged(fsys, Some(mainPath), Some(commonPath)).value;
            exists i, j :: 0 <= i < j < |u.names| && u.names[i] == ElementName(file) == u.names[j]
  {
    var mainFiles := ElementFiles(fsys.dirs[mainPath]);
    var commonFiles := ElementFiles(fsys.dirs[commonPath]);
    MergeOrder(fsys, mainPath, commonPath);
    assert file in mainFiles && file in commonFiles;
    var a :| 0 <= a < |mainFiles| && mainFiles[a] == file;
    var b :| 0 <= b < |commonFiles| && commonFiles[b] == file;
    var mainNames, commonNames := ElementNames(mainFiles), ElementNames(commonFiles);
    assert mainNames[a] == ElementName(file) == commonNames[b];
    ListedTwice(mainNames, commonNames, a, b);
  }

  /** An entry of the left part and an equal entry of the right part sit at two
      distinct indices of the concatenation. */
  lemma ListedTwice<T>(xs: seq<T>, ys: seq<T>, a: int, b: int)
    requires 0 <= a < |xs| && 0 <= b < |ys| && xs[a] == ys[b]
    ensures exists i, j :: 0 <= i < j < |xs + ys| && (xs + ys)[i] == xs[a] == (xs + ys)[j]
  {
    assert (xs + ys)[a] == xs[a] && (xs + ys)[|xs| + b] == ys[b];
  }
}
