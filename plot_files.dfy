/**
 * The file bookkeeping of plot.py: bucketing the output-directory listings
 * by analysis kind, the "nothing to plot" check, the LIN/LOG sweep
 * detection, the map of figure folders, the figure numbering and the
 * `last` flag of the AC loop.
 *
 * Directory listings and the set of paths that already exist are inputs;
 * folders to create and names to save under are returned as data. A call to
 * `sys.exit` becomes `None`.
 */
module PlotFiles {
  import opened Text

  datatype Kind = DC | TRAN | AC

  /** The `analyses` dictionary: its three keys are always present. */
  datatype Analyses = Analyses(dc: seq<string>, tran: seq<string>, ac: seq<string>)

  function FilesOf(an: Analyses, k: Kind): (r: seq<string>)
  {
    match k
    case DC => an.dc
    case TRAN => an.tran
    case AC => an.ac
  }

  function Prefix(k: Kind): (r: string)
  {
    match k
    case DC => "dc_sweep_analysis_"
    case TRAN => "tr_analysis_"
    case AC => "ac_analysis_"
  }

  const PlotsPath: string := "./plots"

  function FolderOf(k: Kind): (r: string)
  {
    match k
    case DC => PlotsPath + "/DC/"
    case TRAN => PlotsPath + "/TRAN/"
    case AC => PlotsPath + "/AC/"
  }

  // ---------------------------------------------------------------------
  // get_analyses
  // ---------------------------------------------------------------------

  /** The names of `listing` containing `prefix` anywhere, in listing order. */
  function Filter(listing: seq<string>, prefix: string): (r: seq<string>)
    decreases |listing|
  {
    if listing == [] then []
    else
      var init := Filter(listing[..|listing| - 1], prefix);
      var last := listing[|listing| - 1];
      if Contains(last, prefix) then init + [last] else init
  }

  /** A name is in the bucket exactly when it is listed and contains the prefix. */
  lemma {:induction false} FilterMembers(listing: seq<string>, prefix: string, name: string)
    ensures name in Filter(listing, prefix) <==> name in listing && Contains(name, prefix)
    decreases |listing|
  {
    if listing != [] {
      var init := listing[..|listing| - 1];
      FilterMembers(init, prefix, name);
      assert listing == init + [listing[|listing| - 1]];
    }
  }

  /** Filtering keeps listing order: the bucket of two listings is the two buckets in turn. */
  lemma {:induction false} FilterAppend(a: seq<string>, b: seq<string>, prefix: string)
    ensures Filter(a + b, prefix) == Filter(a, prefix) + Filter(b, prefix)
    decreases |b|
  {
    if b == [] {
      assert a + b == a;
    } else {
      var init := b[..|b| - 1];
      FilterAppend(a, init, prefix);
      assert (a + b)[..|a + b| - 1] == a + init;
      assert (a + b)[|a + b| - 1] == b[|b| - 1];
    }
  }

  /** One bucket: the loop that appends every matching name. */
  method Collect(listing: seq<string>, prefix: string) returns (files: seq<string>)
    ensures files == Filter(listing, prefix)
  {
    files := [];
    var i := 0;
    while i < |listing|
      invariant 0 <= i <= |listing|
      invariant files == Filter(listing[..i], prefix)
    {
      assert listing[..i + 1][..i] == listing[..i];
      if Contains(listing[i], prefix) {
        files := files + [listing[i]];
      }
      i := i + 1;
    }
    assert listing[..i] == listing;
  }

  /** `get_analyses`, given the listings of the DC, TRAN and AC output directories. */
  method GetAnalyses(dcListing: seq<string>, trListing: seq<string>, acListing: seq<string>) returns (an: Analyses)
    ensures an.dc == Filter(dcListing, Prefix(DC))
    ensures an.tran == Filter(trListing, Prefix(TRAN))
    ensures an.ac == Filter(acListing, Prefix(AC))
  {
    var dcFiles := Collect(dcListing, Prefix(DC));
    var trFiles := Collect(trListing, Prefix(TRAN));
    var acFiles := Collect(acListing, Prefix(AC));
    an := Analyses(dcFiles, trFiles, acFiles);
  }

  /** The buckets are not a partition: one name can land in two of them. */
  lemma BucketsOverlap()
    ensures var name := "tr_analysis_ac_analysis_x.txt";
      name in Filter([name], Prefix(TRAN)) && name in Filter([name], Prefix(AC))
  {
    var name := "tr_analysis_ac_analysis_x.txt";
    assert OccursAt(name, Prefix(TRAN), 0);
    assert OccursAt(name, Prefix(AC), 12);
    ContainsAt(name, Prefix(TRAN));
    ContainsAt(name, Prefix(AC));
    FilterMembers([name], Prefix(TRAN), name);
    FilterMembers([name], Prefix(AC), name);
  }

  // ---------------------------------------------------------------------
  // check_analyses
  // ---------------------------------------------------------------------

  /** `check_analyses` lets the program go on (true) unless every bucket is empty. */
  function CheckAnalyses(an: Analyses): (r: bool)
  {
    an.dc != [] || an.tran != [] || an.ac != []
  }

  /** Some name of the listing contains the prefix. */
  predicate AnyContains(listing: seq<string>, prefix: string)
  {
    exists i :: 0 <= i < |listing| && Contains(listing[i], prefix)
  }

  /**
   * After `get_analyses`, the program goes on exactly when some listing holds
   * a name with its kind's prefix.
   */
  lemma CheckAfterGet(dcListing: seq<string>, trListing: seq<string>, acListing: seq<string>)
    ensures CheckAnalyses(Analyses(Filter(dcListing, Prefix(DC)), Filter(trListing, Prefix(TRAN)), Filter(acListing, Prefix(AC))))
      <==> AnyContains(dcListing, Prefix(DC)) || AnyContains(trListing, Prefix(TRAN)) || AnyContains(acListing, Prefix(AC))
  {
    NonEmptyFilter(dcListing, Prefix(DC));
    NonEmptyFilter(trListing, Prefix(TRAN));
    NonEmptyFilter(acListing, Prefix(AC));
  }

  /** A bucket is empty exactly when no listed name contains the prefix. */
  lemma NonEmptyFilter(listing: seq<string>, prefix: string)
    ensures Filter(listing, prefix) != [] <==> AnyContains(listing, prefix)
  {
    if Filter(listing, prefix) != [] {
      var name := Filter(listing, prefix)[0];
      FilterMembers(listing, prefix, name);
    }
    if AnyContains(listing, prefix) {
      var i :| 0 <= i < |listing| && Contains(listing[i], prefix);
      FilterMembers(listing, prefix, listing[i]);
    }
  }

  // ---------------------------------------------------------------------
  // get_sweep
  // ---------------------------------------------------------------------

  datatype Sweep = LIN | LOG

  /** Whether a name tells neither sweep type. */
  predicate Untyped(name: string)
  {
    !Contains(name, "LIN") && !Contains(name, "LOG")
  }

  /**
   * `get_sweep`: the first file naming a sweep type decides it, `LIN` tested
   * before `LOG` within a file; `None` when no file names one.
   */
  method GetSweep(acFiles: seq<string>) returns (sweep: Option<Sweep>)
    ensures sweep.None? <==> forall i :: 0 <= i < |acFiles| ==> Untyped(acFiles[i])
    ensures sweep == Some(LIN) ==>
      exists i :: 0 <= i < |acFiles| && Contains(acFiles[i], "LIN") && forall j :: 0 <= j < i ==> Untyped(acFiles[j])
    ensures sweep == Some(LOG) ==>
      exists i :: 0 <= i < |acFiles| && Contains(acFiles[i], "LOG") && !Contains(acFiles[i], "LIN")
        && forall j :: 0 <= j < i ==> Untyped(acFiles[j])
  {
    sweep := None;
    var i := 0;
    while i < |acFiles|
      invariant 0 <= i <= |acFiles|
      invariant forall j :: 0 <= j < i ==> Untyped(acFiles[j])
    {
      if Contains(acFiles[i], "LIN") {
        sweep := Some(LIN);
        break;
      } else if Contains(acFiles[i], "LOG") {
        sweep := Some(LOG);
        break;
      }
      i := i + 1;
    }
  }

  // ---------------------------------------------------------------------
  // get_paths_create_folders
  // ---------------------------------------------------------------------

  /**
   * `get_paths_create_folders`: a folder for every kind with files; the
   * folders that do not exist yet are created, and `flag` tells whether any was.
   */
  method GetPaths(an: Analyses, existing: set<string>) returns (paths: map<Kind, string>, created: set<string>, flag: bool)
    ensures forall k :: k in paths <==> FilesOf(an, k) != []
    ensures forall k :: k in paths ==> paths[k] == FolderOf(k)
    ensures created == paths.Values - existing
    ensures flag <==> created != {}
    ensures forall k :: FolderOf(k) in created <==> FilesOf(an, k) != [] && FolderOf(k) !in existing
  {
    paths := map[];
    if an.dc != [] {
      paths := paths[DC := PlotsPath + "/DC/"];
    }
    if an.tran != [] {
      paths := paths[TRAN := PlotsPath + "/TRAN/"];
    }
    if an.ac != [] {
      paths := paths[AC := PlotsPath + "/AC/"];
    }
    created, flag := CreateFolders(paths.Values, existing);
    forall k | FolderOf(k) in created
      ensures FilesOf(an, k) != []
    {
      var k' :| k' in paths && paths[k'] == FolderOf(k);
      if k' != k {
        FoldersDistinct(k', k);
      }
    }
  }

  /** The loop over the folders: create the missing ones. */
  method CreateFolders(folders: set<string>, existing: set<string>) returns (created: set<string>, flag: bool)
    ensures created == folders - existing
    ensures flag <==> created != {}
  {
    created := {};
    flag := false;
    var todo := folders;
    while todo != {}
      invariant todo <= folders
      invariant forall p :: p in created <==> p in folders && p !in todo && p !in existing
      invariant flag <==> created != {}
      decreases |todo|
    {
      var path :| path in todo;
      if path !in existing {
        flag := true;
        created := created + {path};
      }
      todo := todo - {path};
    }
    assert created == folders - existing;
  }

  /** The three folders are distinct, so each kind with files gets a folder of its own. */
  lemma FoldersDistinct(k1: Kind, k2: Kind)
    requires k1 != k2
    ensures FolderOf(k1) != FolderOf(k2)
  {
    var i := |PlotsPath| + 1;
    assert FolderOf(k1)[i] != FolderOf(k2)[i];
  }

  // ---------------------------------------------------------------------
  // plot_analyses: figure numbers and the AC `last` flag
  // ---------------------------------------------------------------------

  /** How many names of a listing end in `.png`. */
  function PngCount(listing: seq<string>): (r: nat)
    decreases |listing|
  {
    if listing == [] then 0
    else PngCount(listing[..|listing| - 1]) + (if EndsWith(listing[|listing| - 1], ".png") then 1 else 0)
  }

  /** Positions of the listing whose name ends in `.png`. */
  function PngIndices(listing: seq<string>): (r: set<int>)
  {
    set i | 0 <= i < |listing| && EndsWith(listing[i], ".png")
  }

  /** `fig_id`: one more than the number of figures already in the folder. */
  function FigureNumber(listing: seq<string>): (n: nat)
    ensures n - 1 == |PngIndices(listing)|
    ensures 1 <= n <= |listing| + 1
  {
    PngCountBound(listing);
    PngCountIsIndices(listing);
    PngCount(listing) + 1
  }

  /** The recursive count is the number of `.png` positions. */
  lemma {:induction false} PngCountIsIndices(listing: seq<string>)
    ensures PngCount(listing) == |PngIndices(listing)|
    decreases |listing|
  {
    if listing != [] {
      var m := |listing| - 1;
      var p := listing[..m];
      PngCountIsIndices(p);
      assert m !in PngIndices(p);
      if EndsWith(listing[m], ".png") {
        assert PngIndices(listing) == PngIndices(p) + {m};
      } else {
        assert PngIndices(listing) == PngIndices(p);
      }
    }
  }

  lemma {:induction false} PngCountBound(listing: seq<string>)
    ensures PngCount(listing) <= |listing|
    decreases |listing|
  {
    if listing != [] {
      PngCountBound(listing[..|listing| - 1]);
    }
  }

  /** The figure name saved under the folder: folder, number and suffix. */
  function FigurePath(folder: string, listing: seq<string>, suffix: string): (r: string)
  {
    folder + Decimal(FigureNumber(listing)) + suffix
  }

  function Suffix(k: Kind): (r: string)
  {
    match k
    case DC => "_DC_Sweep_Analysis"
    case TRAN => "_Transient_Analysis"
    case AC => "_AC_Analysis"
  }

  /**
   * Once a figure is saved as a `.png` in the folder, the next figure gets
   * the next number; names not ending in `.png` do not count.
   */
  lemma NextFigureNumber(listing: seq<string>, name: string)
    ensures FigureNumber(listing + [name]) == FigureNumber(listing) + (if EndsWith(name, ".png") then 1 else 0)
  {
    assert (listing + [name])[..|listing|] == listing;
  }

  /** The saved file name starts with the folder and ends with the kind's suffix. */
  lemma FigurePathShape(k: Kind, listing: seq<string>)
    ensures StartsWith(FigurePath(FolderOf(k), listing, Suffix(k)), FolderOf(k))
    ensures EndsWith(FigurePath(FolderOf(k), listing, Suffix(k)), Suffix(k))
  {
    var p := FigurePath(FolderOf(k), listing, Suffix(k));
    assert p[..|FolderOf(k)|] == FolderOf(k);
    assert p[|p| - |Suffix(k)|..] == Suffix(k);
  }

  /** The AC loop: `last` is set on the final file and never cleared. */
  method LastFlags(count: nat) returns (flags: seq<bool>)
    ensures |flags| == count
    ensures forall i :: 0 <= i < count ==> (flags[i] <==> i == count - 1)
  {
    flags := [];
    var last := false;
    var index := 0;
    while index < count
      invariant 0 <= index <= count
      invariant |flags| == index
      invariant last <==> (count > 0 && index == count)
      invariant forall i :: 0 <= i < index ==> (flags[i] <==> i == count - 1)
    {
      if index == count - 1 {
        last := true;
      }
      flags := flags + [last];
      index := index + 1;
    }
  }
}
