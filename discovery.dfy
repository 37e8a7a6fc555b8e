/**
 * File discovery: `findJsonFiles` and `groupFilesByUploadOrder`, over an
 * abstract directory tree standing for the bundles directory. Paths are
 * built relative to that directory, which is what the run reports.
 */
module Discovery {
  import opened Wrappers
  import opened JsStrings

  /** A directory entry: a regular file, a directory, or anything else (a link, a socket). */
  datatype Node = File(name: string) | Directory(name: string, children: seq<Node>) | Special(name: string)

  /** Upload order: the groups other resources depend on come first. */
  const UploadOrder: seq<string> := ["value-sets", "activity-definitions", "plan-definitions", "questionnaires"]
  const OtherGroup := "_other"
  /** Files at the top of the bundles directory that are not FHIR resources. */
  const IgnoredFiles: set<string> := {"package.json", "package-lock.json", "tsconfig.json"}

  /** `path.join(dir, name)`, with the empty path standing for the bundles directory. */
  function PathJoin(dir: string, name: string): string {
    if dir == "" then name else dir + "/" + name
  }

  predicate IsJsonName(name: string) {
    EndsWith(name, ".json")
  }

  /** Every `.json` file below a directory with contents `ns`, in listing order. */
  function JsonFilesUnder(dir: string, ns: seq<Node>): (files: seq<string>)
    ensures forall f :: f in files ==> IsJsonName(f)
    decreases ns
  {
    if |ns| == 0 then []
    else
      var last := match ns[|ns| - 1]
        case File(name) => if IsJsonName(name) then [PathJoin(dir, name)] else []
        case Directory(name, children) => JsonFilesUnder(PathJoin(dir, name), children)
        case Special(_) => [];
      JsonFilesUnder(dir, ns[..|ns| - 1]) + last
  }

  /** Every discovered file lies inside the directory walked. */
  lemma {:induction false} JsonFilesUnderAreInside(dir: string, ns: seq<Node>)
    requires dir != ""
    ensures forall f :: f in JsonFilesUnder(dir, ns) ==> StartsWith(f, dir + "/")
    decreases ns
  {
    if |ns| > 0 {
      JsonFilesUnderAreInside(dir, ns[..|ns| - 1]);
      match ns[|ns| - 1]
      case File(name) =>
        if IsJsonName(name) {
          var f := PathJoin(dir, name);
          assert f[..|dir + "/"|] == dir + "/";
        }
      case Directory(name, children) =>
        var sub := PathJoin(dir, name);
        JsonFilesUnderAreInside(sub, children);
        forall f | f in JsonFilesUnder(sub, children)
          ensures StartsWith(f, dir + "/")
        {
          assert StartsWith(f, sub + "/");
          assert f[..|dir + "/"|] == (sub + "/")[..|dir + "/"|];
        }
      case Special(_) =>
    }
  }

  /**
   * `findJsonFiles` on an existing directory with contents `ns`: collects the
   * `.json` files of the whole subtree and returns them sorted.
   */
  method WalkJsonFiles(dir: string, ns: seq<Node>) returns (files: seq<string>)
    ensures Sorted(files)
    ensures multiset(files) == multiset(JsonFilesUnder(dir, ns))
    decreases ns
  {
    var results: seq<string> := [];
    var i := 0;
    while i < |ns|
      invariant 0 <= i <= |ns|
      invariant multiset(results) == multiset(JsonFilesUnder(dir, ns[..i]))
    {
      ghost var upTo := ns[..i + 1];
      assert upTo[..i] == ns[..i] && upTo[i] == ns[i];
      match ns[i] {
        case Directory(name, children) =>
          var sub := WalkJsonFiles(PathJoin(dir, name), children);
          assert JsonFilesUnder(dir, upTo) == JsonFilesUnder(dir, ns[..i]) + JsonFilesUnder(PathJoin(dir, name), children);
          results := results + sub;
        case File(name) =>
          if IsJsonName(name) {
            results := results + [PathJoin(dir, name)];
          }
        case Special(_) =>
      }
      i := i + 1;
    }
    assert ns[..|ns|] == ns;
    files := Sort(results);
  }

  /** The entry of `ns` named `name`, if any. */
  function Lookup(ns: seq<Node>, name: string): (r: Option<Node>)
    ensures r.Some? ==> r.value in ns && r.value.name == name
    ensures r.None? ==> forall k :: 0 <= k < |ns| ==> ns[k].name != name
  {
    if |ns| == 0 then None
    else if ns[0].name == name then Some(ns[0])
    else Lookup(ns[1..], name)
  }

  /**
   * `findJsonFiles(dir)` where `target` is what `dir` names: nothing when it
   * does not exist; listing a path that is not a directory throws.
   */
  method FindJsonFiles(dir: string, target: Option<Node>) returns (r: Result<seq<string>, string>)
    ensures target.None? ==> r == Ok([])
    ensures r.Err? <==> target.Some? && !target.value.Directory?
    ensures r.Ok? && target.Some? ==>
      Sorted(r.value) && multiset(r.value) == multiset(JsonFilesUnder(dir, target.value.children))
  {
    match target
    case None => return Ok([]);
    case Some(Directory(_, children)) =>
      var files := WalkJsonFiles(dir, children);
      return Ok(files);
    case Some(_) => return Err("ENOTDIR: not a directory, scandir '" + dir + "'");
  }

  /** A loose root entry that is uploaded: a regular `.json` file other than the configuration files. */
  predicate IsRootJsonFile(n: Node) {
    n.File? && IsJsonName(n.name) && n.name !in IgnoredFiles
  }

  /**
   * The loose `.json` files at the top of the bundles directory, in listing
   * order (they are not sorted): exactly the names of the root entries that
   * are regular, non-ignored `.json` files.
   */
  function RootJsonFiles(root: seq<Node>): (files: seq<string>)
    ensures |files| <= |root|
    ensures forall f :: f in files ==> IsJsonName(f) && f !in IgnoredFiles
    ensures forall f :: f in files <==> exists k :: 0 <= k < |root| && IsRootJsonFile(root[k]) && root[k].name == f
  {
    if |root| == 0 then []
    else
      var rest := RootJsonFiles(root[1..]);
      match root[0]
      case File(name) => if IsJsonName(name) && name !in IgnoredFiles then [name] + rest else rest
      case _ => rest
  }

  /** The listing order is kept: the files of an earlier part of the listing come first. */
  lemma {:induction false} RootJsonFilesInListingOrder(a: seq<Node>, b: seq<Node>)
    ensures RootJsonFiles(a + b) == RootJsonFiles(a) + RootJsonFiles(b)
  {
    if |a| > 0 {
      assert (a + b)[0] == a[0] && (a + b)[1..] == a[1..] + b;
      RootJsonFilesInListingOrder(a[1..], b);
    } else {
      assert a + b == b;
    }
  }

  /** One group of files, uploaded together. */
  datatype Group = Group(name: string, files: seq<string>)

  /** The files of named group `name` are the sorted `.json` files under it, if it exists. */
  ghost predicate NamedGroupFrom(root: seq<Node>, name: string, g: Group) {
    && g.name == name
    && match Lookup(root, name)
       case Some(Directory(_, children)) =>
         Sorted(g.files) && multiset(g.files) == multiset(JsonFilesUnder(name, children))
       case _ => g.files == []
  }

  /** `groups` is what the discovery of `root` yields, in upload order. */
  ghost predicate GroupedFrom(root: seq<Node>, groups: seq<Group>) {
    && |groups| == |UploadOrder| + 1
    && (forall k :: 0 <= k < |UploadOrder| ==> NamedGroupFrom(root, UploadOrder[k], groups[k]))
    && groups[|UploadOrder|] == Group(OtherGroup, RootJsonFiles(root))
  }

  /** A named group is listed that is not a directory. */
  predicate BlockedGroup(root: seq<Node>) {
    exists k :: 0 <= k < |UploadOrder| && Lookup(root, UploadOrder[k]).Some? && !Lookup(root, UploadOrder[k]).value.Directory?
  }

  /**
   * `groupFilesByUploadOrder`: the four named groups in upload order, then
   * `_other` with the loose files at the top; it throws when a named group
   * is not a directory.
   */
  method GroupFilesByUploadOrder(root: seq<Node>) returns (r: Result<seq<Group>, string>)
    ensures r.Err? <==> BlockedGroup(root)
    ensures r.Ok? ==> GroupedFrom(root, r.value)
  {
    var grouped: seq<Group> := [];
    var i := 0;
    while i < |UploadOrder|
      invariant 0 <= i <= |UploadOrder|
      invariant |grouped| == i
      invariant forall k :: 0 <= k < i ==> NamedGroupFrom(root, UploadOrder[k], grouped[k])
      invariant forall k :: 0 <= k < i ==> Lookup(root, UploadOrder[k]).None? || Lookup(root, UploadOrder[k]).value.Directory?
    {
      var dir := UploadOrder[i];
      var files := FindJsonFiles(dir, Lookup(root, dir));
      if files.Err? {
        return Err(files.error);
      }
      grouped := grouped + [Group(dir, files.value)];
      i := i + 1;
    }
    grouped := grouped + [Group(OtherGroup, RootJsonFiles(root))];
    return Ok(grouped);
  }

  /** Every file of every group in order: the order in which the run visits them. */
  function AllFiles(groups: seq<Group>): (files: seq<string>)
    ensures forall f :: f in files <==> exists k :: 0 <= k < |groups| && f in groups[k].files
  {
    if |groups| == 0 then [] else groups[0].files + AllFiles(groups[1..])
  }

  /** A file of an earlier group comes before every file of a later group. */
  lemma {:induction false} EarlierGroupsFirst(groups: seq<Group>, g: nat, h: nat, i: nat, j: nat)
    requires g < h < |groups|
    requires i < |groups[g].files| && j < |groups[h].files|
    ensures exists p, q ::
      && 0 <= p < q < |AllFiles(groups)|
      && AllFiles(groups)[p] == groups[g].files[i]
      && AllFiles(groups)[q] == groups[h].files[j]
  {
    if g == 0 {
      var rest := AllFiles(groups[1..]);
      var q' := FileIndex(groups[1..], h - 1, j);
      assert AllFiles(groups)[i] == groups[0].files[i];
      assert AllFiles(groups)[|groups[0].files| + q'] == rest[q'];
    } else {
      EarlierGroupsFirst(groups[1..], g - 1, h - 1, i, j);
      var n := |groups[0].files|;
      var rest := AllFiles(groups[1..]);
      var p, q :| 0 <= p < q < |rest| && rest[p] == groups[g].files[i] && rest[q] == groups[h].files[j];
      assert AllFiles(groups)[n + p] == rest[p];
      assert AllFiles(groups)[n + q] == rest[q];
    }
  }

  /** Position of file `j` of group `h` in the visiting order. */
  lemma {:induction false} FileIndex(groups: seq<Group>, h: nat, j: nat) returns (q: nat)
    requires h < |groups| && j < |groups[h].files|
    ensures q < |AllFiles(groups)| && AllFiles(groups)[q] == groups[h].files[j]
  {
    if h == 0 {
      q := j;
    } else {
      var q' := FileIndex(groups[1..], h - 1, j);
      q := |groups[0].files| + q';
    }
  }
}
