/**
 * Reading DMN files and walking their import graph: `parseDMNFile`,
 * `findDMNFile`, `getAllImportedDMN`, `getModelName` and `getNamespace`.
 */
module DmnParser {
  import opened Wrappers
  import opened Text
  import opened Ordered
  import opened Paths
  import opened Dmn

  /**
   * What reading a file yields: a parsed document, XML the parser reports
   * errors for, or a failure of the read or of the parser itself (a
   * directory, an I/O error), with its message.
   */
  datatype FileEntry = Parsed(doc: Document) | Malformed(detail: string) | Unreadable(message: string)

  /** The files and directories that exist, by absolute path. */
  datatype FileSystem = FileSystem(files: map<Path, FileEntry>)

  /** The errors `parseDMNFile` throws. */
  datatype DmnError =
    | NotFound(path: Path)
    | MalformedXml(path: Path, detail: string)
    | ParseFailure(path: Path, message: string)
    | Rethrown(message: string)

  /** The `message` of the thrown error. */
  function Message(e: DmnError): (m: string)
    ensures e.NotFound? ==> StartsWith(m, "DMN file not found")
    ensures e.MalformedXml? ==> StartsWith(m, "Malformed XML")
    ensures e.ParseFailure? ==> StartsWith(m, "Failed to parse DMN file")
  {
    match e
    case NotFound(p) =>
      PrefixOfConcat("DMN file not found", "DMN file not found: ", Str(p));
      "DMN file not found: " + Str(p)
    case MalformedXml(p, d) =>
      PrefixOfConcat("Malformed XML", "Malformed XML in ", Str(p) + ": " + d);
      "Malformed XML in " + (Str(p) + ": " + d)
    case ParseFailure(p, msg) =>
      PrefixOfConcat("Failed to parse DMN file", "Failed to parse DMN file ", Str(p) + ": " + msg);
      "Failed to parse DMN file " + (Str(p) + ": " + msg)
    case Rethrown(msg) => msg
  }

  lemma PrefixOfConcat(p: string, a: string, b: string)
    requires StartsWith(a, p)
    ensures StartsWith(a + b, p)
  {
    assert (a + b)[..|p|] == a[..|p|];
  }

  /**
   * `parseDMNFile`: a missing file is "not found"; XML with parse errors is
   * "Malformed XML"; any other failure is wrapped as "Failed to parse",
   * unless its message already mentions malformed XML.
   */
  function ParseDmnFile(fs: FileSystem, p: Path): (r: Result<Document, DmnError>)
    ensures r.Ok? <==> p in fs.files && fs.files[p].Parsed?
    ensures r.Ok? ==> r.value == fs.files[p].doc
    ensures p !in fs.files ==> r == Err(NotFound(p))
    ensures p in fs.files && fs.files[p].Malformed? ==> r == Err(MalformedXml(p, fs.files[p].detail))
  {
    if p !in fs.files then Err(NotFound(p))
    else match fs.files[p]
      case Parsed(doc) => Ok(doc)
      case Malformed(detail) => Err(MalformedXml(p, detail))
      case Unreadable(msg) =>
        if Contains(msg, "Malformed XML") then Err(Rethrown(msg)) else Err(ParseFailure(p, msg))
  }

  /**
   * The message of a parse error: "DMN file not found" for a missing file;
   * for an existing one it mentions "Malformed XML" or starts with
   * "Failed to parse DMN file".
   */
  lemma ParseErrorMessage(fs: FileSystem, p: Path)
    requires ParseDmnFile(fs, p).Err?
    ensures p !in fs.files ==> StartsWith(Message(ParseDmnFile(fs, p).error), "DMN file not found")
    ensures p in fs.files ==> Contains(Message(ParseDmnFile(fs, p).error), "Malformed XML")
                              || StartsWith(Message(ParseDmnFile(fs, p).error), "Failed to parse DMN file")
  {
    if p in fs.files && fs.files[p].Malformed? {
      StartsWithContains(Message(ParseDmnFile(fs, p).error), "Malformed XML");
    }
  }

  lemma StartsWithContains(s: string, sub: string)
    requires StartsWith(s, sub)
    ensures Contains(s, sub)
  {
  }

  /** The most parent steps the search for a `resources` directory takes. */
  const MaxDepth := 10

  predicate IsResources(dir: Path) {
    EndsWith(Str(dir), "resources")
  }

  /**
   * The resources directory found from `dir` with `depth` steps already
   * taken: the nearest ancestor-or-self whose path ends in `resources`,
   * unless the root or the step limit comes first.
   */
  function ResourcesDir(dir: Path, depth: nat): (r: Path)
    requires depth <= MaxDepth
    ensures r <= dir
    ensures |dir| - |r| <= MaxDepth - depth
    ensures IsResources(r) || r == [] || |dir| - |r| == MaxDepth - depth
    ensures forall k :: |r| < k <= |dir| ==> !IsResources(dir[..k])
    decreases MaxDepth - depth
  {
    if IsResources(dir) || depth == MaxDepth then dir
    else if Dirname(dir) == dir then dir
    else
      var r := ResourcesDir(Dirname(dir), depth + 1);
      assert forall k :: |r| < k < |dir| ==> dir[..k] == Dirname(dir)[..k];
      assert dir[..|dir|] == dir;
      r
  }

  /** The `while` loop of `getAllImportedDMN` that looks for the resources directory. */
  method FindResourcesDir(baseDir: Path) returns (resourcesDir: Path)
    ensures resourcesDir == ResourcesDir(baseDir, 0)
  {
    resourcesDir := baseDir;
    var depth := 0;
    while !IsResources(resourcesDir) && depth < MaxDepth
      invariant 0 <= depth <= MaxDepth
      invariant ResourcesDir(resourcesDir, depth) == ResourcesDir(baseDir, 0)
      decreases MaxDepth - depth
    {
      var parent := Dirname(resourcesDir);
      if parent == resourcesDir {
        break;
      }
      resourcesDir := parent;
      depth := depth + 1;
    }
  }

  /** The paths `findDMNFile` tries, in order. */
  function Candidates(baseDir: Path, locationUri: string, resourcesDir: Path): seq<Path> {
    var fileName := Basename(locationUri);
    [ Resolve(baseDir, locationUri),
      JoinPath(resourcesDir, fileName),
      JoinPath(resourcesDir + ["benefits"], fileName),
      JoinPath(resourcesDir + ["checks"], fileName) ]
  }

  /** The first path of `ps` that exists. */
  function FirstExisting(fs: FileSystem, ps: seq<Path>): (r: Option<Path>)
    ensures r.None? <==> forall i :: 0 <= i < |ps| ==> ps[i] !in fs.files
    ensures r.Some? ==> exists i :: 0 <= i < |ps| && ps[i] == r.value && r.value in fs.files
                                    && forall j :: 0 <= j < i ==> ps[j] !in fs.files
  {
    if ps == [] then None
    else if ps[0] in fs.files then Some(ps[0])
    else
      var r := FirstExisting(fs, ps[1..]);
      assert forall i :: 0 < i < |ps| ==> ps[i] == ps[1..][i - 1];
      r
  }

  /** What `findDMNFile` returns. */
  function Located(fs: FileSystem, baseDir: Path, locationUri: string, resourcesDir: Path): Option<Path> {
    FirstExisting(fs, Candidates(baseDir, locationUri, resourcesDir))
  }

  /** `findDMNFile`: the standard resolution first, then the three resource locations. */
  method FindDmnFile(fs: FileSystem, baseDir: Path, locationUri: string, resourcesDir: Path)
    returns (found: Option<Path>)
    ensures found == Located(fs, baseDir, locationUri, resourcesDir)
  {
    var candidates := Candidates(baseDir, locationUri, resourcesDir);
    var standardPath := Resolve(baseDir, locationUri);
    if standardPath in fs.files {
      return Some(standardPath);
    }
    var fileName := Basename(locationUri);
    var commonPaths := [
      JoinPath(resourcesDir, fileName),
      JoinPath(resourcesDir + ["benefits"], fileName),
      JoinPath(resourcesDir + ["checks"], fileName) ];
    assert candidates[1..] == commonPaths;
    for i := 0 to |commonPaths|
      invariant FirstExisting(fs, commonPaths[i..]) == FirstExisting(fs, candidates)
    {
      assert commonPaths[i..][1..] == commonPaths[i + 1..];
      if commonPaths[i] in fs.files {
        return Some(commonPaths[i]);
      }
    }
    return None;
  }

  /**
   * The files the imports resolve to, in order, leaving out each import
   * without a `locationURI` and each one `findDMNFile` cannot find.
   */
  function ImportTargets(fs: FileSystem, baseDir: Path, resourcesDir: Path, imports: seq<Import>): (r: seq<Path>)
    ensures forall i :: 0 <= i < |r| ==> r[i] in fs.files
    ensures |r| <= |imports|
  {
    if imports == [] then []
    else
      var rest := ImportTargets(fs, baseDir, resourcesDir, imports[1..]);
      var loc := imports[0].locationUri;
      if loc == "" then rest
      else match Located(fs, baseDir, loc, resourcesDir)
        case None => rest
        case Some(p) => [p] + rest
  }

  /** The import targets of the document at `p`, resolved from its directory. */
  function Targets(fs: FileSystem, p: Path, doc: Document): seq<Path> {
    var baseDir := Dirname(p);
    ImportTargets(fs, baseDir, ResourcesDir(baseDir, 0), doc.imports)
  }

  /** A finished walk: the files in visiting order and the visited set after it. */
  datatype Walk = Walk(files: seq<Path>, visited: set<Path>)

  /** `xs` in front of the files of a walk; errors pass through. */
  function Prepend(xs: seq<Path>, r: Result<Walk, DmnError>): Result<Walk, DmnError> {
    match r
    case Ok(w) => Ok(Walk(xs + w.files, w.visited))
    case Err(e) => Err(e)
  }

  lemma SubsetCard(a: set<Path>, b: set<Path>)
    requires a <= b
    ensures |a| <= |b|
    decreases |a|
  {
    if a != {} {
      var x :| x in a;
      SubsetCard(a - {x}, b - {x});
    }
  }

  lemma SubsetMeasure(keys: set<Path>, a: set<Path>, b: set<Path>)
    requires a <= b
    ensures |keys - b| <= |keys - a|
  {
    SubsetCard(keys - b, keys - a);
  }

  lemma StrictMeasure(keys: set<Path>, a: set<Path>, b: set<Path>, x: Path)
    requires a <= b && x in keys && x in b && x !in a
    ensures |keys - b| < |keys - a|
  {
    SubsetCard(keys - b, (keys - a) - {x});
  }

  /**
   * `getAllImportedDMN(p, visited)` on the visited set `visited`: nothing
   * for a visited file; otherwise the file itself, then the walks of its
   * import targets in order, each sharing the growing visited set.
   */
  function Traverse(fs: FileSystem, p: Path, visited: set<Path>): (r: Result<Walk, DmnError>)
    ensures p in visited ==> r == Ok(Walk([], visited))
    ensures r.Ok? ==> visited <= r.value.visited
    decreases |fs.files.Keys - visited|, 0
  {
    if p in visited then Ok(Walk([], visited))
    else match ParseDmnFile(fs, p)
      case Err(e) => Err(e)
      case Ok(doc) =>
        StrictMeasure(fs.files.Keys, visited, visited + {p}, p);
        Prepend([p], TraverseAll(fs, Targets(fs, p, doc), visited + {p}))
  }

  /** The walks of `ps` one after another, threading the visited set. */
  function TraverseAll(fs: FileSystem, ps: seq<Path>, visited: set<Path>): (r: Result<Walk, DmnError>)
    ensures ps == [] ==> r == Ok(Walk([], visited))
    ensures r.Ok? ==> visited <= r.value.visited
    decreases |fs.files.Keys - visited|, 1, |ps|
  {
    if ps == [] then Ok(Walk([], visited))
    else match Traverse(fs, ps[0], visited)
      case Err(e) => Err(e)
      case Ok(w1) =>
        SubsetMeasure(fs.files.Keys, visited, w1.visited);
        Prepend(w1.files, TraverseAll(fs, ps[1..], w1.visited))
  }

  /** The list `getAllImportedDMN(rootFile)` returns, from the working directory `cwd`. */
  function AllImported(fs: FileSystem, cwd: Path, rootFile: string): Result<seq<Path>, DmnError> {
    match Traverse(fs, Resolve(cwd, rootFile), {})
    case Ok(w) => Ok(w.files)
    case Err(e) => Err(e)
  }

  lemma PrependAssoc(a: seq<Path>, b: seq<Path>, r: Result<Walk, DmnError>)
    ensures Prepend(a, Prepend(b, r)) == Prepend(a + b, r)
  {
    if r.Ok? {
      assert a + (b + r.value.files) == (a + b) + r.value.files;
    }
  }

  /** The `visited` Set shared by the recursive calls. */
  class VisitedSet {
    var paths: set<Path>

    constructor ()
      ensures paths == {}
    {
      paths := {};
    }

    method Add(p: Path)
      modifies this
      ensures paths == old(paths) + {p}
    {
      paths := paths + {p};
    }
  }

  /** One import of the loop in `getAllImportedDMN`, as it bears on the import targets. */
  lemma ImportTargetsStep(fs: FileSystem, baseDir: Path, resourcesDir: Path, imports: seq<Import>, i: nat)
    requires i < |imports|
    ensures var rest := ImportTargets(fs, baseDir, resourcesDir, imports[i + 1..]);
            var loc := imports[i].locationUri;
            ImportTargets(fs, baseDir, resourcesDir, imports[i..])
              == if loc == "" then rest
                 else match Located(fs, baseDir, loc, resourcesDir)
                   case None => rest
                   case Some(q) => [q] + rest
  {
    assert imports[i..][1..] == imports[i + 1..];
  }

  /** `getAllImportedDMN(p, visited)` for an absolute path `p`. */
  method GetAllImported(fs: FileSystem, p: Path, visited: VisitedSet) returns (r: Result<seq<Path>, DmnError>)
    modifies visited
    ensures old(visited.paths) <= visited.paths
    ensures r.Ok? ==> Traverse(fs, p, old(visited.paths)) == Ok(Walk(r.value, visited.paths))
    ensures r.Err? ==> Traverse(fs, p, old(visited.paths)) == Err(r.error)
    decreases |fs.files.Keys - visited.paths|
  {
    if p in visited.paths {
      return Ok([]);
    }
    ghost var v0 := visited.paths;
    visited.Add(p);
    var allFiles := [p];
    var parsed := ParseDmnFile(fs, p);
    if parsed.Err? {
      return Err(parsed.error);
    }
    var doc := parsed.value;
    var baseDir := Dirname(p);
    var resourcesDir := FindResourcesDir(baseDir);
    var imports := doc.imports;
    assert imports[0..] == imports;
    assert Targets(fs, p, doc) == ImportTargets(fs, baseDir, resourcesDir, imports[0..]);
    for i := 0 to |imports|
      invariant v0 + {p} <= visited.paths
      invariant Traverse(fs, p, v0) == Prepend(allFiles,
        TraverseAll(fs, ImportTargets(fs, baseDir, resourcesDir, imports[i..]), visited.paths))
    {
      ImportTargetsStep(fs, baseDir, resourcesDir, imports, i);
      var locationUri := imports[i].locationUri;
      if locationUri == "" {
        continue;
      }
      var importPath := FindDmnFile(fs, baseDir, locationUri, resourcesDir);
      if importPath.None? {
        continue;
      }
      ghost var rest := ImportTargets(fs, baseDir, resourcesDir, imports[i + 1..]);
      assert ([importPath.value] + rest)[1..] == rest;
      StrictMeasure(fs.files.Keys, v0, visited.paths, p);
      var nested := GetAllImported(fs, importPath.value, visited);
      if nested.Err? {
        return Err(nested.error);
      }
      PrependAssoc(allFiles, nested.value, TraverseAll(fs, rest, visited.paths));
      allFiles := allFiles + nested.value;
    }
    assert imports[|imports|..] == [];
    assert allFiles + [] == allFiles;
    return Ok(allFiles);
  }

  /** `getAllImportedDMN(rootFile)` with a fresh visited set, `rootFile` resolved against `cwd`. */
  method GetAllImportedDmn(fs: FileSystem, cwd: Path, rootFile: string) returns (r: Result<seq<Path>, DmnError>)
    ensures r == AllImported(fs, cwd, rootFile)
  {
    var visited := new VisitedSet();
    r := GetAllImported(fs, Resolve(cwd, rootFile), visited);
  }

  /**
   * The shape of a walk: the visited set grows by exactly the files
   * returned, no file is returned twice, and the starting file comes first.
   */
  lemma {:induction false} WalkShape(fs: FileSystem, p: Path, visited: set<Path>)
    ensures var r := Traverse(fs, p, visited);
            r.Ok? ==>
              && Elems(r.value.files) == r.value.visited - visited
              && NoDup(r.value.files)
              && (p !in visited ==> |r.value.files| > 0 && r.value.files[0] == p)
    decreases |fs.files.Keys - visited|, 0
  {
    if p !in visited && ParseDmnFile(fs, p).Ok? {
      var doc := ParseDmnFile(fs, p).value;
      StrictMeasure(fs.files.Keys, visited, visited + {p}, p);
      WalkAllShape(fs, Targets(fs, p, doc), visited + {p});
      var rest := TraverseAll(fs, Targets(fs, p, doc), visited + {p});
      if rest.Ok? {
        ElemsConcat([p], rest.value.files);
        NoDupConcat([p], rest.value.files);
      }
    }
  }

  lemma {:induction false} WalkAllShape(fs: FileSystem, ps: seq<Path>, visited: set<Path>)
    ensures var r := TraverseAll(fs, ps, visited);
            r.Ok? ==> Elems(r.value.files) == r.value.visited - visited && NoDup(r.value.files)
    decreases |fs.files.Keys - visited|, 1, |ps|
  {
    if ps != [] {
      WalkShape(fs, ps[0], visited);
      var first := Traverse(fs, ps[0], visited);
      if first.Ok? {
        var w1 := first.value;
        SubsetMeasure(fs.files.Keys, visited, w1.visited);
        WalkAllShape(fs, ps[1..], w1.visited);
        var second := TraverseAll(fs, ps[1..], w1.visited);
        if second.Ok? {
          assert TraverseAll(fs, ps, visited) == Prepend(w1.files, second);
          ElemsConcat(w1.files, second.value.files);
          ChainDiff(Elems(w1.files), Elems(second.value.files), visited, w1.visited, second.value.visited);
          NoDupConcat(w1.files, second.value.files);
        }
      }
    }
  }

  /** Two successive growths of a set: what each added, together and apart. */
  lemma ChainDiff<T>(e1: set<T>, e2: set<T>, v0: set<T>, v1: set<T>, v2: set<T>)
    requires v0 <= v1 <= v2 && e1 == v1 - v0 && e2 == v2 - v1
    ensures e1 + e2 == v2 - v0 && e1 !! e2
  {
  }

  /** The file exists and parses. */
  predicate IsDocument(fs: FileSystem, f: Path) {
    f in fs.files && fs.files[f].Parsed?
  }

  predicate AllDocuments(fs: FileSystem, files: seq<Path>) {
    forall i :: 0 <= i < |files| ==> IsDocument(fs, files[i])
  }

  lemma AllDocumentsConcat(fs: FileSystem, a: seq<Path>, b: seq<Path>)
    requires AllDocuments(fs, a) && AllDocuments(fs, b)
    ensures AllDocuments(fs, a + b)
  {
    forall i | 0 <= i < |a + b|
      ensures IsDocument(fs, (a + b)[i])
    {
      if i < |a| {
        assert (a + b)[i] == a[i];
      } else {
        assert (a + b)[i] == b[i - |a|];
      }
    }
  }

  /** Every file a walk returns exists and parses. */
  lemma {:induction false} WalkParsed(fs: FileSystem, p: Path, visited: set<Path>)
    ensures var r := Traverse(fs, p, visited);
            r.Ok? ==> AllDocuments(fs, r.value.files)
    decreases |fs.files.Keys - visited|, 0
  {
    if p !in visited && ParseDmnFile(fs, p).Ok? {
      var doc := ParseDmnFile(fs, p).value;
      StrictMeasure(fs.files.Keys, visited, visited + {p}, p);
      WalkAllParsed(fs, Targets(fs, p, doc), visited + {p});
      var rest := TraverseAll(fs, Targets(fs, p, doc), visited + {p});
      if rest.Ok? {
        AllDocumentsConcat(fs, [p], rest.value.files);
      }
    }
  }

  lemma {:induction false} WalkAllParsed(fs: FileSystem, ps: seq<Path>, visited: set<Path>)
    ensures var r := TraverseAll(fs, ps, visited);
            r.Ok? ==> AllDocuments(fs, r.value.files)
    decreases |fs.files.Keys - visited|, 1, |ps|
  {
    if ps != [] {
      WalkParsed(fs, ps[0], visited);
      var first := Traverse(fs, ps[0], visited);
      if first.Ok? {
        var w1 := first.value;
        SubsetMeasure(fs.files.Keys, visited, w1.visited);
        WalkAllParsed(fs, ps[1..], w1.visited);
        var second := TraverseAll(fs, ps[1..], w1.visited);
        if second.Ok? {
          AllDocumentsConcat(fs, w1.files, second.value.files);
        }
      }
    }
  }

  /** Every error of a walk is the error `parseDMNFile` raises for some file, passed on unchanged. */
  lemma {:induction false} WalkErrorOrigin(fs: FileSystem, p: Path, visited: set<Path>)
    ensures var r := Traverse(fs, p, visited);
            r.Err? ==> exists q :: ParseDmnFile(fs, q) == Err(r.error)
    decreases |fs.files.Keys - visited|, 0
  {
    if p !in visited && ParseDmnFile(fs, p).Ok? {
      var doc := ParseDmnFile(fs, p).value;
      StrictMeasure(fs.files.Keys, visited, visited + {p}, p);
      WalkAllErrorOrigin(fs, Targets(fs, p, doc), visited + {p});
    }
  }

  lemma {:induction false} WalkAllErrorOrigin(fs: FileSystem, ps: seq<Path>, visited: set<Path>)
    ensures var r := TraverseAll(fs, ps, visited);
            r.Err? ==> exists q :: ParseDmnFile(fs, q) == Err(r.error)
    decreases |fs.files.Keys - visited|, 1, |ps|
  {
    if ps != [] {
      WalkErrorOrigin(fs, ps[0], visited);
      var first := Traverse(fs, ps[0], visited);
      if first.Ok? {
        SubsetMeasure(fs.files.Keys, visited, first.value.visited);
        WalkAllErrorOrigin(fs, ps[1..], first.value.visited);
      }
    }
  }

  /**
   * What `getAllImportedDMN` throws: "DMN file not found" for a missing
   * root, "Malformed XML" for a malformed one, and for any file reached a
   * message that either mentions malformed XML or starts with "Failed to
   * parse DMN file", or says the file was not found.
   */
  lemma AllImportedErrors(fs: FileSystem, cwd: Path, rootFile: string)
    ensures var root := Resolve(cwd, rootFile);
            && (root !in fs.files ==> AllImported(fs, cwd, rootFile) == Err(NotFound(root)))
            && (root in fs.files && fs.files[root].Malformed? ==>
                  AllImported(fs, cwd, rootFile) == Err(MalformedXml(root, fs.files[root].detail)))
    ensures var r := AllImported(fs, cwd, rootFile);
            r.Err? ==> || StartsWith(Message(r.error), "DMN file not found")
                       || Contains(Message(r.error), "Malformed XML")
                       || StartsWith(Message(r.error), "Failed to parse DMN file")
  {
    var root := Resolve(cwd, rootFile);
    WalkErrorOrigin(fs, root, {});
    var r := Traverse(fs, root, {});
    if r.Err? {
      var q :| ParseDmnFile(fs, q) == Err(r.error);
      ParseErrorMessage(fs, q);
    }
  }

  /**
   * With a shared visited set, walking again from a file already walked
   * returns nothing.
   */
  lemma SecondWalkEmpty(fs: FileSystem, p: Path, visited: set<Path>)
    requires Traverse(fs, p, visited).Ok?
    ensures var v := Traverse(fs, p, visited).value.visited;
            Traverse(fs, p, v) == Ok(Walk([], v))
  {
    WalkShape(fs, p, visited);
    var w := Traverse(fs, p, visited).value;
    if p !in visited {
      assert p in Elems(w.files);
    }
  }

  /**
   * An import without a `locationURI`, or one `findDMNFile` cannot find,
   * changes nothing: the walk is the same without it.
   */
  lemma SkippedImport(
    fs: FileSystem, baseDir: Path, resourcesDir: Path, imports: seq<Import>, i: nat)
    requires i < |imports|
    requires imports[i].locationUri == "" || Located(fs, baseDir, imports[i].locationUri, resourcesDir).None?
    ensures ImportTargets(fs, baseDir, resourcesDir, imports)
         == ImportTargets(fs, baseDir, resourcesDir, imports[..i] + imports[i + 1..])
  {
    var one := [imports[i]];
    assert one[1..] == [] && one[0] == imports[i];
    assert ImportTargets(fs, baseDir, resourcesDir, one) == [];
    NoTargetDropped(fs, baseDir, resourcesDir, imports, i);
  }

  /** Dropping an import that yields no target leaves the targets unchanged. */
  lemma {:induction false} NoTargetDropped(
    fs: FileSystem, baseDir: Path, resourcesDir: Path, imports: seq<Import>, i: nat)
    requires i < |imports|
    requires ImportTargets(fs, baseDir, resourcesDir, [imports[i]]) == []
    ensures ImportTargets(fs, baseDir, resourcesDir, imports)
         == ImportTargets(fs, baseDir, resourcesDir, imports[..i] + imports[i + 1..])
  {
    var without := imports[..i] + imports[i + 1..];
    if i == 0 {
      DropFirst(imports);
      SkipFirst(fs, baseDir, resourcesDir, imports);
    } else {
      var tail := imports[1..];
      DropLater(imports, i);
      NoTargetDropped(fs, baseDir, resourcesDir, tail, i - 1);
      SameFirstImport(fs, baseDir, resourcesDir, imports, without);
    }
  }

  lemma DropFirst<T>(s: seq<T>)
    requires |s| > 0
    ensures s[..0] + s[1..] == s[1..]
  {
  }

  /** Dropping a later element keeps the first and drops from the tail. */
  lemma DropLater<T>(s: seq<T>, i: nat)
    requires 0 < i < |s|
    ensures var w := s[..i] + s[i + 1..];
            && s[1..][i - 1] == s[i]
            && w != [] && w[0] == s[0]
            && w[1..] == s[1..][..i - 1] + s[1..][i..]
  {
    var w := s[..i] + s[i + 1..];
    assert w[1..] == s[1..][..i - 1] + s[1..][i..];
  }

  /** A first import that yields no target adds nothing to the targets. */
  lemma SkipFirst(fs: FileSystem, baseDir: Path, resourcesDir: Path, xs: seq<Import>)
    requires xs != [] && ImportTargets(fs, baseDir, resourcesDir, [xs[0]]) == []
    ensures ImportTargets(fs, baseDir, resourcesDir, xs) == ImportTargets(fs, baseDir, resourcesDir, xs[1..])
  {
    var one := [xs[0]];
    assert one[1..] == [] && one[0] == xs[0];
  }

  /** Two import lists with the same first import and the same targets after it have the same targets. */
  lemma SameFirstImport(fs: FileSystem, baseDir: Path, resourcesDir: Path, xs: seq<Import>, ys: seq<Import>)
    requires xs != [] && ys != [] && xs[0] == ys[0]
    requires ImportTargets(fs, baseDir, resourcesDir, xs[1..]) == ImportTargets(fs, baseDir, resourcesDir, ys[1..])
    ensures ImportTargets(fs, baseDir, resourcesDir, xs) == ImportTargets(fs, baseDir, resourcesDir, ys)
  {
  }

  /** The import targets of a file that parses, and none otherwise. */
  function ImportsOf(fs: FileSystem, f: Path): seq<Path> {
    if f in fs.files && fs.files[f].Parsed? then Targets(fs, f, fs.files[f].doc) else []
  }

  /** Every import target of every file of `files` is in `s`. */
  predicate ImportsWithin(fs: FileSystem, files: seq<Path>, s: set<Path>) {
    forall i, q :: 0 <= i < |files| && q in ImportsOf(fs, files[i]) ==> q in s
  }

  lemma ImportsWithinConcat(fs: FileSystem, a: seq<Path>, b: seq<Path>, s: set<Path>, t: set<Path>)
    requires ImportsWithin(fs, a, s) && ImportsWithin(fs, b, t) && s <= t
    ensures ImportsWithin(fs, a + b, t)
  {
    forall i, q | 0 <= i < |a + b| && q in ImportsOf(fs, (a + b)[i])
      ensures q in t
    {
      if i < |a| {
        assert (a + b)[i] == a[i];
      } else {
        assert (a + b)[i] == b[i - |a|];
      }
    }
  }

  /**
   * A walk visits every import target of the files it returns; a walk over
   * a list of targets visits each of them.
   */
  lemma {:induction false} WalkClosed(fs: FileSystem, p: Path, visited: set<Path>)
    ensures var r := Traverse(fs, p, visited);
            r.Ok? ==> p in r.value.visited && ImportsWithin(fs, r.value.files, r.value.visited)
    decreases |fs.files.Keys - visited|, 0
  {
    if p !in visited && ParseDmnFile(fs, p).Ok? {
      var doc := ParseDmnFile(fs, p).value;
      StrictMeasure(fs.files.Keys, visited, visited + {p}, p);
      WalkAllClosed(fs, Targets(fs, p, doc), visited + {p});
      var rest := TraverseAll(fs, Targets(fs, p, doc), visited + {p});
      if rest.Ok? {
        var w := rest.value;
        assert ImportsOf(fs, p) == Targets(fs, p, doc);
        assert ImportsWithin(fs, [p], w.visited);
        ImportsWithinConcat(fs, [p], w.files, w.visited, w.visited);
        assert Traverse(fs, p, visited) == Ok(Walk([p] + w.files, w.visited));
      }
    }
  }

  lemma {:induction false} WalkAllClosed(fs: FileSystem, ps: seq<Path>, visited: set<Path>)
    ensures var r := TraverseAll(fs, ps, visited);
            r.Ok? ==> (forall q :: q in ps ==> q in r.value.visited)
                      && ImportsWithin(fs, r.value.files, r.value.visited)
    decreases |fs.files.Keys - visited|, 1, |ps|
  {
    if ps != [] {
      WalkClosed(fs, ps[0], visited);
      var first := Traverse(fs, ps[0], visited);
      if first.Ok? {
        var w1 := first.value;
        SubsetMeasure(fs.files.Keys, visited, w1.visited);
        WalkAllClosed(fs, ps[1..], w1.visited);
        var second := TraverseAll(fs, ps[1..], w1.visited);
        if second.Ok? {
          var w2 := second.value;
          assert forall q :: q in ps ==> q == ps[0] || q in ps[1..];
          ImportsWithinConcat(fs, w1.files, w2.files, w1.visited, w2.visited);
          assert TraverseAll(fs, ps, visited) == Ok(Walk(w1.files + w2.files, w2.visited));
        }
      }
    }
  }

  /**
   * `getAllImportedDMN` from a fresh visited set returns the root first,
   * each file once, only files that parse, and every file reachable by
   * imports: the import targets of each returned file are themselves
   * returned.
   */
  lemma AllImportedClosed(fs: FileSystem, cwd: Path, rootFile: string)
    requires AllImported(fs, cwd, rootFile).Ok?
    ensures var files := AllImported(fs, cwd, rootFile).value;
            && |files| > 0 && files[0] == Resolve(cwd, rootFile)
            && NoDup(files)
            && AllDocuments(fs, files)
            && forall f, q :: f in files && q in ImportsOf(fs, f) ==> q in files
  {
    var root := Resolve(cwd, rootFile);
    WalkShape(fs, root, {});
    WalkParsed(fs, root, {});
    WalkClosed(fs, root, {});
    var files := AllImported(fs, cwd, rootFile).value;
    forall f, q | f in files && q in ImportsOf(fs, f)
      ensures q in files
    {
      var i :| 0 <= i < |files| && files[i] == f;
      assert q in Elems(files);
    }
  }

  /** `getModelName`: the `name` of the first `definitions` element, if there is one. */
  function GetModelName(doc: Document): (name: Option<string>)
    ensures name.None? <==> doc.definitions == []
    ensures name.Some? ==> name.value == doc.definitions[0].name
  {
    if |doc.definitions| > 0 then Some(doc.definitions[0].name) else None
  }

  /** `getNamespace`: the `namespace` of the first `definitions` element, if there is one. */
  function GetNamespace(doc: Document): (ns: Option<string>)
    ensures ns.None? <==> doc.definitions == []
    ensures ns.Some? ==> ns.value == doc.definitions[0].namespace
  {
    if |doc.definitions| > 0 then Some(doc.definitions[0].namespace) else None
  }

  /** An import naming a file next to the importing one finds that file first. */
  lemma LocatedSibling(fs: FileSystem, dir: Path, name: string, resourcesDir: Path)
    requires IsSegment(name) && dir + [name] in fs.files
    ensures Located(fs, dir, name, resourcesDir) == Some(dir + [name])
  {
    ResolveName(dir, name);
    var c := Candidates(dir, name, resourcesDir);
    assert c[0] == dir + [name];
    assert FirstExisting(fs, c) == Some(c[0]);
  }

  /** A document whose only content is one import. */
  function Importing(locationUri: string): Document {
    Document([], [Import(locationUri)], [], [])
  }

  /** Two files in `/r` that import each other. */
  function CycleFiles(): FileSystem {
    FileSystem(map[["r", "a.dmn"] := Parsed(Importing("b.dmn")), ["r", "b.dmn"] := Parsed(Importing("a.dmn"))])
  }

  lemma CycleTargets()
    ensures Targets(CycleFiles(), ["r", "a.dmn"], Importing("b.dmn")) == [["r", "b.dmn"]]
    ensures Targets(CycleFiles(), ["r", "b.dmn"], Importing("a.dmn")) == [["r", "a.dmn"]]
  {
    var fs := CycleFiles();
    assert !IsResources(["r"]) && !IsResources([]);
    assert ResourcesDir(["r"], 0) == [];
    assert ["r"] + ["b.dmn"] == ["r", "b.dmn"] && ["r"] + ["a.dmn"] == ["r", "a.dmn"];
    LocatedSibling(fs, ["r"], "b.dmn", []);
    LocatedSibling(fs, ["r"], "a.dmn", []);
  }

  /** Once both files are visited, walking the import of `b` returns nothing. */
  lemma CycleBothVisited(fs: FileSystem, a: Path, b: Path)
    requires fs == CycleFiles() && a == ["r", "a.dmn"] && b == ["r", "b.dmn"]
    ensures TraverseAll(fs, [a], {a, b}) == Ok(Walk([], {a, b}))
  {
    assert Traverse(fs, a, {a, b}) == Ok(Walk([], {a, b}));
    assert [a][1..] == [];
    var none: seq<Path> := [];
    assert none + none == none;
  }

  lemma CycleBack(fs: FileSystem, a: Path, b: Path)
    requires fs == CycleFiles() && a == ["r", "a.dmn"] && b == ["r", "b.dmn"]
    ensures Traverse(fs, b, {a}) == Ok(Walk([b], {a, b}))
  {
    CycleTargets();
    CycleBothVisited(fs, a, b);
    assert ParseDmnFile(fs, b) == Ok(Importing("a.dmn"));
    assert {a} + {b} == {a, b};
    assert a[1] != b[1];
    assert b !in {a};
    assert Traverse(fs, b, {a}) == Prepend([b], TraverseAll(fs, [a], {a, b}));
    assert [b] + [] == [b];
  }

  /** From `a`, the import of `b` walks `b` alone. */
  lemma CycleTail(fs: FileSystem, a: Path, b: Path)
    requires fs == CycleFiles() && a == ["r", "a.dmn"] && b == ["r", "b.dmn"]
    ensures TraverseAll(fs, [b], {a}) == Ok(Walk([b], {a, b}))
  {
    CycleBack(fs, a, b);
    assert [b][1..] == [];
    assert TraverseAll(fs, [b], {a}) == Prepend([b], TraverseAll(fs, [], {a, b}));
    assert [b] + [] == [b];
  }

  /**
   * Two files that import each other: the walk from the first returns both,
   * once each, and stops.
   */
  lemma CyclicImports(fs: FileSystem, a: Path, b: Path)
    requires fs == CycleFiles() && a == ["r", "a.dmn"] && b == ["r", "b.dmn"]
    ensures Traverse(fs, a, {}) == Ok(Walk([a, b], {a, b}))
  {
    CycleTargets();
    CycleTail(fs, a, b);
    assert ParseDmnFile(fs, a) == Ok(Importing("b.dmn"));
    assert {} + {a} == {a};
    assert Traverse(fs, a, {}) == Prepend([a], TraverseAll(fs, [b], {a}));
    assert [a] + [b] == [a, b];
  }
}
