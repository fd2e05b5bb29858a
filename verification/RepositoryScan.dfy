/** The bounded, read-only scan of a repository and the decision whether its index is current. */
module RepositoryScan {
  import opened Prelude

  const SKIP_DIRS: set<string> := {
    ".git", ".venv", "venv", "node_modules", "target", "dist", "build", "coverage", ".next", "vendor",
    "third_party", "generated", "__pycache__" }

  const GENERATED_DIRS: set<string> := {
    "node_modules", "vendor", "target", "dist", "build", "coverage", "third_party", "generated" }

  datatype Limits = Limits(
    maxFiles: nat, maxBytes: nat, maxManifests: nat, maxComponents: nat, maxInstructions: nat, maxDepth: nat, maxFileBytes: nat)

  // ---------- the tree ----------

  datatype ManifestKind = NotManifest | Configuration | BuildManifest

  /** What a file's name and place say about it. */
  datatype Traits = Traits(language: bool, code: bool, manifest: ManifestKind, instruction: bool)

  datatype What = Symlink | NoMetadata | NotRegular | Regular(size: nat)

  datatype FileEntry = FileEntry(name: string, what: What, traits: Traits)

  datatype Subdir = Subdir(name: string, symlink: bool, contents: Dir)

  /** A directory: its files in the order of their names, and its subdirectories in any order. */
  datatype Dir = Dir(files: seq<FileEntry>, subdirs: seq<Subdir>)

  predicate Entered(s: Subdir) {
    s.name !in SKIP_DIRS && !s.symlink
  }

  function Join(prefix: string, name: string): string {
    prefix + name
  }

  /** The lists of files that a scan makes. */
  datatype Kind = Code | Instruction | Manifest

  predicate Is(kind: Kind, e: FileEntry) {
    e.what.Regular? &&
    match kind
    case Code => e.traits.code
    case Instruction => e.traits.instruction
    case Manifest => !e.traits.manifest.NotManifest?
  }

  function PickOf(kind: Kind, e: FileEntry, prefix: string): seq<string> {
    if Is(kind, e) then [Join(prefix, e.name)] else []
  }

  function OwnFiles(kind: Kind, files: seq<FileEntry>, prefix: string): seq<string> {
    if files == [] then [] else OwnFiles(kind, files[..|files| - 1], prefix) + PickOf(kind, files[|files| - 1], prefix)
  }

  /** The reachable regular files of a kind, in the order of a top-down walk. */
  function Files(kind: Kind, d: Dir, prefix: string): seq<string>
    decreases d, |d.subdirs| + 1
  {
    OwnFiles(kind, d.files, prefix) + SubFiles(kind, d, |d.subdirs|, prefix)
  }

  function SubFiles(kind: Kind, d: Dir, n: nat, prefix: string): seq<string>
    requires n <= |d.subdirs|
    decreases d, n
  {
    if n == 0 then []
    else
      var s := d.subdirs[n - 1];
      SubFiles(kind, d, n - 1, prefix) + if Entered(s) then Files(kind, s.contents, Join(prefix, s.name) + "/") else []
  }

  // ---------- the totals ----------

  /** The counters and lists that the scan grows. */
  datatype Totals = Totals(
    files: nat,
    bytesSeen: nat,
    manifests: seq<string>,
    instructions: seq<string>,
    generated: seq<string>,
    components: set<string>,
    truncated: bool,
    sourcePaths: seq<string>)
  {
    /** `t` adds to the lists within their bounds and to nothing else. */
    predicate Notes(limits: Limits, t: Totals) {
      && (Within(limits) ==> t.Within(limits))
      && t.files == files && t.bytesSeen == bytesSeen && t.sourcePaths == sourcePaths && (truncated ==> t.truncated)
    }

    /** `t` lists the path as well, where it applies and unless a bound was met. */
    predicate Adds(kind: Kind, applies: bool, path: string, t: Totals) {
      && (forall other: Kind :: other != kind ==> t.Listed(other) == Listed(other))
      && (!t.truncated ==> t.Listed(kind) == if applies then Listed(kind) + [path] else Listed(kind))
    }

    function Listed(kind: Kind): seq<string> {
      match kind
      case Code => sourcePaths
      case Instruction => instructions
      case Manifest => manifests
    }

    function Truncate(): Totals {
      this.(truncated := true)
    }

    function NoteInstruction(limits: Limits, e: FileEntry, path: string): (t: Totals)
      ensures Notes(limits, t) && Adds(Instruction, e.traits.instruction, path, t)
    {
      if !e.traits.instruction then this
      else if |instructions| < limits.maxInstructions then this.(instructions := instructions + [path])
      else Truncate()
    }

    function NoteGenerated(e: FileEntry, path: string): (t: Totals)
      ensures t == this.(generated := t.generated)
    {
      if e.name in GENERATED_DIRS then this.(generated := generated + [path]) else this
    }

    function NoteComponent(limits: Limits, component: string): (t: Totals)
      ensures Notes(limits, t) && Adds(Code, false, "", t) && (!t.truncated ==> component in t.components)
    {
      if component in components then this
      else if |components| >= limits.maxComponents then Truncate()
      else this.(components := components + {component})
    }

    function NoteLanguage(limits: Limits, e: FileEntry, component: string): (t: Totals)
      ensures Notes(limits, t) && Adds(Code, false, "", t)
    {
      if e.traits.language then NoteComponent(limits, component) else this
    }

    function NoteSource(e: FileEntry, path: string): Totals {
      if e.traits.code then this.(sourcePaths := sourcePaths + [path]) else this
    }

    function NoteManifest(limits: Limits, e: FileEntry, path: string, component: string): (t: Totals)
      ensures Notes(limits, t) && Adds(Manifest, !e.traits.manifest.NotManifest?, path, t)
    {
      if e.traits.manifest.NotManifest? then this
      else
        var t := if |manifests| < limits.maxManifests then this.(manifests := manifests + [path]) else Truncate();
        if e.traits.manifest.BuildManifest? then t.NoteComponent(limits, component) else t
    }

    /** The size limits; the flag says that the directory's loop ends here. */
    function Weigh(limits: Limits, e: FileEntry, path: string, size: nat): (Totals, bool) {
      if size > limits.maxFileBytes then
        (if path in manifests || e.traits.language then Truncate() else this, false)
      else if bytesSeen + size > limits.maxBytes then (Truncate(), true)
      else (this.(bytesSeen := bytesSeen + size), false)
    }

    /** One more regular file, in whatever lists it belongs to. */
    function Noted(limits: Limits, e: FileEntry, path: string, component: string): Totals {
      this.(files := files + 1)
          .NoteInstruction(limits, e, path).NoteGenerated(e, path).NoteLanguage(limits, e, component)
          .NoteSource(e, path).NoteManifest(limits, e, path, component)
    }

    /** One file of a directory. */
    function Inspect(limits: Limits, e: FileEntry, path: string, component: string): (Totals, bool) {
      if files >= limits.maxFiles then (Truncate(), true)
      else if !e.what.Regular? then (this, false)
      else
        Noted(limits, e, path, component).Weigh(limits, e, path, e.what.size)
    }

    /** Within every configured bound; the root is a component from the start. */
    predicate Within(limits: Limits) {
      && files <= limits.maxFiles && bytesSeen <= limits.maxBytes
      && |manifests| <= limits.maxManifests && |instructions| <= limits.maxInstructions
      && |components| <= (if limits.maxComponents > 1 then limits.maxComponents else 1)
    }
  }

  const EMPTY: Totals := Totals(0, 0, [], [], [], {"."}, false, [])

  lemma WeighKeeps(t: Totals, limits: Limits, e: FileEntry, path: string, size: nat)
    requires t.Within(limits)
    ensures var (u, stop) := t.Weigh(limits, e, path, size);
            && u.Within(limits) && (stop ==> u.truncated) && (t.truncated ==> u.truncated)
            && u.sourcePaths == t.sourcePaths && forall kind: Kind :: u.Listed(kind) == t.Listed(kind)
  {
  }

  /** One file keeps the bounds.  Unless the file limit is reached a code file is taken, and unless
      some bound is met the file is in every list it belongs to. */
  lemma InspectKeeps(t: Totals, limits: Limits, e: FileEntry, prefix: string, component: string)
    requires t.Within(limits)
    ensures var (u, stop) := t.Inspect(limits, e, Join(prefix, e.name), component);
            && u.Within(limits) && (stop ==> u.truncated) && (t.truncated ==> u.truncated)
            && (!stop ==> t.files < limits.maxFiles)
            && u.sourcePaths == t.sourcePaths + (if t.files < limits.maxFiles then PickOf(Code, e, prefix) else [])
            && (!u.truncated ==> forall kind: Kind :: u.Listed(kind) == t.Listed(kind) + PickOf(kind, e, prefix))
  {
    hide Totals.Noted, Totals.Weigh, PickOf, Totals.Listed;
    PickedOrNot(t, e, prefix);
    if t.files < limits.maxFiles && e.what.Regular? {
      var path := Join(prefix, e.name);
      NotedLists(t, limits, e, prefix, component);
      WeighKeeps(t.Noted(limits, e, path, component), limits, e, path, e.what.size);
    }
  }

  lemma PickedOrNot(t: Totals, e: FileEntry, prefix: string)
    ensures forall kind: Kind :: !e.what.Regular? ==>
            PickOf(kind, e, prefix) == [] && t.Listed(kind) == t.Listed(kind) + PickOf(kind, e, prefix)
    ensures t.sourcePaths == t.sourcePaths + []
  {
  }

  lemma FirstNotes(t: Totals, limits: Limits, e: FileEntry, path: string, component: string)
    ensures var u := t.NoteInstruction(limits, e, path).NoteGenerated(e, path).NoteLanguage(limits, e, component);
            && t.Notes(limits, u) && u.manifests == t.manifests
            && (!u.truncated ==> u.instructions == if e.traits.instruction then t.instructions + [path] else t.instructions)
  {
    hide Totals.NoteInstruction, Totals.NoteLanguage, Totals.NoteGenerated;
    var a := t.NoteInstruction(limits, e, path);
    var b := a.NoteGenerated(e, path);
    var u := b.NoteLanguage(limits, e, component);
    assert a.Listed(Manifest) == t.Listed(Manifest);
    assert u.Listed(Manifest) == b.Listed(Manifest) && u.Listed(Instruction) == b.Listed(Instruction);
  }

  lemma LastNotes(t: Totals, limits: Limits, e: FileEntry, path: string, component: string)
    requires t.Within(limits)
    ensures var u := t.NoteSource(e, path).NoteManifest(limits, e, path, component);
            && u.Within(limits) && (t.truncated ==> u.truncated) && u.instructions == t.instructions
            && u.sourcePaths == (if e.traits.code then t.sourcePaths + [path] else t.sourcePaths)
            && (!u.truncated ==> u.manifests == if e.traits.manifest.NotManifest? then t.manifests else t.manifests + [path])
  {
    hide Totals.NoteManifest;
    var a := t.NoteSource(e, path);
    var u := a.NoteManifest(limits, e, path, component);
    assert u.Listed(Instruction) == a.Listed(Instruction);
  }

  lemma NotedLists(t: Totals, limits: Limits, e: FileEntry, prefix: string, component: string)
    requires t.Within(limits) && t.files < limits.maxFiles && e.what.Regular?
    ensures var u := t.Noted(limits, e, Join(prefix, e.name), component);
            && u.Within(limits) && (t.truncated ==> u.truncated)
            && u.sourcePaths == t.sourcePaths + PickOf(Code, e, prefix)
            && (!u.truncated ==> forall kind: Kind :: u.Listed(kind) == t.Listed(kind) + PickOf(kind, e, prefix))
  {
    hide Totals.NoteInstruction, Totals.NoteLanguage, Totals.NoteManifest, Totals.NoteGenerated, Totals.NoteSource;
    var path := Join(prefix, e.name);
    var counted := t.(files := t.files + 1);
    FirstNotes(counted, limits, e, path, component);
    var b := counted.NoteInstruction(limits, e, path).NoteGenerated(e, path).NoteLanguage(limits, e, component);
    LastNotes(b, limits, e, path, component);
  }

  // ---------- the walk ----------

  /** A directory that the walk has yet to visit. */
  datatype Pending = Pending(dir: Dir, prefix: string, depth: nat, component: string)

  function Below(p: Pending, s: Subdir): Pending {
    Pending(s.contents, Join(p.prefix, s.name) + "/", p.depth + 1, if p.depth == 0 then s.name else p.component)
  }

  /** The first n subdirectories, without those that are not entered. */
  function Kept(p: Pending, n: nat): seq<Pending>
    requires n <= |p.dir.subdirs|
  {
    if n == 0 then []
    else
      var s := p.dir.subdirs[n - 1];
      Kept(p, n - 1) + if Entered(s) then [Below(p, s)] else []
  }

  function PendingFiles(kind: Kind, stack: seq<Pending>): seq<string> {
    if stack == [] then [] else Files(kind, stack[0].dir, stack[0].prefix) + PendingFiles(kind, stack[1..])
  }

  function Weight(d: Dir, n: nat): nat
    requires n <= |d.subdirs|
    decreases d, n
  {
    if n == 0 then 1 else Weight(d, n - 1) + Weight(d.subdirs[n - 1].contents, |d.subdirs[n - 1].contents.subdirs|)
  }

  function PendingWeight(stack: seq<Pending>): nat {
    if stack == [] then 0 else Weight(stack[0].dir, |stack[0].dir.subdirs|) + PendingWeight(stack[1..])
  }

  lemma {:induction false} PendingAppend(kind: Kind, a: seq<Pending>, b: seq<Pending>)
    ensures PendingFiles(kind, a + b) == PendingFiles(kind, a) + PendingFiles(kind, b)
    ensures PendingWeight(a + b) == PendingWeight(a) + PendingWeight(b)
  {
    hide Files, Weight;
    if a == [] {
      assert a + b == b;
    } else {
      var rest := a[1..];
      PendingAppend(kind, rest, b);
      assert (a + b)[0] == a[0] && (a + b)[1..] == rest + b;
      Associates(Files(kind, a[0].dir, a[0].prefix), PendingFiles(kind, rest), PendingFiles(kind, b));
    }
  }

  lemma Associates(a: seq<string>, b: seq<string>, c: seq<string>)
    ensures (a + b) + c == a + (b + c)
  {
  }

  lemma PrefixAfter(a: seq<string>, b: seq<string>, c: seq<string>)
    requires b <= c
    ensures a + b <= a + c
  {
  }

  lemma {:induction false} KeptCovers(kind: Kind, p: Pending, n: nat)
    requires n <= |p.dir.subdirs|
    ensures PendingFiles(kind, Kept(p, n)) == SubFiles(kind, p.dir, n, p.prefix)
    ensures PendingWeight(Kept(p, n)) < Weight(p.dir, n)
  {
    if n > 0 {
      KeptCovers(kind, p, n - 1);
      var s := p.dir.subdirs[n - 1];
      if Entered(s) {
        PendingAppend(kind, Kept(p, n - 1), [Below(p, s)]);
        OnePending(kind, Below(p, s));
      } else {
        assert Kept(p, n) == Kept(p, n - 1);
      }
    }
  }

  lemma OnePending(kind: Kind, p: Pending)
    ensures PendingFiles(kind, [p]) == Files(kind, p.dir, p.prefix)
    ensures PendingWeight([p]) == Weight(p.dir, |p.dir.subdirs|)
  {
    hide Files, Weight;
    assert [p][1..] == [];
  }

  /** Among the first n subdirectories, the skipped ones that hold generated files. */
  function SkippedGenerated(p: Pending, n: nat): seq<string>
    requires n <= |p.dir.subdirs|
  {
    if n == 0 then []
    else
      var name := p.dir.subdirs[n - 1].name;
      SkippedGenerated(p, n - 1) + if name in SKIP_DIRS && name in GENERATED_DIRS then [Join(p.prefix, name)] else []
  }

  lemma {:induction false} MoreSkipped(p: Pending, n: nat)
    requires n <= |p.dir.subdirs|
    ensures SkippedGenerated(p, n) <= SkippedGenerated(p, |p.dir.subdirs|)
    decreases |p.dir.subdirs| - n
  {
    if n < |p.dir.subdirs| {
      MoreSkipped(p, n + 1);
    }
  }

  // ---------- what the walk meets, and whether there is room for it ----------

  /** What the walk meets on its way: a skipped directory with generated files, a directory, a file. */
  datatype Met = Skipping(path: string) | Entering(depth: nat) | Meeting(entry: FileEntry, path: string, component: string)

  function MetSkipped(p: Pending, n: nat): seq<Met>
    requires n <= |p.dir.subdirs|
  {
    if n == 0 then []
    else
      var name := p.dir.subdirs[n - 1].name;
      MetSkipped(p, n - 1) + if name in SKIP_DIRS && name in GENERATED_DIRS then [Skipping(Join(p.prefix, name))] else []
  }

  function MetFiles(p: Pending, n: nat): (m: seq<Met>)
    requires n <= |p.dir.files|
  {
    if n == 0 then []
    else
      var e := p.dir.files[n - 1];
      MetFiles(p, n - 1) + [Meeting(e, Join(p.prefix, e.name), p.component)]
  }

  /** In one directory, */
  function MetIn(p: Pending): seq<Met> {
    MetSkipped(p, |p.dir.subdirs|) + [Entering(p.depth)] + MetFiles(p, |p.dir.files|)
  }

  /** in it and everything below, from the top down, */
  function MetBelow(p: Pending): seq<Met>
    decreases p.dir, |p.dir.subdirs| + 1
  {
    MetIn(p) + MetInSubdirs(p, |p.dir.subdirs|)
  }

  function MetInSubdirs(p: Pending, n: nat): seq<Met>
    requires n <= |p.dir.subdirs|
    decreases p.dir, n
  {
    if n == 0 then []
    else
      var s := p.dir.subdirs[n - 1];
      MetInSubdirs(p, n - 1) + if Entered(s) then MetBelow(Below(p, s)) else []
  }

  /** and in all directories that are still pending. */
  function MetPending(stack: seq<Pending>): seq<Met> {
    if stack == [] then [] else MetBelow(stack[0]) + MetPending(stack[1..])
  }

  predicate NeedsComponent(e: FileEntry) {
    e.traits.language || e.traits.manifest.BuildManifest?
  }

  /** The totals with one more, without regard to any bound but the size up to which a file is read. */
  function Counted(limits: Limits, t: Totals, x: Met): Totals {
    match x
    case Entering(_) => t
    case Skipping(path) => t.(generated := t.generated + [path])
    case Meeting(e, path, component) =>
      if !e.what.Regular? then t
      else
        t.(files := t.files + 1,
           bytesSeen := t.bytesSeen + (if e.what.size <= limits.maxFileBytes then e.what.size else 0),
           instructions := if e.traits.instruction then t.instructions + [path] else t.instructions,
           generated := if e.name in GENERATED_DIRS then t.generated + [path] else t.generated,
           components := if NeedsComponent(e) then t.components + {component} else t.components,
           sourcePaths := if e.traits.code then t.sourcePaths + [path] else t.sourcePaths,
           manifests := if e.traits.manifest.NotManifest? then t.manifests else t.manifests + [path])
  }

  /** There is room for one more: a directory above the greatest depth; another entry in the lists it belongs to, among
      the components and in the bytes; and no manifest or language file that is too large to be read. */
  predicate HasRoom(limits: Limits, t: Totals, x: Met) {
    match x
    case Entering(depth) => depth < limits.maxDepth
    case Skipping(_) => |t.generated| < limits.maxManifests
    case Meeting(e, path, component) =>
      && t.files < limits.maxFiles
      && (e.what.Regular? ==>
            && (e.traits.instruction ==> |t.instructions| < limits.maxInstructions)
            && (!e.traits.manifest.NotManifest? ==> |t.manifests| < limits.maxManifests)
            && (NeedsComponent(e) ==> component in t.components || |t.components| < limits.maxComponents)
            && (if e.what.size <= limits.maxFileBytes then t.bytesSeen + e.what.size <= limits.maxBytes
                else !e.traits.language && e.traits.manifest.NotManifest? && path !in t.manifests))
  }

  function CountedAll(limits: Limits, met: seq<Met>): Totals {
    if met == [] then EMPTY else Counted(limits, CountedAll(limits, met[..|met| - 1]), met[|met| - 1])
  }

  /** No bound is met on the way. */
  predicate Fits(limits: Limits, met: seq<Met>) {
    met == [] || (Fits(limits, met[..|met| - 1]) && HasRoom(limits, CountedAll(limits, met[..|met| - 1]), met[|met| - 1]))
  }

  /** What the scan holds after so much: everything as long as there was room, and otherwise it is truncated. */
  predicate Tracks(limits: Limits, met: seq<Met>, t: Totals) {
    if Fits(limits, met) then t == CountedAll(limits, met) && !t.truncated else t.truncated
  }

  lemma OneMore(limits: Limits, met: seq<Met>, x: Met)
    ensures CountedAll(limits, met + [x]) == Counted(limits, CountedAll(limits, met), x)
    ensures Fits(limits, met + [x]) <==> Fits(limits, met) && HasRoom(limits, CountedAll(limits, met), x)
  {
    assert (met + [x])[..|met|] == met;
  }

  lemma {:induction false} FitsPrefix(limits: Limits, met: seq<Met>, more: seq<Met>)
    requires Fits(limits, met + more)
    ensures Fits(limits, met)
  {
    if more == [] {
      assert met + more == met;
    } else {
      var n := |more| - 1;
      assert met + more == (met + more[..n]) + [more[n]];
      OneMore(limits, met + more[..n], more[n]);
      FitsPrefix(limits, met, more[..n]);
    }
  }

  lemma {:induction false} NeverTruncated(limits: Limits, met: seq<Met>)
    ensures !CountedAll(limits, met).truncated
  {
    if met != [] {
      NeverTruncated(limits, met[..|met| - 1]);
    }
  }

  /** One file, seen by the scan. */
  lemma InspectTracks(limits: Limits, met: seq<Met>, t: Totals, e: FileEntry, path: string, component: string)
    requires Tracks(limits, met, t)
    ensures var (u, stop) := t.Inspect(limits, e, path, component);
            Tracks(limits, met + [Meeting(e, path, component)], u)
  {
    OneMore(limits, met, Meeting(e, path, component));
    if Fits(limits, met) {
      InspectCounts(limits, t, e, path, component);
    } else {
      StaysTruncated(limits, t, e, path, component);
    }
  }

  lemma StaysTruncated(limits: Limits, t: Totals, e: FileEntry, path: string, component: string)
    requires t.truncated
    ensures t.Inspect(limits, e, path, component).0.truncated
  {
  }

  predicate HasComponent(limits: Limits, t: Totals, component: string) {
    component in t.components || |t.components| < limits.maxComponents
  }

  lemma FirstCounts(limits: Limits, t: Totals, e: FileEntry, path: string, component: string)
    requires !t.truncated
    ensures var u := t.NoteInstruction(limits, e, path).NoteGenerated(e, path).NoteLanguage(limits, e, component);
            if (e.traits.instruction ==> |t.instructions| < limits.maxInstructions)
               && (e.traits.language ==> HasComponent(limits, t, component)) then
              u == t.(instructions := if e.traits.instruction then t.instructions + [path] else t.instructions,
                      generated := if e.name in GENERATED_DIRS then t.generated + [path] else t.generated,
                      components := if e.traits.language then t.components + {component} else t.components)
            else u.truncated
  {
  }

  lemma LastCounts(limits: Limits, t: Totals, e: FileEntry, path: string, component: string)
    ensures var u := t.NoteSource(e, path).NoteManifest(limits, e, path, component);
            if t.truncated then u.truncated
            else if (!e.traits.manifest.NotManifest? ==> |t.manifests| < limits.maxManifests)
                    && (e.traits.manifest.BuildManifest? ==> HasComponent(limits, t, component)) then
              u == t.(sourcePaths := if e.traits.code then t.sourcePaths + [path] else t.sourcePaths,
                      manifests := if e.traits.manifest.NotManifest? then t.manifests else t.manifests + [path],
                      components := if e.traits.manifest.BuildManifest? then t.components + {component} else t.components)
            else u.truncated
  {
  }

  /** The file in its lists, not weighed yet. */
  lemma NotedCounts(limits: Limits, t: Totals, e: FileEntry, path: string, component: string)
    requires !t.truncated
    ensures var u := t.Noted(limits, e, path, component);
            if (e.traits.instruction ==> |t.instructions| < limits.maxInstructions)
               && (!e.traits.manifest.NotManifest? ==> |t.manifests| < limits.maxManifests)
               && (NeedsComponent(e) ==> HasComponent(limits, t, component)) then
              u == t.(files := t.files + 1,
                      instructions := if e.traits.instruction then t.instructions + [path] else t.instructions,
                      generated := if e.name in GENERATED_DIRS then t.generated + [path] else t.generated,
                      components := if NeedsComponent(e) then t.components + {component} else t.components,
                      sourcePaths := if e.traits.code then t.sourcePaths + [path] else t.sourcePaths,
                      manifests := if e.traits.manifest.NotManifest? then t.manifests else t.manifests + [path])
            else u.truncated
  {
    hide Totals.NoteInstruction, Totals.NoteLanguage, Totals.NoteManifest, Totals.NoteGenerated, Totals.NoteSource;
    var counted := t.(files := t.files + 1);
    FirstCounts(limits, counted, e, path, component);
    var b := counted.NoteInstruction(limits, e, path).NoteGenerated(e, path).NoteLanguage(limits, e, component);
    LastCounts(limits, b, e, path, component);
  }

  lemma InspectCounts(limits: Limits, t: Totals, e: FileEntry, path: string, component: string)
    requires !t.truncated
    ensures var u := t.Inspect(limits, e, path, component).0;
            if HasRoom(limits, t, Meeting(e, path, component)) then u == Counted(limits, t, Meeting(e, path, component))
            else u.truncated
  {
    hide Totals.Noted;
    if t.files < limits.maxFiles && e.what.Regular? {
      NotedCounts(limits, t, e, path, component);
      WeighCounts(limits, t.Noted(limits, e, path, component), e, path, e.what.size);
    }
  }

  lemma WeighCounts(limits: Limits, t: Totals, e: FileEntry, path: string, size: nat)
    ensures var u := t.Weigh(limits, e, path, size).0;
            if t.truncated then u.truncated
            else if size <= limits.maxFileBytes then
              if t.bytesSeen + size <= limits.maxBytes then u == t.(bytesSeen := t.bytesSeen + size) else u.truncated
            else if path in t.manifests || e.traits.language then u.truncated else u == t
  {
  }

  /** Once there was no room, there is none for the whole. */
  lemma Unfit(limits: Limits, met: seq<Met>, all: seq<Met>)
    requires met <= all && !Fits(limits, met)
    ensures !Fits(limits, all)
  {
    if Fits(limits, all) {
      assert all == met + all[|met|..];
      FitsPrefix(limits, met, all[|met|..]);
    }
  }

  lemma {:induction false} MetSkippedPrefix(p: Pending, n: nat)
    requires n <= |p.dir.subdirs|
    ensures MetSkipped(p, n) <= MetSkipped(p, |p.dir.subdirs|)
    decreases |p.dir.subdirs| - n
  {
    if n < |p.dir.subdirs| {
      MetSkippedPrefix(p, n + 1);
    }
  }

  lemma {:induction false} MetFilesPrefix(p: Pending, n: nat)
    requires n <= |p.dir.files|
    ensures MetFiles(p, n) <= MetFiles(p, |p.dir.files|)
    decreases |p.dir.files| - n
  {
    if n < |p.dir.files| {
      MetFilesPrefix(p, n + 1);
    }
  }

  /** The skipped directories up to the n-th, one of them just noted or found without room. */
  lemma SkippedTracks(limits: Limits, met: seq<Met>, p: Pending, n: nat, t: Totals)
    requires n < |p.dir.subdirs| && Tracks(limits, met + MetSkipped(p, n), t) && !t.truncated
    ensures var name := p.dir.subdirs[n].name;
            var path := Join(p.prefix, name);
            var next := met + MetSkipped(p, n + 1);
            if name !in SKIP_DIRS || name !in GENERATED_DIRS then Tracks(limits, next, t)
            else if |t.generated| < limits.maxManifests then Tracks(limits, next, t.(generated := t.generated + [path]))
            else Tracks(limits, met + MetSkipped(p, |p.dir.subdirs|), t.Truncate())
  {
    hide Fits, CountedAll;
    var name := p.dir.subdirs[n].name;
    var before, next := met + MetSkipped(p, n), met + MetSkipped(p, n + 1);
    if name in SKIP_DIRS && name in GENERATED_DIRS {
      var x := Skipping(Join(p.prefix, name));
      assert next == before + [x];
      OneMore(limits, before, x);
      if |t.generated| >= limits.maxManifests {
        MetSkippedPrefix(p, n + 1);
        Unfit(limits, next, met + MetSkipped(p, |p.dir.subdirs|));
      }
    } else {
      assert next == before;
    }
  }

  /** The skipped directories that hold generated files are all noted, or as many as there is room for. */
  method NoteSkipped(limits: Limits, p: Pending, before: Totals, ghost met: seq<Met>) returns (t: Totals)
    requires before.Within(limits) && !before.truncated && Tracks(limits, met, before)
    ensures Tracks(limits, met + MetSkipped(p, |p.dir.subdirs|), t)
    ensures t == before.(generated := t.generated, truncated := t.truncated) && t.Within(limits)
    ensures var all := before.generated + SkippedGenerated(p, |p.dir.subdirs|);
            && t.generated <= all && before.generated <= t.generated
            && t.truncated == (before.truncated || t.generated != all)
            && (t.generated != all ==> |t.generated| >= limits.maxManifests)
  {
    hide Tracks, MetSkipped;
    t := before;
    var i := 0;
    NothingSkipped(limits, met, p, before);
    while i < |p.dir.subdirs|
      invariant i <= |p.dir.subdirs| && t == before.(generated := before.generated + SkippedGenerated(p, i))
      invariant Tracks(limits, met + MetSkipped(p, i), t)
    {
      SkippedTracks(limits, met, p, i, t);
      MoreSkipped(p, i);
      MoreSkipped(p, i + 1);
      var name := p.dir.subdirs[i].name;
      if name in SKIP_DIRS && name in GENERATED_DIRS {
        if |t.generated| >= limits.maxManifests {
          t := t.Truncate();
          return;
        }
        t := t.(generated := t.generated + [Join(p.prefix, name)]);
      }
      i := i + 1;
    }
  }

  lemma NothingSkipped(limits: Limits, met: seq<Met>, p: Pending, t: Totals)
    requires Tracks(limits, met, t)
    ensures Tracks(limits, met + MetSkipped(p, 0), t)
  {
    assert met + MetSkipped(p, 0) == met;
  }

  method KeepEntered(p: Pending) returns (kept: seq<Pending>)
    ensures kept == Kept(p, |p.dir.subdirs|)
  {
    kept := [];
    var i := 0;
    while i < |p.dir.subdirs|
      invariant i <= |p.dir.subdirs| && kept == Kept(p, i)
    {
      if p.dir.subdirs[i].name !in SKIP_DIRS && !p.dir.subdirs[i].symlink {
        kept := kept + [Below(p, p.dir.subdirs[i])];
      }
      i := i + 1;
    }
  }

  lemma OwnFilesStep(kind: Kind, files: seq<FileEntry>, i: nat, prefix: string)
    requires i < |files|
    ensures OwnFiles(kind, files[..i + 1], prefix) == OwnFiles(kind, files[..i], prefix) + PickOf(kind, files[i], prefix)
  {
    assert files[..i + 1][..i] == files[..i];
  }

  lemma {:induction false} OwnFilesPrefix(kind: Kind, files: seq<FileEntry>, i: nat, prefix: string)
    requires i <= |files|
    ensures OwnFiles(kind, files[..i], prefix) <= OwnFiles(kind, files, prefix)
    decreases |files| - i
  {
    if i < |files| {
      OwnFilesPrefix(kind, files, i + 1, prefix);
      OwnFilesStep(kind, files, i, prefix);
    } else {
      assert files[..i] == files;
    }
  }

  /** The files of one directory: all that belong in a list, or its first code files if a bound is met. */
  method ScanFiles(limits: Limits, p: Pending, before: Totals, ghost met: seq<Met>) returns (t: Totals)
    requires before.Within(limits) && Tracks(limits, met, before)
    ensures Tracks(limits, met + MetFiles(p, |p.dir.files|), t)
    ensures t.Within(limits) && (before.truncated ==> t.truncated)
    ensures t.sourcePaths <= before.sourcePaths + OwnFiles(Code, p.dir.files, p.prefix)
    ensures !t.truncated ==> forall kind: Kind :: t.Listed(kind) == before.Listed(kind) + OwnFiles(kind, p.dir.files, p.prefix)
  {
    hide Totals.Inspect, Totals.Within, OwnFiles, PickOf, Tracks, MetFiles;
    t := before;
    var files := p.dir.files;
    var i := 0;
    NothingTaken(before, p.prefix, files);
    NothingMet(limits, met, p, before);
    while i < |files|
      invariant i <= |files| && t.Within(limits) && (before.truncated ==> t.truncated)
      invariant t.sourcePaths == before.sourcePaths + OwnFiles(Code, files[..i], p.prefix)
      invariant !t.truncated ==> forall kind: Kind ::
              t.Listed(kind) == before.Listed(kind) + OwnFiles(kind, files[..i], p.prefix)
      invariant Tracks(limits, met + MetFiles(p, i), t)
    {
      FileTracks(limits, met, p, i, t);
      InspectKeeps(t, limits, files[i], p.prefix, p.component);
      OneTaken(before, files, i, p.prefix);
      var (u, stop) := t.Inspect(limits, files[i], Join(p.prefix, files[i].name), p.component);
      if stop {
        return u;
      }
      t := u;
      i := i + 1;
    }
    assert files[..i] == files;
  }

  lemma NothingMet(limits: Limits, met: seq<Met>, p: Pending, t: Totals)
    requires Tracks(limits, met, t)
    ensures Tracks(limits, met + MetFiles(p, 0), t)
  {
    assert met + MetFiles(p, 0) == met;
  }

  lemma FileTracks(limits: Limits, met: seq<Met>, p: Pending, n: nat, t: Totals)
    requires n < |p.dir.files| && Tracks(limits, met + MetFiles(p, n), t)
    ensures var e := p.dir.files[n];
            var (u, stop) := t.Inspect(limits, e, Join(p.prefix, e.name), p.component);
            && Tracks(limits, met + MetFiles(p, n + 1), u)
            && (stop ==> Tracks(limits, met + MetFiles(p, |p.dir.files|), u))
  {
    hide Fits, CountedAll, Totals.Inspect;
    var e := p.dir.files[n];
    var path := Join(p.prefix, e.name);
    assert met + MetFiles(p, n + 1) == met + MetFiles(p, n) + [Meeting(e, path, p.component)];
    InspectTracks(limits, met + MetFiles(p, n), t, e, path, p.component);
    StopMeansTruncated(limits, t, e, path, p.component);
    if t.Inspect(limits, e, path, p.component).1 {
      MetFilesPrefix(p, n + 1);
      Unfit(limits, met + MetFiles(p, n + 1), met + MetFiles(p, |p.dir.files|));
    }
  }

  lemma StopMeansTruncated(limits: Limits, t: Totals, e: FileEntry, path: string, component: string)
    ensures var (u, stop) := t.Inspect(limits, e, path, component); stop ==> u.truncated
  {
  }

  lemma NothingTaken(t: Totals, prefix: string, files: seq<FileEntry>)
    ensures forall kind: Kind :: t.Listed(kind) == t.Listed(kind) + OwnFiles(kind, files[..0], prefix)
    ensures t.sourcePaths == t.sourcePaths + OwnFiles(Code, files[..0], prefix)
  {
    assert files[..0] == [];
  }

  lemma OneTaken(t: Totals, files: seq<FileEntry>, i: nat, prefix: string)
    requires i < |files|
    ensures forall kind: Kind ::
              (t.Listed(kind) + OwnFiles(kind, files[..i], prefix)) + PickOf(kind, files[i], prefix)
              == t.Listed(kind) + OwnFiles(kind, files[..i + 1], prefix)
    ensures (t.sourcePaths + OwnFiles(Code, files[..i], prefix)) + PickOf(Code, files[i], prefix)
            == t.sourcePaths + OwnFiles(Code, files[..i + 1], prefix)
    ensures (t.sourcePaths + OwnFiles(Code, files[..i], prefix)) + [] <= t.sourcePaths + OwnFiles(Code, files, prefix)
    ensures t.sourcePaths + OwnFiles(Code, files[..i + 1], prefix) <= t.sourcePaths + OwnFiles(Code, files, prefix)
  {
    hide OwnFiles, PickOf;
    forall kind: Kind
      ensures (t.Listed(kind) + OwnFiles(kind, files[..i], prefix)) + PickOf(kind, files[i], prefix)
              == t.Listed(kind) + OwnFiles(kind, files[..i + 1], prefix)
    {
      OwnFilesStep(kind, files, i, prefix);
      Associates(t.Listed(kind), OwnFiles(kind, files[..i], prefix), PickOf(kind, files[i], prefix));
    }
    assert t.Listed(Code) == t.sourcePaths;
    OwnFilesPrefix(Code, files, i, prefix);
    OwnFilesPrefix(Code, files, i + 1, prefix);
    PrefixAfter(t.sourcePaths, OwnFiles(Code, files[..i], prefix), OwnFiles(Code, files, prefix));
    PrefixAfter(t.sourcePaths, OwnFiles(Code, files[..i + 1], prefix), OwnFiles(Code, files, prefix));
  }

  /** The walk: the source paths are the reachable code files, all of them unless a bound was met and
      then the first of them; the other lists are complete unless a bound was met. */
  method Walk(limits: Limits, root: Dir) returns (t: Totals)
    ensures t.Within(limits)
    ensures t.sourcePaths <= Files(Code, root, "")
    ensures !t.truncated ==> forall kind: Kind :: t.Listed(kind) == Files(kind, root, "")
    ensures Tracks(limits, MetBelow(AtRoot(root)), t)
  {
    hide Files, Weight, Kept, OwnFiles, SubFiles, PendingFiles, PendingWeight, Totals.Within, Tracks, MetBelow, MetPending,
      MetSkipped, MetFiles, MetIn;
    t := EMPTY;
    ghost var met: seq<Met> := [];
    EmptyWithin(limits);
    var stack := [Pending(root, "", 0, ".")];
    StartWalk(root);
    StartMeeting(limits, root);
    while stack != []
      invariant t.Within(limits) && !t.truncated
      invariant Tracks(limits, met, t) && met + MetPending(stack) == MetBelow(AtRoot(root))
      invariant forall kind: Kind :: t.Listed(kind) + PendingFiles(kind, stack) == Files(kind, root, "")
      decreases PendingWeight(stack)
    {
      var current, rest := stack[0], stack[1..];
      assert stack == [current] + rest;
      ghost var seen := t;
      VisitMet(current, rest);
      MetParts(met, current, MetPending(Kept(current, |current.dir.subdirs|) + rest));
      t := NoteSkipped(limits, current, t, met);
      met := met + MetSkipped(current, |current.dir.subdirs|);
      DepthTracks(limits, met, t, current.depth);
      met := met + [Entering(current.depth)];
      var kept := KeepEntered(current);
      VisitAll(current, rest, seen);
      if current.depth >= limits.maxDepth {
        kept := [];
        TruncationKeeps(limits, t);
        t := t.Truncate();
      }
      t := ScanFiles(limits, current, t, met);
      met := met + MetFiles(current, |current.dir.files|);
      if t.truncated {
        TruncatedForGood(limits, met, t, MetBelow(AtRoot(root)));
        assert seen.Listed(Code) == seen.sourcePaths;
        StopsShort(t.sourcePaths, seen.sourcePaths + OwnFiles(Code, current.dir.files, current.prefix),
                   PendingFiles(Code, Kept(current, |current.dir.subdirs|) + rest));
        return;
      }
      stack := kept + rest;
    }
    NothingPending(t);
    NothingMore(met);
  }

  function AtRoot(root: Dir): Pending {
    Pending(root, "", 0, ".")
  }

  lemma StartMeeting(limits: Limits, root: Dir)
    ensures Tracks(limits, [], EMPTY) && [] + MetPending([AtRoot(root)]) == MetBelow(AtRoot(root))
  {
    hide MetBelow;
    assert [AtRoot(root)][1..] == [];
  }

  lemma NothingMore(met: seq<Met>)
    ensures met + MetPending([]) == met
  {
  }

  lemma TruncatedForGood(limits: Limits, met: seq<Met>, t: Totals, all: seq<Met>)
    requires Tracks(limits, met, t) && t.truncated && met <= all
    ensures Tracks(limits, all, t)
  {
    Unfit(limits, met, all);
  }

  lemma DepthTracks(limits: Limits, met: seq<Met>, t: Totals, depth: nat)
    requires Tracks(limits, met, t)
    ensures Tracks(limits, met + [Entering(depth)], if depth >= limits.maxDepth then t.Truncate() else t)
  {
    OneMore(limits, met, Entering(depth));
  }

  /** What is met in a directory is met in parts. */
  lemma MetParts(met: seq<Met>, p: Pending, more: seq<Met>)
    ensures ((met + MetSkipped(p, |p.dir.subdirs|)) + [Entering(p.depth)]) + MetFiles(p, |p.dir.files|) == met + MetIn(p)
    ensures met + (MetIn(p) + more) == (met + MetIn(p)) + more
  {
    hide MetSkipped, MetFiles;
  }

  lemma {:induction false} MetAppend(a: seq<Pending>, b: seq<Pending>)
    ensures MetPending(a + b) == MetPending(a) + MetPending(b)
  {
    hide MetBelow;
    if a == [] {
      assert a + b == b;
    } else {
      MetAppend(a[1..], b);
      assert (a + b)[0] == a[0] && (a + b)[1..] == a[1..] + b;
      MetAssociates(MetBelow(a[0]), MetPending(a[1..]), MetPending(b));
    }
  }

  lemma MetAssociates(a: seq<Met>, b: seq<Met>, c: seq<Met>)
    ensures (a + b) + c == a + (b + c)
  {
  }

  lemma {:induction false} KeptMet(p: Pending, n: nat)
    requires n <= |p.dir.subdirs|
    ensures MetPending(Kept(p, n)) == MetInSubdirs(p, n)
  {
    hide MetBelow;
    if n > 0 {
      KeptMet(p, n - 1);
      var s := p.dir.subdirs[n - 1];
      if Entered(s) {
        MetAppend(Kept(p, n - 1), [Below(p, s)]);
        assert [Below(p, s)][1..] == [];
      } else {
        assert Kept(p, n) == Kept(p, n - 1);
      }
    }
  }

  /** Visiting a directory meets what is in it, and leaves what is below it pending. */
  lemma VisitMet(current: Pending, rest: seq<Pending>)
    ensures MetPending([current] + rest) == MetIn(current) + MetPending(Kept(current, |current.dir.subdirs|) + rest)
  {
    hide MetIn, Kept, MetInSubdirs;
    var n := |current.dir.subdirs|;
    KeptMet(current, n);
    MetAppend(Kept(current, n), rest);
    assert ([current] + rest)[1..] == rest;
    MetAssociates(MetIn(current), MetInSubdirs(current, n), MetPending(rest));
  }

  lemma StartWalk(root: Dir)
    ensures forall kind: Kind :: EMPTY.Listed(kind) + PendingFiles(kind, [Pending(root, "", 0, ".")]) == Files(kind, root, "")
  {
    hide Files;
    forall kind: Kind
      ensures EMPTY.Listed(kind) + PendingFiles(kind, [Pending(root, "", 0, ".")]) == Files(kind, root, "")
    {
      OnePending(kind, Pending(root, "", 0, "."));
      assert EMPTY.Listed(kind) == [];
    }
  }

  lemma VisitAll(current: Pending, rest: seq<Pending>, seen: Totals)
    ensures var stack, next := [current] + rest, Kept(current, |current.dir.subdirs|) + rest;
            && PendingWeight(next) < PendingWeight(stack)
            && forall kind: Kind :: seen.Listed(kind) + PendingFiles(kind, stack)
                                    == (seen.Listed(kind) + OwnFiles(kind, current.dir.files, current.prefix))
                                        + PendingFiles(kind, next)
  {
    hide *;
    var stack, next := [current] + rest, Kept(current, |current.dir.subdirs|) + rest;
    Visit(Code, current, rest, []);
    forall kind: Kind
      ensures seen.Listed(kind) + PendingFiles(kind, stack)
              == (seen.Listed(kind) + OwnFiles(kind, current.dir.files, current.prefix)) + PendingFiles(kind, next)
    {
      Visit(kind, current, rest, seen.Listed(kind));
    }
  }

  /** Visiting a directory splits what is pending into its own files and the new stack. */
  lemma Visit(kind: Kind, current: Pending, rest: seq<Pending>, seen: seq<string>)
    ensures var stack, next := [current] + rest, Kept(current, |current.dir.subdirs|) + rest;
            && seen + PendingFiles(kind, stack) == (seen + OwnFiles(kind, current.dir.files, current.prefix))
                  + PendingFiles(kind, next)
            && PendingWeight(next) < PendingWeight(stack)
  {
    hide *;
    var n := |current.dir.subdirs|;
    var kept := Kept(current, n);
    KeptCovers(kind, current, n);
    PendingAppend(kind, [current], rest);
    PendingAppend(kind, kept, rest);
    OnePending(kind, current);
    DirectoryUnfolds(kind, current);
    var own, sub, more := OwnFiles(kind, current.dir.files, current.prefix),
        SubFiles(kind, current.dir, n, current.prefix), PendingFiles(kind, rest);
    Associates(own, sub, more);
    Associates(seen, own, sub + more);
  }

  lemma StopsShort(a: seq<string>, b: seq<string>, c: seq<string>)
    requires a <= b
    ensures a <= b + c
  {
  }

  lemma NothingPending(t: Totals)
    ensures forall kind: Kind :: t.Listed(kind) + PendingFiles(kind, []) == t.Listed(kind)
    ensures t.Listed(Code) == t.sourcePaths
  {
  }

  lemma EmptyWithin(limits: Limits)
    ensures EMPTY.Within(limits)
  {
  }

  lemma TruncationKeeps(limits: Limits, t: Totals)
    requires t.Within(limits)
    ensures t.Truncate().Within(limits)
  {
  }

  lemma DirectoryUnfolds(kind: Kind, p: Pending)
    ensures Files(kind, p.dir, p.prefix) == OwnFiles(kind, p.dir.files, p.prefix)
            + SubFiles(kind, p.dir, |p.dir.subdirs|, p.prefix)
  {
    hide OwnFiles, SubFiles;
  }

  // ---------- when there is room ----------

  function ListedIn(kind: Kind, met: seq<Met>): seq<string> {
    if met == [] then []
    else
      var x := met[|met| - 1];
      ListedIn(kind, met[..|met| - 1]) + if x.Meeting? && Is(kind, x.entry) then [x.path] else []
  }

  lemma {:induction false} ListedSplits(kind: Kind, a: seq<Met>, b: seq<Met>)
    ensures ListedIn(kind, a + b) == ListedIn(kind, a) + ListedIn(kind, b)
  {
    if b == [] {
      assert a + b == a;
    } else {
      var n := |b| - 1;
      assert (a + b)[..|a| + n] == a + b[..n];
      ListedSplits(kind, a, b[..n]);
    }
  }

  lemma {:induction false} CountedLists(kind: Kind, limits: Limits, met: seq<Met>)
    ensures CountedAll(limits, met).Listed(kind) == ListedIn(kind, met)
  {
    if met != [] {
      CountedLists(kind, limits, met[..|met| - 1]);
    }
  }

  lemma {:induction false} SkippedListsNothing(kind: Kind, p: Pending, n: nat)
    requires n <= |p.dir.subdirs|
    ensures ListedIn(kind, MetSkipped(p, n)) == []
  {
    hide ListedIn;
    if n == 0 {
      NothingListed(kind, p.prefix);
    } else {
      SkippedListsNothing(kind, p, n - 1);
      var name := p.dir.subdirs[n - 1].name;
      if name in SKIP_DIRS && name in GENERATED_DIRS {
        ListedSplits(kind, MetSkipped(p, n - 1), [Skipping(Join(p.prefix, name))]);
        SkippingListsNothing(kind, Join(p.prefix, name));
      } else {
        assert MetSkipped(p, n) == MetSkipped(p, n - 1);
      }
    }
  }

  lemma {:induction false} FilesListed(kind: Kind, p: Pending, n: nat)
    requires n <= |p.dir.files|
    ensures ListedIn(kind, MetFiles(p, n)) == OwnFiles(kind, p.dir.files[..n], p.prefix)
  {
    hide ListedIn, OwnFiles;
    if n == 0 {
      NothingListed(kind, p.prefix);
      assert p.dir.files[..0] == [];
    } else {
      FilesListed(kind, p, n - 1);
      OwnFilesStep(kind, p.dir.files, n - 1, p.prefix);
      var e := p.dir.files[n - 1];
      FileListed(kind, e, p.prefix, p.component);
      ListedSplits(kind, MetFiles(p, n - 1), [Meeting(e, Join(p.prefix, e.name), p.component)]);
    }
  }

  lemma NothingListed(kind: Kind, prefix: string)
    ensures ListedIn(kind, []) == [] && OwnFiles(kind, [], prefix) == []
  {
  }

  lemma FileListed(kind: Kind, e: FileEntry, prefix: string, component: string)
    ensures ListedIn(kind, [Meeting(e, Join(prefix, e.name), component)]) == PickOf(kind, e, prefix)
  {
  }

  lemma OwnListed(kind: Kind, p: Pending)
    ensures ListedIn(kind, MetIn(p)) == OwnFiles(kind, p.dir.files, p.prefix)
  {
    hide ListedIn, OwnFiles, MetSkipped, MetFiles;
    var n, m := |p.dir.subdirs|, |p.dir.files|;
    SkippedListsNothing(kind, p, n);
    FilesListed(kind, p, m);
    assert p.dir.files[..m] == p.dir.files;
    EnteringListsNothing(kind, p.depth);
    ListedSplits(kind, MetSkipped(p, n), [Entering(p.depth)]);
    ListedSplits(kind, MetSkipped(p, n) + [Entering(p.depth)], MetFiles(p, m));
  }

  lemma SkippingListsNothing(kind: Kind, path: string)
    ensures ListedIn(kind, [Skipping(path)]) == []
  {
  }

  lemma EnteringListsNothing(kind: Kind, depth: nat)
    ensures ListedIn(kind, [Entering(depth)]) == []
  {
  }

  /** What the walk meets is what is in the tree. */
  lemma {:induction false} MetListed(kind: Kind, p: Pending)
    ensures ListedIn(kind, MetBelow(p)) == Files(kind, p.dir, p.prefix)
    decreases p.dir, |p.dir.subdirs| + 1
  {
    hide ListedIn, MetIn, OwnFiles;
    OwnListed(kind, p);
    SubdirsListed(kind, p, |p.dir.subdirs|);
    ListedSplits(kind, MetIn(p), MetInSubdirs(p, |p.dir.subdirs|));
  }

  lemma {:induction false} SubdirsListed(kind: Kind, p: Pending, n: nat)
    requires n <= |p.dir.subdirs|
    ensures ListedIn(kind, MetInSubdirs(p, n)) == SubFiles(kind, p.dir, n, p.prefix)
    decreases p.dir, n
  {
    hide MetBelow, Files, ListedIn;
    if n == 0 {
      NothingListed(kind, p.prefix);
    } else {
      SubdirsListed(kind, p, n - 1);
      var s := p.dir.subdirs[n - 1];
      if Entered(s) {
        MetListed(kind, Below(p, s));
        ListedSplits(kind, MetInSubdirs(p, n - 1), MetBelow(Below(p, s)));
      } else {
        assert MetInSubdirs(p, n) == MetInSubdirs(p, n - 1);
      }
    }
  }

  // ---------- what is reachable ----------

  /** The directory is reached along these names, none of them skipped and none a symbolic link. */
  ghost predicate LiesAt(root: Dir, names: seq<string>, d: Dir)
    decreases |names|
  {
    if names == [] then d == root
    else exists s :: s in root.subdirs && s.name == names[0] && s.name !in SKIP_DIRS && !s.symlink
                     && LiesAt(s.contents, names[1..], d)
  }

  function PathOf(names: seq<string>): string {
    if names == [] then "" else names[0] + "/" + PathOf(names[1..])
  }

  /** Where a directory is pending that lies along these names. */
  function At(p: Pending, names: seq<string>, d: Dir): Pending {
    Pending(d, p.prefix + PathOf(names), p.depth + |names|, if p.depth == 0 && names != [] then names[0] else p.component)
  }

  /** It is met in a directory that is reached. */
  ghost predicate IsReached(p: Pending, x: Met) {
    exists names, d :: LiesAt(p.dir, names, d) && x in MetIn(At(p, names, d))
  }

  lemma StaysHere(p: Pending)
    ensures At(p, [], p.dir) == p
  {
    assert p.prefix + PathOf([]) == p.prefix;
  }

  lemma GoesBelow(p: Pending, s: Subdir, names: seq<string>, d: Dir)
    ensures At(Below(p, s), names, d) == At(p, [s.name] + names, d)
  {
    var more := [s.name] + names;
    assert more[1..] == names;
    assert p.prefix + (s.name + "/" + PathOf(names)) == ((p.prefix + s.name) + "/") + PathOf(names);
  }

  lemma {:induction false} MetIsReached(p: Pending, x: Met)
    requires x in MetBelow(p)
    ensures IsReached(p, x)
    decreases p.dir, |p.dir.subdirs| + 1
  {
    hide MetIn, MetInSubdirs, At;
    if x in MetIn(p) {
      StaysHere(p);
      assert LiesAt(p.dir, [], p.dir);
    } else {
      SubdirsAreReached(p, |p.dir.subdirs|, x);
    }
  }

  lemma {:induction false} SubdirsAreReached(p: Pending, n: nat, x: Met)
    requires n <= |p.dir.subdirs| && x in MetInSubdirs(p, n)
    ensures IsReached(p, x)
    decreases p.dir, n
  {
    hide MetIn, MetBelow, At;
    var s := p.dir.subdirs[n - 1];
    if x in MetInSubdirs(p, n - 1) {
      SubdirsAreReached(p, n - 1, x);
    } else {
      MetIsReached(Below(p, s), x);
      var names, d :| LiesAt(s.contents, names, d) && x in MetIn(At(Below(p, s), names, d));
      GoesBelow(p, s, names, d);
      assert ([s.name] + names)[1..] == names;
      assert LiesAt(p.dir, [s.name] + names, d);
    }
  }

  lemma {:induction false} SubdirIsMet(p: Pending, n: nat, i: nat, x: Met)
    requires i < n <= |p.dir.subdirs| && p.dir.subdirs[i].name !in SKIP_DIRS && !p.dir.subdirs[i].symlink
    requires x in MetBelow(Below(p, p.dir.subdirs[i]))
    ensures x in MetInSubdirs(p, n)
  {
    hide MetBelow, Below;
    if i < n - 1 {
      SubdirIsMet(p, n - 1, i, x);
    }
  }

  lemma {:induction false} ReachedIsMet(p: Pending, names: seq<string>, d: Dir, x: Met)
    requires LiesAt(p.dir, names, d) && x in MetIn(At(p, names, d))
    ensures x in MetBelow(p)
    decreases |names|
  {
    hide MetIn, At, MetInSubdirs;
    if names == [] {
      StaysHere(p);
    } else {
      var s :| s in p.dir.subdirs && s.name == names[0] && s.name !in SKIP_DIRS && !s.symlink
               && LiesAt(s.contents, names[1..], d);
      GoesBelow(p, s, names[1..], d);
      assert [s.name] + names[1..] == names;
      ReachedIsMet(Below(p, s), names[1..], d, x);
      var i :| 0 <= i < |p.dir.subdirs| && p.dir.subdirs[i] == s;
      SubdirIsMet(p, |p.dir.subdirs|, i, x);
    }
  }

  lemma {:induction false} FilesMet(p: Pending, n: nat, x: Met)
    requires n <= |p.dir.files|
    ensures x in MetFiles(p, n) <==>
              exists k :: 0 <= k < n && x == Meeting(p.dir.files[k], p.prefix + p.dir.files[k].name, p.component)
  {
    if n > 0 {
      FilesMet(p, n - 1, x);
    }
  }

  lemma {:induction false} SkippedMet(p: Pending, n: nat, x: Met)
    requires n <= |p.dir.subdirs|
    ensures x in MetSkipped(p, n) <==>
              exists k :: 0 <= k < n && p.dir.subdirs[k].name in SKIP_DIRS && p.dir.subdirs[k].name in GENERATED_DIRS
                          && x == Skipping(p.prefix + p.dir.subdirs[k].name)
  {
    if n > 0 {
      SkippedMet(p, n - 1, x);
    }
  }

  /** What is met in a directory of this depth and component under this path. */
  ghost predicate MetThere(d: Dir, path: string, depth: nat, component: string, x: Met) {
    match x
    case Entering(k) => k == depth
    case Meeting(e, at, of) => e in d.files && at == path + e.name && of == component
    case Skipping(at) =>
      exists s :: s in d.subdirs && s.name in SKIP_DIRS && s.name in GENERATED_DIRS && at == path + s.name
  }

  lemma MetInMeans(p: Pending, x: Met)
    ensures x in MetIn(p) <==> MetThere(p.dir, p.prefix, p.depth, p.component, x)
  {
    hide MetFiles, MetSkipped;
    FilesMet(p, |p.dir.files|, x);
    SkippedMet(p, |p.dir.subdirs|, x);
    if x.Skipping? && MetThere(p.dir, p.prefix, p.depth, p.component, x) {
      var s :| s in p.dir.subdirs && s.name in SKIP_DIRS && s.name in GENERATED_DIRS && x.path == p.prefix + s.name;
      var k :| 0 <= k < |p.dir.subdirs| && p.dir.subdirs[k] == s;
    }
  }

  /** The walk meets exactly what lies in the directories that are reached: as deep as there are names, and in the
      component of the first of them. */
  ghost predicate Reached(root: Dir, x: Met) {
    exists names, d ::
      LiesAt(root, names, d) && MetThere(d, PathOf(names), |names|, if names == [] then "." else names[0], x)
  }

  lemma MetIffReached(root: Dir, x: Met)
    ensures x in MetBelow(AtRoot(root)) <==> Reached(root, x)
  {
    hide MetBelow, MetIn, MetThere, LiesAt, PathOf;
    var p := AtRoot(root);
    if x in MetBelow(p) {
      MetIsReached(p, x);
      var names, d :| LiesAt(root, names, d) && x in MetIn(At(p, names, d));
      MetInMeans(At(p, names, d), x);
      assert "" + PathOf(names) == PathOf(names);
      assert MetThere(d, PathOf(names), |names|, if names == [] then "." else names[0], x);
    }
    if Reached(root, x) {
      var names, d :| LiesAt(root, names, d)
                      && MetThere(d, PathOf(names), |names|, if names == [] then "." else names[0], x);
      MetInMeans(At(p, names, d), x);
      assert "" + PathOf(names) == PathOf(names);
      ReachedIsMet(p, names, d, x);
    }
  }

  lemma {:induction false} ListedHas(kind: Kind, met: seq<Met>, path: string)
    ensures path in ListedIn(kind, met) <==>
              exists x :: x in met && x.Meeting? && Is(kind, x.entry) && x.path == path
  {
    hide Is;
    if met != [] {
      ListedHas(kind, met[..|met| - 1], path);
      assert met == met[..|met| - 1] + [met[|met| - 1]];
    }
  }

  /** A regular file of this kind and path lies in a directory that is reached. */
  ghost predicate Holds(root: Dir, kind: Kind, path: string) {
    exists names, d, e :: LiesAt(root, names, d) && e in d.files && path == PathOf(names) + e.name && IsOf(kind, e)
  }

  predicate IsOf(kind: Kind, e: FileEntry) {
    && e.what.Regular?
    && (kind == Code ==> e.traits.code) && (kind == Instruction ==> e.traits.instruction)
    && (kind == Manifest ==> e.traits.manifest != NotManifest)
  }

  lemma FilesAreReached(kind: Kind, root: Dir, path: string)
    ensures path in Files(kind, root, "") <==> Holds(root, kind, path)
  {
    hide MetBelow, Files, LiesAt, PathOf, ListedIn, Reached;
    MetListed(kind, AtRoot(root));
    var met := MetBelow(AtRoot(root));
    ListedHas(kind, met, path);
    if path in Files(kind, root, "") {
      var x :| x in met && x.Meeting? && Is(kind, x.entry) && x.path == path;
      MetIffReached(root, x);
      FileIsHeld(root, kind, x);
    }
    if Holds(root, kind, path) {
      var names, d, e :| LiesAt(root, names, d) && e in d.files && path == PathOf(names) + e.name && IsOf(kind, e);
      var x := Meeting(e, path, if names == [] then "." else names[0]);
      IsReachedAt(root, names, d, x);
      MetIffReached(root, x);
    }
  }

  lemma FileIsHeld(root: Dir, kind: Kind, x: Met)
    requires Reached(root, x) && x.Meeting? && Is(kind, x.entry)
    ensures Holds(root, kind, x.path)
  {
    hide LiesAt, PathOf;
    var names, d :| LiesAt(root, names, d)
                    && MetThere(d, PathOf(names), |names|, if names == [] then "." else names[0], x);
    assert x.entry in d.files && x.path == PathOf(names) + x.entry.name && IsOf(kind, x.entry);
  }

  lemma IsReachedAt(root: Dir, names: seq<string>, d: Dir, x: Met)
    requires LiesAt(root, names, d) && MetThere(d, PathOf(names), |names|, if names == [] then "." else names[0], x)
    ensures Reached(root, x)
  {
    hide LiesAt, PathOf, MetThere;
  }

  /** Something fits exactly if there is room for each thing when it is met. */
  lemma {:induction false} FitsIff(limits: Limits, met: seq<Met>)
    ensures Fits(limits, met) <==> forall k :: 0 <= k < |met| ==> HasRoom(limits, CountedAll(limits, met[..k]), met[k])
  {
    hide CountedAll, HasRoom;
    if met != [] {
      var n := |met| - 1;
      FitsIff(limits, met[..n]);
      assert forall k :: 0 <= k <= n ==> met[..n][..k] == met[..k];
    }
  }

  /** No more of anything than there. */
  predicate NoMoreThan(t: Totals, u: Totals) {
    && t.files <= u.files && t.bytesSeen <= u.bytesSeen && t.components <= u.components
    && t.manifests <= u.manifests && t.instructions <= u.instructions && t.generated <= u.generated
  }

  lemma {:induction false} CountsGrow(limits: Limits, met: seq<Met>, n: nat)
    requires n <= |met|
    ensures NoMoreThan(CountedAll(limits, met[..n]), CountedAll(limits, met))
    decreases |met| - n
  {
    if n == |met| {
      assert met[..n] == met;
    } else {
      CountsGrow(limits, met, n + 1);
      assert met[..n + 1] == met[..n] + [met[n]];
      OneMore(limits, met[..n], met[n]);
    }
  }

  lemma SubsetIsSmaller<T>(a: set<T>, b: set<T>)
    requires a <= b
    ensures |a| <= |b|
  {
    var c := b - a;
    assert b == a + c;
  }

  /** Room for everything in the tree: no directory too deep, no manifest or language file too large, fewer regular
      files than the limit, and no more of anything else than its limit. */
  ghost predicate HasRoomForAll(limits: Limits, root: Dir) {
    var met := MetBelow(AtRoot(root));
    var all := CountedAll(limits, met);
    && (forall k :: 0 <= k < |met| ==> match met[k]
          case Entering(depth) => depth < limits.maxDepth
          case Skipping(_) => true
          case Meeting(e, path, _) =>
            e.what.Regular? && e.what.size > limits.maxFileBytes ==> !e.traits.language && path !in Files(Manifest, root, ""))
    && all.files < limits.maxFiles && all.bytesSeen <= limits.maxBytes
    && |Files(Manifest, root, "")| <= limits.maxManifests && |Files(Instruction, root, "")| <= limits.maxInstructions
    && |all.generated| <= limits.maxManifests && |all.components| <= limits.maxComponents
  }

  /** Such a tree is scanned completely, */
  lemma RoomMeansFits(limits: Limits, root: Dir)
    requires HasRoomForAll(limits, root)
    ensures Fits(limits, MetBelow(AtRoot(root)))
  {
    hide MetBelow, CountedAll, Files;
    var met := MetBelow(AtRoot(root));
    MetListed(Manifest, AtRoot(root));
    MetListed(Instruction, AtRoot(root));
    CountedLists(Manifest, limits, met);
    CountedLists(Instruction, limits, met);
    FitsSoFar(limits, root, |met|);
    assert met[..|met|] == met;
  }

  lemma {:induction false} FitsSoFar(limits: Limits, root: Dir, n: nat)
    requires HasRoomForAll(limits, root) && n <= |MetBelow(AtRoot(root))|
    requires CountedAll(limits, MetBelow(AtRoot(root))).manifests == Files(Manifest, root, "")
    requires CountedAll(limits, MetBelow(AtRoot(root))).instructions == Files(Instruction, root, "")
    ensures Fits(limits, MetBelow(AtRoot(root))[..n])
  {
    hide MetBelow, Files;
    var met := MetBelow(AtRoot(root));
    if n > 0 {
      FitsSoFar(limits, root, n - 1);
      hide CountedAll, Fits;
      var t, all := CountedAll(limits, met[..n - 1]), CountedAll(limits, met);
      assert met[..n] == met[..n - 1] + [met[n - 1]];
      OneMore(limits, met[..n - 1], met[n - 1]);
      CountsGrow(limits, met, n - 1);
      CountsGrow(limits, met, n);
      RoomForOne(limits, t, met[n - 1], all);
    } else {
      assert met[..0] == [];
    }
  }

  lemma RoomForOne(limits: Limits, t: Totals, x: Met, all: Totals)
    requires NoMoreThan(t, all) && NoMoreThan(Counted(limits, t, x), all)
    requires all.files < limits.maxFiles && all.bytesSeen <= limits.maxBytes
    requires |all.manifests| <= limits.maxManifests && |all.instructions| <= limits.maxInstructions
    requires |all.generated| <= limits.maxManifests && |all.components| <= limits.maxComponents
    requires x.Entering? ==> x.depth < limits.maxDepth
    requires x.Meeting? && x.entry.what.Regular? && x.entry.what.size > limits.maxFileBytes ==>
               !x.entry.traits.language && x.path !in all.manifests
    ensures HasRoom(limits, t, x)
  {
    SubsetIsSmaller(Counted(limits, t, x).components, all.components);
    if x.Meeting? && NeedsComponent(x.entry) && x.component !in t.components {
      assert |t.components + {x.component}| == |t.components| + 1;
    }
    assert forall path :: path in Counted(limits, t, x).manifests ==> path in all.manifests;
    if x.Meeting? && x.entry.what.Regular? && !x.entry.traits.manifest.NotManifest? {
      assert Counted(limits, t, x).manifests[|t.manifests|] == x.path;
    }
  }

  // ---------- is the index current? ----------

  datatype IndexState = Absent | Current | Stale | Partial

  /** An index manifest: each key with its digest, if it has one. */
  datatype ManifestFile = Missing | TooLarge | Unreadable | NotAnObject | Entries(entries: map<string, Option<string>>)

  /** What the index check reads: the two manifests, where the repository lies under the managed
      directory, the bounded contents of its files, and the digest. */
  datatype IndexFiles = IndexFiles(
    own: ManifestFile,
    shared: ManifestFile,
    rootRelative: Option<string>,
    read: string -> Option<string>,
    digest: string -> string)
  {
    /** The manifest that is looked at and the prefix of this repository's keys in it. */
    function Chosen(): Option<(ManifestFile, string)> {
      if !own.Missing? then Some((own, ""))
      else if shared.Missing? || rootRelative.None? then None
      else Some((shared, if rootRelative.value == "." then "" else rootRelative.value + "/"))
    }

    predicate Matches(entries: map<string, Option<string>>, path: string) {
      path in entries && entries[path].Some? && read(path).Some? && digest(read(path).value) == entries[path].value
    }
  }

  /** What is left of the keys with a prefix when the prefix is cut off. */
  function Remainders(keys: set<string>, prefix: string): set<string> {
    set key | key in keys && prefix <= key :: key[|prefix|..]
  }

  lemma RemaindersAre(keys: set<string>, prefix: string)
    ensures forall rest :: rest in Remainders(keys, prefix) <==> prefix + rest in keys
  {
    forall rest ensures rest in Remainders(keys, prefix) <==> prefix + rest in keys {
      if rest in Remainders(keys, prefix) {
        var key :| key in keys && prefix <= key && key[|prefix|..] == rest;
        assert prefix + rest == key;
      }
      if prefix + rest in keys {
        assert prefix <= prefix + rest && (prefix + rest)[|prefix|..] == rest;
      }
    }
  }

  /** The entries of this repository, by their path inside it. */
  function Relevant(entries: map<string, Option<string>>, prefix: string): (r: map<string, Option<string>>)
    ensures forall path :: path in r <==> prefix + path in entries
    ensures forall path :: path in r ==> r[path] == entries[prefix + path]
  {
    RemaindersAre(entries.Keys, prefix);
    map rest | rest in Remainders(entries.Keys, prefix) :: entries[prefix + rest]
  }

  /** The files' digests, in turn. */
  method CheckDigests(index: IndexFiles, relevant: map<string, Option<string>>,
                      sourcePaths: seq<string>) returns (state: IndexState)
    requires relevant.Keys == set p | p in sourcePaths
    ensures state == Current <==> forall p :: p in sourcePaths ==> index.Matches(relevant, p)
    ensures state != Current ==> exists i: nat ::
              && i < |sourcePaths| && !index.Matches(relevant, sourcePaths[i])
              && (forall k: nat :: k < i ==> index.Matches(relevant, sourcePaths[k]))
              && state == if sourcePaths[i] in relevant && relevant[sourcePaths[i]].None? then Partial else Stale
  {
    var i := 0;
    while i < |sourcePaths|
      invariant i <= |sourcePaths| && forall k: nat :: k < i ==> index.Matches(relevant, sourcePaths[k])
    {
      var relative := sourcePaths[i];
      assert relative in relevant.Keys;
      var details := relevant[relative];
      if details.None? {
        return Partial;
      }
      var source := index.read(relative);
      if source.None? {
        return Stale;
      }
      if index.digest(source.value) != details.value {
        return Stale;
      }
      i := i + 1;
    }
    return Current;
  }

  /** Exactly when the index is current: the scan was complete, and the manifest chosen for this
      repository has a non-empty set of keys that is the set of source paths, each with the digest of
      the file as it is now. */
  ghost predicate IsCurrent(index: IndexFiles, sourcePaths: seq<string>, truncated: bool) {
    && !truncated && index.Chosen().Some? && index.Chosen().value.0.Entries?
    && var relevant := Relevant(index.Chosen().value.0.entries, index.Chosen().value.1);
       && relevant != map[]
       && relevant.Keys == (set p | p in sourcePaths)
       && forall p :: p in sourcePaths ==> index.Matches(relevant, p)
  }

  /** The entries under this prefix are exactly these files, at least one, each with the digest of what it holds now. */
  ghost predicate RecordsExactly(index: IndexFiles, entries: map<string, Option<string>>, prefix: string, paths: seq<string>) {
    && paths != []
    && (forall key :: key in entries && prefix <= key ==> exists p :: p in paths && key == prefix + p)
    && (forall p :: p in paths ==>
          && prefix + p in entries && entries[prefix + p].Some? && index.read(p).Some?
          && index.digest(index.read(p).value) == entries[prefix + p].value)
  }

  /** Its own manifest counts if there is one, with paths as they are; otherwise the shared one, with the paths under
      the managed directory. */
  ghost predicate KnowsExactly(index: IndexFiles, paths: seq<string>) {
    if index.own.Missing? then
      && index.shared.Entries? && index.rootRelative.Some?
      && RecordsExactly(index, index.shared.entries,
                        if index.rootRelative == Some(".") then "" else index.rootRelative.value + "/", paths)
    else index.own.Entries? && RecordsExactly(index, index.own.entries, "", paths)
  }

  lemma CurrentMeans(index: IndexFiles, paths: seq<string>, truncated: bool)
    ensures IsCurrent(index, paths, truncated) <==> !truncated && KnowsExactly(index, paths)
  {
    hide Relevant, RecordsExactly;
    if index.Chosen().Some? && index.Chosen().value.0.Entries? {
      RecordsMeans(index, index.Chosen().value.0.entries, index.Chosen().value.1, paths);
    }
  }

  lemma RecordsMeans(index: IndexFiles, entries: map<string, Option<string>>, prefix: string, paths: seq<string>)
    ensures var relevant := Relevant(entries, prefix);
            (relevant != map[] && relevant.Keys == (set p | p in paths)
             && forall p :: p in paths ==> index.Matches(relevant, p))
            <==> RecordsExactly(index, entries, prefix, paths)
  {
    hide Relevant;
    var relevant := Relevant(entries, prefix);
    if relevant.Keys == (set p | p in paths) {
      forall key | key in entries && prefix <= key
        ensures exists p :: p in paths && key == prefix + p
      {
        assert key == prefix + key[|prefix|..];
        assert key[|prefix|..] in relevant.Keys;
      }
      if relevant != map[] {
        var p :| p in relevant;
        assert p in paths;
      }
    }
    if RecordsExactly(index, entries, prefix, paths) {
      forall p ensures p in relevant <==> p in paths {
        if p in relevant {
          var q :| q in paths && prefix + p == prefix + q;
          assert (prefix + p)[|prefix|..] == p && (prefix + q)[|prefix|..] == q;
        }
      }
      assert paths[0] in relevant;
    }
  }

  /** The first file whose digest does not match has no digest recorded, or has another one or cannot be read. */
  ghost predicate FirstMismatch(index: IndexFiles, paths: seq<string>, state: IndexState)
    requires index.Chosen().Some? && index.Chosen().value.0.Entries?
  {
    var relevant := Relevant(index.Chosen().value.0.entries, index.Chosen().value.1);
    exists i: nat ::
      && i < |paths| && !index.Matches(relevant, paths[i])
      && (forall k: nat :: k < i ==> index.Matches(relevant, paths[k]))
      && state == if paths[i] in relevant && relevant[paths[i]].None? then Partial else Stale
  }

  ghost predicate NothingOfThisRepository(index: IndexFiles) {
    && index.Chosen().Some? && index.Chosen().value.0.Entries?
    && Relevant(index.Chosen().value.0.entries, index.Chosen().value.1) == map[]
  }

  /** The index knows this repository, but not exactly these files of it. */
  ghost predicate OtherFiles(index: IndexFiles, sourcePaths: seq<string>) {
    && index.Chosen().Some? && index.Chosen().value.0.Entries?
    && var relevant := Relevant(index.Chosen().value.0.entries, index.Chosen().value.1);
       relevant != map[] && relevant.Keys != set p | p in sourcePaths
  }

  method DecideIndexState(index: IndexFiles, sourcePaths: seq<string>, truncated: bool) returns (state: IndexState)
    ensures state == Current <==> IsCurrent(index, sourcePaths, truncated)
    ensures truncated ==> state == Partial
    ensures state == Absent <==> !truncated && (index.Chosen().None? || NothingOfThisRepository(index))
    ensures !truncated && index.Chosen().Some? && !index.Chosen().value.0.Entries? ==> state == Partial
    ensures !truncated && OtherFiles(index, sourcePaths) ==> state == Stale
    ensures state == Current <==> !truncated && KnowsExactly(index, sourcePaths)
    ensures !truncated && index.Chosen().Some? && index.Chosen().value.0.Entries? && !NothingOfThisRepository(index)
              && !OtherFiles(index, sourcePaths) && state != Current ==>
              FirstMismatch(index, sourcePaths, state)
  {
    hide Relevant, IndexFiles.Matches, KnowsExactly;
    CurrentMeans(index, sourcePaths, truncated);
    if truncated {
      return Partial;
    }
    var chosen := index.Chosen();
    if chosen.None? {
      return Absent;
    }
    var (manifest, prefix) := chosen.value;
    if !manifest.Entries? {
      return Partial;
    }
    var relevant := Relevant(manifest.entries, prefix);
    if relevant == map[] {
      return Absent;
    }
    if relevant.Keys != set p | p in sourcePaths {
      return Stale;
    }
    state := CheckDigests(index, relevant, sourcePaths);
  }

  // ---------- the whole assessment ----------

  /** The scan and the index check together.  Two later reads can also leave the scan partial: the
      attributes file and the package manifests.  An index is only called current for the code files
      that the repository really has. */
  method Assess(limits: Limits, root: Dir, attributesSkipped: bool, packageSkipped: bool, index: IndexFiles)
    returns (t: Totals, state: IndexState)
    ensures t.Within(limits)
    ensures !t.truncated ==> forall kind: Kind :: t.Listed(kind) == Files(kind, root, "")
    ensures state == Current <==> IsCurrent(index, t.sourcePaths, t.truncated)
    ensures state == Current ==>
              var relevant := Relevant(index.Chosen().value.0.entries, index.Chosen().value.1);
              && relevant.Keys == (set p | p in Files(Code, root, ""))
              && forall p :: p in Files(Code, root, "") ==> index.Matches(relevant, p)
    ensures state == Current <==>
              && Fits(limits, MetBelow(AtRoot(root))) && !attributesSkipped && !packageSkipped
              && KnowsExactly(index, Files(Code, root, ""))
  {
    hide Files, Relevant, IndexFiles.Matches, IndexFiles.Chosen, Fits, MetBelow, KnowsExactly, CountedAll;
    t := Walk(limits, root);
    ghost var walked := t;
    assert walked.Listed(Code) == walked.sourcePaths;
    if attributesSkipped || packageSkipped {
      TruncationKeeps(limits, t);
      t := t.Truncate();
    }
    state := DecideIndexState(index, t.sourcePaths, t.truncated);
  }
}
