/** The registry of onboarded repositories: an identifier keeps the identity it was registered with. */
module RepositoryIdentity {
  import opened Prelude
  import opened RepositoryScan

  datatype ReadinessStatus = Ready | ReadyWithWarnings | NeedsTooling | Blocked | PartialReadiness

  datatype Error =
    | InvalidId | InvalidMapping | PathRejected | GitUnavailable | IdentityMismatch
    | UnknownRepository | NotOnboarded | RevisionChanged | IndexNotReady(index: IndexState) | NotReady(status: ReadinessStatus)

  /** What a repository's fingerprint is made of. */
  datatype Identity = Identity(root: string, commonDir: string, rootCommits: seq<string>)

  datatype Profile = Profile(
    id: string, root: string, fingerprint: string, head: string, index: IndexState, status: ReadinessStatus,
    mapping: Option<string>)

  /** What a scan of a checkout finds. */
  datatype Assessment = Assessment(identity: Identity, head: string, index: IndexState, status: ReadinessStatus)

  /** The file system during one call: which paths are accepted as which root, where an old root leads
      now, and what a scan of a root finds. */
  datatype World = World(
    resolve: string -> Option<string>,
    canonical: string -> string,
    assess: string -> Result<Assessment, Error>)

  predicate Alphanumeric(c: char) {
    'A' <= c <= 'Z' || 'a' <= c <= 'z' || '0' <= c <= '9'
  }

  predicate NameOf(s: string, most: nat) {
    && 1 <= |s| <= most && Alphanumeric(s[0])
    && forall k :: 0 <= k < |s| ==> Alphanumeric(s[k]) || s[k] == '.' || s[k] == '_' || s[k] == '-'
  }

  predicate MappingOf(s: string) {
    exists k :: 0 <= k < |s| && s[k] == '/' && NameOf(s[..k], 100) && NameOf(s[k + 1..], 100)
  }

  /** A mapping is an owner and a name, each of at most a hundred characters. */
  lemma MappingMeans(s: string)
    ensures MappingOf(s) <==> exists owner, name :: s == owner + "/" + name && NameOf(owner, 100) && NameOf(name, 100)
  {
    hide NameOf;
    if MappingOf(s) {
      var k :| 0 <= k < |s| && s[k] == '/' && NameOf(s[..k], 100) && NameOf(s[k + 1..], 100);
      assert s == s[..k] + "/" + s[k + 1..];
    }
    forall owner, name | s == owner + "/" + name && NameOf(owner, 100) && NameOf(name, 100)
      ensures MappingOf(s)
    {
      Mapped(owner, name);
    }
  }

  lemma Mapped(owner: string, name: string)
    requires NameOf(owner, 100) && NameOf(name, 100)
    ensures MappingOf(owner + "/" + name)
  {
    hide NameOf;
    var s := owner + "/" + name;
    var k := |owner|;
    assert s[..k] == owner;
    assert s[k + 1..] == name;
    assert s[k] == '/' && NameOf(s[..k], 100) && NameOf(s[k + 1..], 100);
  }

  type Registry = map<string, Profile>

  /** Every profile is stored under its own identifier. */
  predicate Keyed(r: Registry) {
    forall id :: id in r ==> r[id].id == id
  }

  function Scan(r: Registry, digest: Identity -> string, id: string, path: Option<string>, mapping: Option<string>,
                w: World): Result<Profile, Error> {
    if path.None? && id !in r then Err(UnknownRepository)
    else
      var root := w.resolve(if path.Some? then path.value else r[id].root);
      if root.None? then Err(PathRejected)
      else
        match w.assess(root.value)
        case Err(error) => Err(error)
        case Ok(a) =>
          var kept := if mapping.None? && id in r then r[id].mapping else mapping;
          var candidate := Profile(id, root.value, digest(a.identity), a.head, a.index, a.status, kept);
          if id in r && r[id].fingerprint != candidate.fingerprint then Err(IdentityMismatch) else Ok(candidate)
  }

  function Register(r: Registry, digest: Identity -> string, id: string, path: string,
                    expected: Option<string>, mapping: Option<string>, w: World): Result<Profile, Error>
  {
    if !NameOf(id, 64) then Err(InvalidId)
    else if mapping.Some? && !MappingOf(mapping.value) then Err(InvalidMapping)
    else
      match w.resolve(path)
      case None => Err(PathRejected)
      case Some(root) =>
        match Scan(r, digest, id, Some(root), mapping, w)
        case Err(error) => Err(error)
        case Ok(profile) =>
          var wanted := if expected.Some? && expected.value != "" then expected.value
                        else if id in r then r[id].fingerprint else "";
          if wanted != "" && profile.fingerprint != wanted then Err(IdentityMismatch) else Ok(profile)
  }

  function CheckReadiness(r: Registry, digest: Identity -> string, id: string, w: World): Result<Profile, Error> {
    if id !in r then Err(UnknownRepository) else Scan(r, digest, id, None, None, w)
  }

  function AssertReady(r: Registry, digest: Identity -> string, id: string, repository: string,
                       commit: string, requireIndex: bool, w: World): Result<Profile, Error>
  {
    if id !in r then Err(NotOnboarded)
    else
      match w.resolve(repository)
      case None => Err(PathRejected)
      case Some(resolved) =>
        if resolved != w.canonical(r[id].root) then Err(IdentityMismatch)
        else
          match Scan(r, digest, id, Some(resolved), None, w)
          case Err(error) => Err(error)
          case Ok(current) =>
            if current.head != commit then Err(RevisionChanged)
            else if requireIndex && !current.index.Current? then Err(IndexNotReady(current.index))
            else if !current.status.Ready? && !current.status.ReadyWithWarnings? then Err(NotReady(current.status))
            else Ok(current)
  }

  /** The registry after a call: a profile is stored under the identifier asked for, an error stores nothing. */
  function Stored(r: Registry, id: string, result: Result<Profile, Error>): Registry {
    match result
    case Ok(profile) => r[id := profile]
    case Err(_) => r
  }

  /** The profile says what a scan of its root finds now. */
  predicate FreshProfile(p: Profile, digest: Identity -> string, id: string, w: World) {
    && p.id == id && w.assess(p.root).Ok?
    && var a := w.assess(p.root).value;
       p.fingerprint == digest(a.identity) && p.head == a.head && p.index == a.index && p.status == a.status
  }

  /** No identifier is dropped, and each keeps its fingerprint. */
  ghost predicate KeepsIdentities(before: Registry, after: Registry) {
    forall id :: id in before ==> id in after && after[id].fingerprint == before[id].fingerprint
  }

  /** On a scan made now, the path is the registered root, the identity is the registered one, the commit is the
      expected one, the repository is ready and, where an index is required, its index is current. */
  predicate MayMutate(r: Registry, digest: Identity -> string, id: string, repository: string, commit: string,
                      requireIndex: bool, w: World) {
    && id in r && w.resolve(repository) == Some(w.canonical(r[id].root))
    && var root := w.resolve(w.canonical(r[id].root));
       && root.Some? && w.assess(root.value).Ok?
       && var a := w.assess(root.value).value;
          && digest(a.identity) == r[id].fingerprint
          && a.head == commit && (requireIndex ==> a.index == Current)
          && (a.status == Ready || a.status == ReadyWithWarnings)
  }

  /** The identifier and the mapping are well formed, the path is accepted, the scan succeeds, and the identity found
      is the one registered before, if any, and the one expected, if any. */
  predicate MayRegister(r: Registry, digest: Identity -> string, id: string, path: string, expected: Option<string>,
                        mapping: Option<string>, w: World) {
    && NameOf(id, 64) && (mapping.Some? ==> MappingOf(mapping.value)) && w.resolve(path).Some?
    && var root := w.resolve(w.resolve(path).value);
       && root.Some? && w.assess(root.value).Ok?
       && var found := digest(w.assess(root.value).value.identity);
          && (id in r ==> found == r[id].fingerprint)
          && (expected.Some? && expected.value != "" ==> found == expected.value)
  }

  /** The registered root still leads somewhere, and the repository there is the one that was registered. */
  predicate MayRefresh(r: Registry, digest: Identity -> string, id: string, w: World) {
    && id in r
    && var root := w.resolve(r[id].root);
       root.Some? && w.assess(root.value).Ok? && digest(w.assess(root.value).value.identity) == r[id].fingerprint
  }

  /** The profile is of the checkout at this root, with the mapping given or else the one registered. */
  predicate Carries(p: Profile, r: Registry, id: string, root: Option<string>, mapping: Option<string>) {
    && root == Some(p.root)
    && (mapping.Some? ==> p.mapping == mapping)
    && (mapping.None? && id in r ==> p.mapping == r[id].mapping)
    && (mapping.None? && id !in r ==> p.mapping.None?)
  }

  /** Where an accepted path leads when it is looked up again. */
  function Twice(w: World, path: string): Option<string> {
    match w.resolve(path)
    case None => None
    case Some(root) => w.resolve(root)
  }

  /** Why a checkout is not the one wanted: its path leads nowhere, its scan fails, or it is another repository. */
  predicate Blames(r: Registry, digest: Identity -> string, id: string, root: Option<string>, w: World, error: Error) {
    if root.None? then error == PathRejected
    else if w.assess(root.value).Err? then error == w.assess(root.value).error
    else error == IdentityMismatch && id in r && digest(w.assess(root.value).value.identity) != r[id].fingerprint
  }

  /** Why a registration is refused. */
  predicate RefusesToRegister(r: Registry, digest: Identity -> string, id: string, path: string, expected: Option<string>,
                              mapping: Option<string>, w: World, error: Error) {
    if !NameOf(id, 64) then error == InvalidId
    else if mapping.Some? && !MappingOf(mapping.value) then error == InvalidMapping
    else
      var root := Twice(w, path);
      || Blames(r, digest, id, root, w, error)
      || (error == IdentityMismatch && root.Some? && w.assess(root.value).Ok?
          && expected.Some? && expected.value != "" && digest(w.assess(root.value).value.identity) != expected.value)
  }

  /** Why a mutation is not permitted. */
  predicate RefusesToMutate(r: Registry, digest: Identity -> string, id: string, repository: string, commit: string,
                            requireIndex: bool, w: World, error: Error) {
    if id !in r then error == NotOnboarded
    else if w.resolve(repository).Some? && w.resolve(repository) != Some(w.canonical(r[id].root)) then error == IdentityMismatch
    else
      var root := Twice(w, repository);
      || Blames(r, digest, id, root, w, error)
      || (root.Some? && w.assess(root.value).Ok?
          && var a := w.assess(root.value).value;
             if a.head != commit then error == RevisionChanged
             else if requireIndex && a.index != Current then error == IndexNotReady(a.index)
             else error == NotReady(a.status) && a.status !in {Ready, ReadyWithWarnings})
  }

  /** Helper: what is refused is refused for such a reason. */
  lemma RefusalsMean(r: Registry, digest: Identity -> string, id: string, path: string, text: Option<string>,
                     mapping: Option<string>, commit: string, requireIndex: bool, w: World)
    ensures var answer := Register(r, digest, id, path, text, mapping, w);
            answer.Err? ==> RefusesToRegister(r, digest, id, path, text, mapping, w, answer.error)
    ensures var answer := CheckReadiness(r, digest, id, w);
            answer.Err? ==> if id !in r then answer.error == UnknownRepository
                            else Blames(r, digest, id, w.resolve(r[id].root), w, answer.error)
    ensures var answer := AssertReady(r, digest, id, path, commit, requireIndex, w);
            answer.Err? ==> RefusesToMutate(r, digest, id, path, commit, requireIndex, w, answer.error)
  {
    hide NameOf, MappingOf;
  }

  /** Helper: the cascades of checks accept exactly then. */
  lemma AcceptsIff(r: Registry, digest: Identity -> string, id: string, path: string, expected: Option<string>,
                   mapping: Option<string>, w: World)
    ensures Register(r, digest, id, path, expected, mapping, w).Ok? <==>
              MayRegister(r, digest, id, path, expected, mapping, w)
    ensures CheckReadiness(r, digest, id, w).Ok? <==> MayRefresh(r, digest, id, w)
  {
    hide NameOf, MappingOf;
  }

  /** Helper: the cascade of checks permits exactly then. */
  lemma ReadyIff(r: Registry, digest: Identity -> string, id: string, repository: string, commit: string,
                 requireIndex: bool, w: World)
    ensures AssertReady(r, digest, id, repository, commit, requireIndex, w).Ok? <==>
              MayMutate(r, digest, id, repository, commit, requireIndex, w)
  {
  }

  /** The service: its profiles, and the registry file that is rewritten with them. */
  class OnboardingService {
    const digest: Identity -> string
    var profiles: Registry
    var saved: Registry

    ghost predicate Valid()
      reads this
    {
      saved == profiles && Keyed(profiles)
    }

    constructor (digest: Identity -> string, loaded: Registry)
      requires Keyed(loaded)
      ensures Valid() && profiles == loaded && this.digest == digest
    {
      this.digest := digest;
      profiles := loaded;
      saved := loaded;
    }

    method Save()
      modifies this`saved
      ensures saved == profiles
    {
      saved := profiles;
    }

    method ScanRepository(id: string, path: Option<string>, mapping: Option<string>,
                          w: World) returns (r: Result<Profile, Error>)
      ensures r == Scan(profiles, digest, id, path, mapping, w)
      ensures r.Ok? ==> FreshProfile(r.value, digest, id, w)
      ensures r.Ok? && id in profiles ==> r.value.fingerprint == profiles[id].fingerprint
      ensures r.Ok? ==>
                Carries(r.value, profiles, id,
                        if path.Some? then w.resolve(path.value) else w.resolve(profiles[id].root), mapping)
    {
      if path.None? && id !in profiles {
        return Err(UnknownRepository);
      }
      var persisted := if id in profiles then Some(profiles[id]) else None;
      var root := w.resolve(if path.Some? then path.value else persisted.value.root);
      if root.None? {
        return Err(PathRejected);
      }
      var kept := mapping;
      if mapping.None? && persisted.Some? {
        kept := persisted.value.mapping;
      }
      var assessed := w.assess(root.value);
      if assessed.Err? {
        return Err(assessed.error);
      }
      var a := assessed.value;
      var candidate := Profile(id, root.value, digest(a.identity), a.head, a.index, a.status, kept);
      if persisted.Some? && persisted.value.fingerprint != candidate.fingerprint {
        return Err(IdentityMismatch);
      }
      return Ok(candidate);
    }

    method RegisterRepository(id: string, path: string, expectedFingerprint: Option<string>, mapping: Option<string>,
                              w: World)
      returns (r: Result<Profile, Error>)
      requires Valid()
      modifies this
      ensures Valid()
      ensures r == Register(old(profiles), digest, id, path, expectedFingerprint, mapping, w)
      ensures r.Ok? <==> MayRegister(old(profiles), digest, id, path, expectedFingerprint, mapping, w)
      ensures r.Err? ==> RefusesToRegister(old(profiles), digest, id, path, expectedFingerprint, mapping, w, r.error)
      ensures r.Ok? ==> Carries(r.value, old(profiles), id, Twice(w, path), mapping)
      ensures profiles == Stored(old(profiles), id, r)
      ensures r.Ok? ==> FreshProfile(r.value, digest, id, w)
      ensures KeepsIdentities(old(profiles), profiles)
    {
      hide MayRegister, RefusesToRegister;
      AcceptsIff(profiles, digest, id, path, expectedFingerprint, mapping, w);
      RefusalsMean(profiles, digest, id, path, expectedFingerprint, mapping, "", false, w);
      if !NameOf(id, 64) {
        return Err(InvalidId);
      }
      if mapping.Some? && !MappingOf(mapping.value) {
        return Err(InvalidMapping);
      }
      var root := w.resolve(path);
      if root.None? {
        return Err(PathRejected);
      }
      r := ScanRepository(id, root, mapping, w);
      if r.Err? {
        return;
      }
      var expected := "";
      if expectedFingerprint.Some? && expectedFingerprint.value != "" {
        expected := expectedFingerprint.value;
      } else if id in profiles {
        expected := profiles[id].fingerprint;
      }
      if expected != "" && r.value.fingerprint != expected {
        return Err(IdentityMismatch);
      }
      profiles := profiles[id := r.value];
      Save();
    }

    method Readiness(id: string, w: World) returns (r: Result<Profile, Error>)
      requires Valid()
      modifies this
      ensures Valid()
      ensures r == CheckReadiness(old(profiles), digest, id, w)
      ensures r.Ok? <==> MayRefresh(old(profiles), digest, id, w)
      ensures r.Err? ==> if id !in old(profiles) then r.error == UnknownRepository
                         else Blames(old(profiles), digest, id, w.resolve(old(profiles)[id].root), w, r.error)
      ensures r.Ok? ==> Carries(r.value, old(profiles), id, w.resolve(old(profiles)[id].root), None)
      ensures profiles == Stored(old(profiles), id, r)
      ensures r.Ok? ==> FreshProfile(r.value, digest, id, w)
      ensures KeepsIdentities(old(profiles), profiles)
    {
      hide MayRefresh, Blames;
      AcceptsIff(profiles, digest, id, "", None, None, w);
      RefusalsMean(profiles, digest, id, "", None, None, "", false, w);
      if id !in profiles {
        return Err(UnknownRepository);
      }
      r := ScanRepository(id, None, None, w);
      if r.Ok? {
        profiles := profiles[id := r.value];
        Save();
      }
    }

    method AssertReadyForMutation(id: string, repository: string, commit: string, requireIndex: bool, w: World)
      returns (r: Result<Profile, Error>)
      requires Valid()
      modifies this
      ensures Valid()
      ensures r == AssertReady(old(profiles), digest, id, repository, commit, requireIndex, w)
      ensures r.Ok? <==> MayMutate(old(profiles), digest, id, repository, commit, requireIndex, w)
      ensures r.Err? ==> RefusesToMutate(old(profiles), digest, id, repository, commit, requireIndex, w, r.error)
      ensures r.Ok? ==> Carries(r.value, old(profiles), id, Twice(w, repository), None)
      ensures profiles == Stored(old(profiles), id, r)
      ensures r.Ok? ==> FreshProfile(r.value, digest, id, w)
      ensures KeepsIdentities(old(profiles), profiles)
    {
      hide MayMutate, RefusesToMutate;
      ReadyIff(profiles, digest, id, repository, commit, requireIndex, w);
      RefusalsMean(profiles, digest, id, repository, None, None, commit, requireIndex, w);
      if id !in profiles {
        return Err(NotOnboarded);
      }
      var persisted := profiles[id];
      var resolved := w.resolve(repository);
      if resolved.None? {
        return Err(PathRejected);
      }
      if resolved.value != w.canonical(persisted.root) {
        return Err(IdentityMismatch);
      }
      r := ScanRepository(id, resolved, None, w);
      if r.Err? {
        return;
      }
      var current := r.value;
      if current.head != commit {
        return Err(RevisionChanged);
      }
      if requireIndex && !current.index.Current? {
        return Err(IndexNotReady(current.index));
      }
      if !current.status.Ready? && !current.status.ReadyWithWarnings? {
        return Err(NotReady(current.status));
      }
      profiles := profiles[id := current];
      Save();
    }
  }

  // ---------- every sequence of calls ----------

  datatype Call =
    | RegisterCall(id: string, path: string, expected: Option<string>, mapping: Option<string>, w: World)
    | ReadinessCall(id: string, w: World)
    | AssertReadyCall(id: string, repository: string, commit: string, requireIndex: bool, w: World)

  function Answer(r: Registry, digest: Identity -> string, call: Call): Result<Profile, Error> {
    match call
    case RegisterCall(id, path, expected, mapping, w) => Register(r, digest, id, path, expected, mapping, w)
    case ReadinessCall(id, w) => CheckReadiness(r, digest, id, w)
    case AssertReadyCall(id, repository, commit, requireIndex, w) =>
      AssertReady(r, digest, id, repository, commit, requireIndex, w)
  }

  function RunCalls(r: Registry, digest: Identity -> string, calls: seq<Call>): Registry
    decreases |calls|
  {
    if calls == [] then r else RunCalls(Stored(r, calls[0].id, Answer(r, digest, calls[0])), digest, calls[1..])
  }

  /** A registered identifier keeps its fingerprint and is never dropped, whatever is called and
      whatever the file system turns into meanwhile. */
  lemma {:induction false} FingerprintNeverChanges(r: Registry, digest: Identity -> string, calls: seq<Call>,
                                                   id: string)
    requires id in r
    ensures var after := RunCalls(r, digest, calls);
            id in after && after[id].fingerprint == r[id].fingerprint
    decreases |calls|
  {
    if calls != [] {
      var next := Stored(r, calls[0].id, Answer(r, digest, calls[0]));
      AnswerKeepsFingerprint(r, digest, calls[0]);
      FingerprintNeverChanges(next, digest, calls[1..], id);
    }
  }

  lemma AnswerKeepsFingerprint(r: Registry, digest: Identity -> string, call: Call)
    ensures var answer := Answer(r, digest, call);
            answer.Ok? && call.id in r ==> answer.value.fingerprint == r[call.id].fingerprint
  {
    hide NameOf, MappingOf;
  }
}
