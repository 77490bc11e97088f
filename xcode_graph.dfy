/** The part of an Xcode project's object graph that the commands read and change.

    Native targets and their build phases are values held by the project. Build
    files live in the project's object table and are referred to by their index in
    it, so that one build file can sit in several phases at once: the embed command
    puts the very build file of a frameworks phase into a copy-files phase and then
    changes its settings, and both phases see the change. */
module XcodeGraph {

  datatype Option<+T> = None | Some(value: T) {
    /** The Swift `?? default`. */
    function GetOr(default: T): T {
      match this
      case Some(v) => v
      case None => default
    }
  }

  /** Position of a build file in the project's object table. */
  type BuildFileId = nat

  /** A file reference; the commands only read its optional path. */
  datatype FileElement = FileElement(path: Option<string>)

  /** A value of a build file's settings dictionary. `as? [String]` succeeds on a
      `StringList` only. */
  datatype Setting = StringList(items: seq<string>) | OtherValue(text: string)

  type Settings = map<string, Setting>

  datatype BuildFile = BuildFile(file: Option<FileElement>, settings: Option<Settings>)

  /** The three kinds of build phase the commands tell apart. */
  datatype PhaseKind = Frameworks | CopyFiles(name: Option<string>) | OtherPhase

  datatype BuildPhase = BuildPhase(kind: PhaseKind, files: Option<seq<BuildFileId>>)

  datatype Target = Target(buildPhases: seq<BuildPhase>)

  datatype Graph = Graph(nativeTargets: seq<Target>, objects: seq<BuildFile>)

  const AttributesKey := "ATTRIBUTES"
  const CodeSignOnCopy := "CodeSignOnCopy"
  const RemoveHeadersOnCopy := "RemoveHeadersOnCopy"
  const EmbedFrameworksName := "Embed Frameworks"

  /** The two services of the project library whose code is not part of this model:
      `PBXTarget.frameworksBuildPhase()`, which picks the frameworks phase of a target
      from its list of phases, and `==` on build files. */
  datatype Library = Library(
    frameworksBuildPhase: seq<PhaseKind> -> Option<nat>,
    equal: (BuildFileId, BuildFileId) -> bool)
  {
    /** What the hook's result type promises: the phase it returns is a frameworks phase. */
    ghost predicate Sound() {
      forall kinds: seq<PhaseKind> ::
        var chosen := frameworksBuildPhase(kinds);
        chosen.Some? ==> chosen.value < |kinds| && kinds[chosen.value] == Frameworks
    }

    /** What the library's implementation (the first frameworks phase of the target)
        gives: appending a phase of another kind does not change the answer. */
    ghost predicate Stable() {
      forall kinds: seq<PhaseKind>, kind: PhaseKind :: kind != Frameworks ==>
        frameworksBuildPhase(kinds + [kind]) == frameworksBuildPhase(kinds)
    }
  }

  function Kinds(phases: seq<BuildPhase>): (r: seq<PhaseKind>)
    ensures |r| == |phases|
    ensures forall k :: 0 <= k < |phases| ==> r[k] == phases[k].kind
  {
    seq(|phases|, k requires 0 <= k < |phases| => phases[k].kind)
  }

  /** `phase.files ?? []` */
  function FilesOf(phase: BuildPhase): seq<BuildFileId> {
    phase.files.GetOr([])
  }

  /** `buildFile.file?.path`; an index outside the object table has no path. */
  function PathOf(objects: seq<BuildFile>, id: BuildFileId): Option<string> {
    if id < |objects| && objects[id].file.Some? then objects[id].file.value.path else None
  }

  /** `target.frameworksBuildPhase()`, as an index into the target's phases. */
  function FrameworksPhaseIndex(target: Target, lib: Library): (r: Option<nat>)
    requires lib.Sound()
    ensures r.Some? ==> r.value < |target.buildPhases| && target.buildPhases[r.value].kind == Frameworks
  {
    var kinds := Kinds(target.buildPhases);
    var chosen := lib.frameworksBuildPhase(kinds);
    assert chosen.Some? ==> chosen.value < |kinds| && kinds[chosen.value] == Frameworks;
    chosen
  }

  /** The build files of a target's frameworks phase, or none when it has no such phase. */
  function FrameworksFiles(target: Target, lib: Library): seq<BuildFileId>
    requires lib.Sound()
  {
    match FrameworksPhaseIndex(target, lib)
    case None => []
    case Some(k) => FilesOf(target.buildPhases[k])
  }

  /** Every frameworks-phase build file of the targets, in the order the commands meet
      them: target by target, and file by file within a target's frameworks phase. */
  function FrameworkFileIds(targets: seq<Target>, lib: Library): seq<BuildFileId>
    requires lib.Sound()
  {
    if |targets| == 0 then []
    else FrameworkFileIds(targets[..|targets| - 1], lib) + FrameworksFiles(targets[|targets| - 1], lib)
  }

  lemma FrameworkFileIdsPrefix(targets: seq<Target>, t: nat, lib: Library)
    requires lib.Sound() && t < |targets|
    ensures FrameworkFileIds(targets[..t + 1], lib) == FrameworkFileIds(targets[..t], lib) + FrameworksFiles(targets[t], lib)
  {
    assert targets[..t + 1][..t] == targets[..t];
  }

  /** The build files among `ids` whose path is exactly `path`, in their order in `ids`. */
  function Occurrences(ids: seq<BuildFileId>, objects: seq<BuildFile>, path: string): (r: seq<BuildFileId>)
    ensures |r| <= |ids|
    ensures forall x {:trigger x in r} :: x in r <==> x in ids && PathOf(objects, x) == Some(path)
  {
    if |ids| == 0 then []
    else
      var last := ids[|ids| - 1];
      Occurrences(ids[..|ids| - 1], objects, path) + (if PathOf(objects, last) == Some(path) then [last] else [])
  }

  /** One more element of a prefix. */
  lemma TakeOneMore<T>(s: seq<T>, j: nat)
    requires j < |s|
    ensures s[..j + 1] == s[..j] + [s[j]]
  {
  }

  /** A suffix is its first element followed by the rest. */
  lemma DropOne<T>(s: seq<T>, i: nat)
    requires i < |s|
    ensures s[i..] == [s[i]] + s[i + 1..]
  {
  }

  /** An element of a suffix other than its first is in the rest of it. */
  lemma InRest<T>(s: seq<T>, i: nat, x: T)
    requires i < |s| && x in s[i..] && x != s[i]
    ensures x in s[i + 1..]
  {
    DropOne(s, i);
  }

  lemma Regroup<T>(a: seq<T>, b: seq<T>, c: seq<T>)
    ensures (a + b) + c == a + (b + c)
  {
  }

  lemma DropNone<T>(s: seq<T>)
    ensures s[0..] == s
  {
  }

  lemma OccurrencesSnoc(ids: seq<BuildFileId>, id: BuildFileId, objects: seq<BuildFile>, path: string)
    ensures Occurrences(ids + [id], objects, path)
         == Occurrences(ids, objects, path) + (if PathOf(objects, id) == Some(path) then [id] else [])
  {
    assert (ids + [id])[..|ids|] == ids;
  }

  /** Every build file a phase lists is registered in the object table. */
  ghost predicate PhaseResolved(phase: BuildPhase, size: nat) {
    forall x :: x in FilesOf(phase) ==> x < size
  }

  ghost predicate TargetResolved(target: Target, size: nat) {
    forall k :: 0 <= k < |target.buildPhases| ==> PhaseResolved(target.buildPhases[k], size)
  }

  /** The loaded graph has no dangling build-file references. */
  ghost predicate Resolved(g: Graph) {
    forall t :: 0 <= t < |g.nativeTargets| ==> TargetResolved(g.nativeTargets[t], |g.objects|)
  }

  /** The loaded project (`xcodeproj.pbxproj`). Loading and writing are done by the
      project library; `writes` counts the times a command wrote the project back. */
  class Project {
    var nativeTargets: seq<Target>
    var objects: seq<BuildFile>
    var writes: nat

    ghost predicate Valid()
      reads this
    {
      Resolved(Graph(nativeTargets, objects))
    }

    function State(): Graph
      reads this
    {
      Graph(nativeTargets, objects)
    }

    constructor (loaded: Graph)
      requires Resolved(loaded)
      ensures Valid() && State() == loaded && writes == 0
    {
      nativeTargets := loaded.nativeTargets;
      objects := loaded.objects;
      writes := 0;
    }
  }
}
