/** What the two embed commands share: finding the build file to embed in a target's
    frameworks phase, and finding or creating the phase it is embedded in. */
module EmbedPhase {
  import opened XcodeGraph
  import opened Strings

  // ----- Finding the build file -----

  /** `buildFile.file?.path` exists and `contains` the framework name. */
  predicate Matches(objects: seq<BuildFile>, id: BuildFileId, name: string) {
    PathOf(objects, id).Some? && Contains(PathOf(objects, id).value, name)
  }

  /** The first build file of `files` that matches: the one the file loop stops at. */
  function FirstMatch(files: seq<BuildFileId>, objects: seq<BuildFile>, name: string): (r: Option<BuildFileId>)
    ensures r.Some? ==> exists j :: 0 <= j < |files| && files[j] == r.value && Matches(objects, r.value, name)
                                    && forall k :: 0 <= k < j ==> !Matches(objects, files[k], name)
    ensures r.None? <==> forall x :: x in files ==> !Matches(objects, x, name)
  {
    if |files| == 0 then None
    else if Matches(objects, files[0], name) then Some(files[0])
    else
      var rest := FirstMatch(files[1..], objects, name);
      assert forall x :: x in files <==> x == files[0] || x in files[1..];
      if rest.Some? then
        assert exists j :: 0 <= j < |files[1..]| && files[1..][j] == rest.value && Matches(objects, rest.value, name)
                           && forall k :: 0 <= k < j ==> !Matches(objects, files[1..][k], name);
        var j :| 0 <= j < |files[1..]| && files[1..][j] == rest.value && Matches(objects, rest.value, name)
                 && forall k :: 0 <= k < j ==> !Matches(objects, files[1..][k], name);
        assert files[j + 1] == rest.value;
        assert forall k :: 0 <= k < j + 1 ==> !Matches(objects, files[k], name) by {
          forall k | 0 <= k < j + 1
            ensures !Matches(objects, files[k], name)
          {
            if k > 0 {
              assert files[k] == files[1..][k - 1];
            }
          }
        }
        rest
      else rest
  }

  /** The inner loop of `run()` over one frameworks phase: stop at the first build file
      whose path contains the name. */
  method FindMatch(files: seq<BuildFileId>, objects: seq<BuildFile>, name: string) returns (found: Option<BuildFileId>)
    ensures found == FirstMatch(files, objects, name)
  {
    var j := 0;
    while j < |files|
      invariant j <= |files|
      invariant FirstMatch(files, objects, name) == FirstMatch(files[j..], objects, name)
    {
      if Matches(objects, files[j], name) {
        return Some(files[j]);
      }
      assert files[j..][1..] == files[j + 1..];
      j := j + 1;
    }
    return None;
  }

  /** The build file embedded for `name` in a target: the first match in the phase
      `frameworksBuildPhase()` gives, or none when there is no such phase. */
  function TargetMatch(target: Target, objects: seq<BuildFile>, name: string, lib: Library): Option<BuildFileId>
    requires lib.Sound()
  {
    FirstMatch(FrameworksFiles(target, lib), objects, name)
  }

  /** No target has a build file for `name`: the command warns that it is not found. */
  ghost predicate NoMatch(g: Graph, name: string, lib: Library)
    requires lib.Sound()
  {
    forall t :: 0 <= t < |g.nativeTargets| ==> TargetMatch(g.nativeTargets[t], g.objects, name, lib).None?
  }

  /** What the file loop finds in a target: the build file and its path. */
  datatype Hit = Hit(id: BuildFileId, path: string)

  /** Target `u`'s hit for `name`, if its frameworks phase has one. */
  function HitAt(g: Graph, name: string, u: nat, lib: Library): (r: Option<Hit>)
    requires lib.Sound() && u < |g.nativeTargets|
    ensures r.Some? <==> TargetMatch(g.nativeTargets[u], g.objects, name, lib).Some?
    ensures r.Some? ==>
      && r.value.id == TargetMatch(g.nativeTargets[u], g.objects, name, lib).value
      && r.value.id in FrameworksFiles(g.nativeTargets[u], lib)
      && r.value.id < |g.objects|
      && PathOf(g.objects, r.value.id) == Some(r.value.path)
      && Contains(r.value.path, name)
  {
    match TargetMatch(g.nativeTargets[u], g.objects, name, lib)
    case None => None
    case Some(id) => Some(Hit(id, PathOf(g.objects, id).value))
  }

  /** Every hit names a registered build file. */
  predicate Fits(hits: seq<Option<Hit>>, size: nat) {
    forall u :: 0 <= u < |hits| && hits[u].Some? ==> hits[u].value.id < size
  }

  /** The hits for `name`, target by target. */
  function Found(g: Graph, name: string, lib: Library): (r: seq<Option<Hit>>)
    requires lib.Sound()
    ensures |r| == |g.nativeTargets| && Fits(r, |g.objects|)
    ensures forall u :: 0 <= u < |r| ==> r[u] == HitAt(g, name, u, lib)
  {
    seq(|g.nativeTargets|, u requires 0 <= u < |g.nativeTargets| => HitAt(g, name, u, lib))
  }

  /** The paths of the hits, in target order: what the loop appends to `updatedFrameworks`. */
  function Paths(hits: seq<Option<Hit>>): (r: seq<string>)
    ensures |r| <= |hits|
    ensures r == [] <==> forall u :: 0 <= u < |hits| ==> hits[u].None?
  {
    if |hits| == 0 then []
    else
      var rest := Paths(hits[..|hits| - 1]);
      assert forall u :: 0 <= u < |hits| - 1 ==> hits[..|hits| - 1][u] == hits[u];
      match hits[|hits| - 1]
      case None => rest
      case Some(h) => rest + [h.path]
  }

  lemma PathsSnoc(hits: seq<Option<Hit>>, t: nat)
    requires t < |hits|
    ensures Paths(hits[..t + 1]) == Paths(hits[..t]) + match hits[t] case None => [] case Some(h) => [h.path]
  {
    assert hits[..t + 1][..t] == hits[..t];
  }

  lemma {:induction false} FirstMatchFrame(files: seq<BuildFileId>, before: seq<BuildFile>, after: seq<BuildFile>, name: string)
    requires forall x :: x in files ==> PathOf(after, x) == PathOf(before, x)
    ensures FirstMatch(files, after, name) == FirstMatch(files, before, name)
  {
    if |files| > 0 {
      assert forall x :: x in files[1..] ==> x in files;
      FirstMatchFrame(files[1..], before, after, name);
    }
  }

  // ----- Finding or creating the embed phase -----

  /** `buildPhases.first(where: { $0 is PBXCopyFilesBuildPhase })`: the first copy-files
      phase, whatever its name. */
  function FirstCopyFilesPhase(kinds: seq<PhaseKind>): (r: Option<nat>)
    ensures r.Some? ==> r.value < |kinds| && kinds[r.value].CopyFiles?
    ensures r.Some? ==> forall k :: 0 <= k < r.value ==> !kinds[k].CopyFiles?
    ensures r.None? <==> forall k :: 0 <= k < |kinds| ==> !kinds[k].CopyFiles?
  {
    if |kinds| == 0 then None
    else if kinds[0].CopyFiles? then Some(0)
    else
      match FirstCopyFilesPhase(kinds[1..])
      case None => None
      case Some(k) => Some(k + 1)
  }

  lemma FirstCopyFilesUnique(kinds: seq<PhaseKind>, k: nat)
    requires k < |kinds| && kinds[k].CopyFiles?
    requires forall j :: 0 <= j < k ==> !kinds[j].CopyFiles?
    ensures FirstCopyFilesPhase(kinds) == Some(k)
  {
  }

  /** `PBXCopyFilesBuildPhase(dstPath: "", dstSubfolderSpec: .frameworks, name: "Embed Frameworks")`,
      with the library's default empty list of files. */
  const NewEmbedPhase := BuildPhase(CopyFiles(Some(EmbedFrameworksName)), Some([]))

  /** The target's phases once the embed phase is found or created, and its index. */
  function WithEmbedPhase(phases: seq<BuildPhase>): (r: (seq<BuildPhase>, nat))
    ensures r.1 < |r.0| && FirstCopyFilesPhase(Kinds(r.0)) == Some(r.1)
    ensures r.0 == if FirstCopyFilesPhase(Kinds(phases)).Some? then phases else phases + [NewEmbedPhase]
  {
    match FirstCopyFilesPhase(Kinds(phases))
    case Some(k) => (phases, k)
    case None =>
      var r := phases + [NewEmbedPhase];
      assert Kinds(r) == Kinds(phases) + [NewEmbedPhase.kind];
      FirstCopyFilesUnique(Kinds(r), |phases|);
      (r, |phases|)
  }

  /** `files.contains(x)`, with the library's `==`. */
  predicate ContainsFile(files: seq<BuildFileId>, x: BuildFileId, equal: (BuildFileId, BuildFileId) -> bool) {
    exists y :: y in files && equal(y, x)
  }

  /** `if !(phase.files?.contains(x) ?? false) { phase.files?.append(x) }`: a missing
      list stays missing. */
  function AddIfMissing(files: Option<seq<BuildFileId>>, x: BuildFileId, equal: (BuildFileId, BuildFileId) -> bool)
    : (r: Option<seq<BuildFileId>>)
    ensures r.Some? <==> files.Some?
    ensures r.Some? ==> files.value <= r.value && |r.value| <= |files.value| + 1
    ensures r.Some? ==> x in r.value || ContainsFile(files.value, x, equal)
    ensures r.Some? && ContainsFile(files.value, x, equal) ==> r == files
  {
    match files
    case None => None
    case Some(fs) => if ContainsFile(fs, x, equal) then files else Some(fs + [x])
  }

  /** The embed phase already lists `x`: nothing is appended (and, for `embed-sign`,
      nothing is registered). */
  predicate AlreadyListed(phases: seq<BuildPhase>, x: BuildFileId, equal: (BuildFileId, BuildFileId) -> bool) {
    var (ps, k) := WithEmbedPhase(phases);
    ps[k].files.Some? && ContainsFile(ps[k].files.value, x, equal)
  }

  /** The phases of a target after `x` was put into its embed phase: the first copy-files
      phase gains `x` at its end unless it lists an equal build file or has no list; a
      target without one gains an "Embed Frameworks" phase listing `x`. No other phase
      changes. */
  function Attach(phases: seq<BuildPhase>, x: BuildFileId, equal: (BuildFileId, BuildFileId) -> bool): (r: seq<BuildPhase>)
    ensures var k := FirstCopyFilesPhase(Kinds(phases));
      && (k.Some? ==> && |r| == |phases|
                      && FirstCopyFilesPhase(Kinds(r)) == k
                      && r[k.value] == phases[k.value].(files := AddIfMissing(phases[k.value].files, x, equal)))
      && (k.None? ==> && r == phases + [NewEmbedPhase.(files := Some([x]))]
                      && FirstCopyFilesPhase(Kinds(r)) == Some(|phases|))
      && forall j :: 0 <= j < |phases| && k != Some(j) ==> r[j] == phases[j]
  {
    var (ps, k) := WithEmbedPhase(phases);
    var r := ps[k := ps[k].(files := AddIfMissing(ps[k].files, x, equal))];
    assert Kinds(r) == Kinds(ps);
    assert !ContainsFile([], x, equal);
    assert k == |phases| ==> r == phases + [NewEmbedPhase.(files := Some([x]))] by {
      if k == |phases| {
        assert ps == phases + [NewEmbedPhase];
        assert AddIfMissing(Some([]), x, equal) == Some([] + [x]);
        assert [] + [x] == [x];
        assert ps[k].(files := Some([x])) == NewEmbedPhase.(files := Some([x]));
        assert forall j :: 0 <= j < |phases| ==> r[j] == phases[j];
      }
    }
    r
  }

  /** The first copy-files phase lists `x`, or has no list at all. */
  ghost predicate Embedded(phases: seq<BuildPhase>, x: BuildFileId, equal: (BuildFileId, BuildFileId) -> bool) {
    var k := FirstCopyFilesPhase(Kinds(phases));
    && k.Some?
    && (phases[k.value].files.None? || x in phases[k.value].files.value || ContainsFile(phases[k.value].files.value, x, equal))
  }

  /** A file list that may only have grown at its end; a missing list stays missing. */
  predicate ListGrown(before: Option<seq<BuildFileId>>, after: Option<seq<BuildFileId>>) {
    || (before.None? && after.None?)
    || (before.Some? && after.Some? && before.value <= after.value)
  }

  /** How the phases of a target may change: the first copy-files phase keeps its kind
      and may gain files at the end of its list; a target without one may gain an
      "Embed Frameworks" phase with a list; every other phase stays as it was. */
  ghost predicate PhasesGrown(before: seq<BuildPhase>, after: seq<BuildPhase>) {
    var k := FirstCopyFilesPhase(Kinds(before));
    && (|after| == |before| ||
        (k.None? && |after| == |before| + 1 && after[|before|].kind == NewEmbedPhase.kind && after[|before|].files.Some?))
    && forall j :: 0 <= j < |before| ==>
         if k == Some(j) then after[j].kind == before[j].kind && ListGrown(before[j].files, after[j].files)
         else after[j] == before[j]
  }

  ghost predicate Grown(before: Graph, after: Graph) {
    && |after.nativeTargets| == |before.nativeTargets|
    && forall t :: 0 <= t < |before.nativeTargets| ==>
         PhasesGrown(before.nativeTargets[t].buildPhases, after.nativeTargets[t].buildPhases)
  }

  /** How a run may change the targets: each grown as `PhasesGrown` allows, and the
      frameworks phase the library picks listing the files it listed. */
  ghost predicate TargetsGrown(before: Graph, after: Graph, lib: Library)
    requires lib.Sound()
  {
    && Grown(before, after)
    && forall u :: 0 <= u < |before.nativeTargets| ==>
         FrameworksFiles(after.nativeTargets[u], lib) == FrameworksFiles(before.nativeTargets[u], lib)
  }

  lemma AttachKinds(phases: seq<BuildPhase>, x: BuildFileId, equal: (BuildFileId, BuildFileId) -> bool)
    ensures Kinds(Attach(phases, x, equal))
         == Kinds(phases) + if FirstCopyFilesPhase(Kinds(phases)).None? then [NewEmbedPhase.kind] else []
  {
    var r := Attach(phases, x, equal);
    if FirstCopyFilesPhase(Kinds(phases)).Some? {
      assert forall j :: 0 <= j < |r| ==> r[j].kind == phases[j].kind;
    }
  }

  /** The first copy-files phase of a sequence of kinds depends only on how it starts
      when that start already has one. */
  lemma FirstCopyFilesPhaseExtend(kinds: seq<PhaseKind>, more: seq<PhaseKind>)
    requires FirstCopyFilesPhase(kinds).Some?
    ensures FirstCopyFilesPhase(kinds + more) == FirstCopyFilesPhase(kinds)
  {
    var k := FirstCopyFilesPhase(kinds).value;
    var all := kinds + more;
    assert all[k] == kinds[k];
    assert forall j :: 0 <= j < k ==> all[j] == kinds[j];
    FirstCopyFilesUnique(all, k);
  }

  /** Phases grown as allowed keep the kinds they had, after which only the new embed
      phase may come. */
  lemma GrownKinds(before: seq<BuildPhase>, after: seq<BuildPhase>)
    requires PhasesGrown(before, after)
    ensures Kinds(after) == Kinds(before) + if |after| == |before| then [] else [NewEmbedPhase.kind]
  {
  }

  /** Putting files into the embed phase keeps a target grown only as allowed. */
  lemma AttachGrown(before: seq<BuildPhase>, phases: seq<BuildPhase>, x: BuildFileId, equal: (BuildFileId, BuildFileId) -> bool)
    requires PhasesGrown(before, phases)
    ensures PhasesGrown(before, Attach(phases, x, equal))
  {
    var k := FirstCopyFilesPhase(Kinds(before));
    var after := Attach(phases, x, equal);
    GrownKinds(before, phases);
    if k.Some? {
      assert Kinds(phases) == Kinds(before);
      var f := k.value;
      assert ListGrown(phases[f].files, after[f].files);
    } else if |phases| == |before| {
      assert phases == before;
    } else {
      FirstCopyFilesUnique(Kinds(phases), |before|);
      assert after[|before|].files.Some?;
    }
  }

  /** Once put into the embed phase, a build file stays there when others are put in. */
  lemma AttachKeepsEmbedded(phases: seq<BuildPhase>, x: BuildFileId, y: BuildFileId, equal: (BuildFileId, BuildFileId) -> bool)
    requires Embedded(phases, y, equal)
    ensures Embedded(Attach(phases, x, equal), y, equal)
  {
    AttachKinds(phases, x, equal);
    var k := FirstCopyFilesPhase(Kinds(phases)).value;
    var after := Attach(phases, x, equal);
    assert Kinds(after) == Kinds(phases);
    var files := phases[k].files;
    if files.Some? && ContainsFile(files.value, y, equal) {
      var z :| z in files.value && equal(z, y);
      assert z in after[k].files.value;
    }
  }

  lemma AttachEmbeds(phases: seq<BuildPhase>, x: BuildFileId, equal: (BuildFileId, BuildFileId) -> bool)
    ensures Embedded(Attach(phases, x, equal), x, equal)
  {
    var (ps, k) := WithEmbedPhase(phases);
    assert Kinds(Attach(phases, x, equal)) == Kinds(ps);
  }

  /** Attaching leaves alone every phase but the embed phase, and so the frameworks phase
      and its files. */
  lemma AttachKeepsFrameworks(target: Target, x: BuildFileId, lib: Library)
    requires lib.Sound() && lib.Stable()
    ensures var after := Target(Attach(target.buildPhases, x, lib.equal));
      && FrameworksPhaseIndex(after, lib) == FrameworksPhaseIndex(target, lib)
      && FrameworksFiles(after, lib) == FrameworksFiles(target, lib)
  {
    var phases := target.buildPhases;
    var after := Attach(phases, x, lib.equal);
    AttachKinds(phases, x, lib.equal);
    if FirstCopyFilesPhase(Kinds(phases)).None? {
      assert lib.frameworksBuildPhase(Kinds(phases) + [NewEmbedPhase.kind]) == lib.frameworksBuildPhase(Kinds(phases));
    } else {
      assert Kinds(after) == Kinds(phases);
    }
    match FrameworksPhaseIndex(target, lib)
    case None =>
    case Some(f) =>
      var (ps, k) := WithEmbedPhase(phases);
      assert ps[f] == phases[f];
      assert ps[k].kind.CopyFiles?;
      assert after[f] == phases[f];
  }

  /** Attaching a registered build file, or one an equal of which is already listed,
      leaves no dangling reference in the target. */
  lemma AttachResolved(phases: seq<BuildPhase>, x: BuildFileId, equal: (BuildFileId, BuildFileId) -> bool, size: nat)
    requires TargetResolved(Target(phases), size)
    requires x < size || AlreadyListed(phases, x, equal)
    ensures TargetResolved(Target(Attach(phases, x, equal)), size)
  {
    var (ps, k) := WithEmbedPhase(phases);
    assert PhaseResolved(NewEmbedPhase, size);
    assert TargetResolved(Target(ps), size);
    var after := Attach(phases, x, equal);
    forall j | 0 <= j < |after|
      ensures PhaseResolved(after[j], size)
    {
      assert PhaseResolved(ps[j], size);
      if j == k && !AlreadyListed(phases, x, equal) {
        assert FilesOf(after[j]) <= FilesOf(ps[k]) + [x];
      }
    }
  }

  /** Attaching a file to one target keeps the targets grown only as allowed. */
  lemma AttachTargetsGrown(g0: Graph, g: Graph, t: nat, x: BuildFileId, objects: seq<BuildFile>, lib: Library)
    requires lib.Sound() && lib.Stable() && TargetsGrown(g0, g, lib) && t < |g.nativeTargets|
    ensures TargetsGrown(g0, Graph(g.nativeTargets[t := Target(Attach(g.nativeTargets[t].buildPhases, x, lib.equal))], objects), lib)
  {
    var attached := Target(Attach(g.nativeTargets[t].buildPhases, x, lib.equal));
    var targets := g.nativeTargets[t := attached];
    forall u | 0 <= u < |g0.nativeTargets|
      ensures PhasesGrown(g0.nativeTargets[u].buildPhases, targets[u].buildPhases)
      ensures FrameworksFiles(targets[u], lib) == FrameworksFiles(g0.nativeTargets[u], lib)
    {
      if u == t {
        AttachGrown(g0.nativeTargets[t].buildPhases, g.nativeTargets[t].buildPhases, x, lib.equal);
        AttachKeepsFrameworks(g.nativeTargets[t], x, lib);
      }
    }
  }

  // ----- What only a hit may change -----

  /** Target `u` of `g0` has a hit for one of `names`. */
  ghost predicate HitTarget(g0: Graph, names: seq<string>, u: nat, lib: Library)
    requires lib.Sound() && u < |g0.nativeTargets|
  {
    exists name :: name in names && HitAt(g0, name, u, lib).Some?
  }

  /** Build file `x` is the hit for one of `names` in some target of `g0`. */
  ghost predicate HitFile(g0: Graph, names: seq<string>, x: BuildFileId, lib: Library)
    requires lib.Sound()
  {
    exists name, u :: name in names && 0 <= u < |g0.nativeTargets| &&
      HitAt(g0, name, u, lib).Some? && HitAt(g0, name, u, lib).value.id == x
  }

  /** The targets of `g` are those of `g0`, except for targets with a hit for one of
      `names`. */
  ghost predicate OnlyHitTargets(g0: Graph, g: Graph, names: seq<string>, lib: Library)
    requires lib.Sound()
  {
    && |g.nativeTargets| == |g0.nativeTargets|
    && forall u :: 0 <= u < |g0.nativeTargets| && g.nativeTargets[u] != g0.nativeTargets[u] ==> HitTarget(g0, names, u, lib)
  }

  /** Attaching a file to a target with a hit keeps the other targets as they were. */
  lemma AttachHitTarget(g0: Graph, g: Graph, names: seq<string>, name: string, t: nat, x: BuildFileId, objects: seq<BuildFile>, lib: Library)
    requires lib.Sound() && OnlyHitTargets(g0, g, names, lib)
    requires name in names && t < |g0.nativeTargets| && HitAt(g0, name, t, lib).Some?
    ensures OnlyHitTargets(g0, Graph(g.nativeTargets[t := Target(Attach(g.nativeTargets[t].buildPhases, x, lib.equal))], objects), names, lib)
  {
    assert HitTarget(g0, names, t, lib);
  }

  /** Two graphs whose targets have the same frameworks files, and whose paths agree on
      those files, have the same hits. */
  lemma SameHits(before: Graph, after: Graph, name: string, lib: Library)
    requires lib.Sound()
    requires |after.nativeTargets| == |before.nativeTargets|
    requires forall t :: 0 <= t < |before.nativeTargets| ==>
      FrameworksFiles(after.nativeTargets[t], lib) == FrameworksFiles(before.nativeTargets[t], lib)
    requires forall t, x :: 0 <= t < |before.nativeTargets| && x in FrameworksFiles(before.nativeTargets[t], lib) ==>
      PathOf(after.objects, x) == PathOf(before.objects, x)
    ensures Found(after, name, lib) == Found(before, name, lib)
  {
    SameMatches(before, after, name, lib);
    forall u | 0 <= u < |before.nativeTargets|
      ensures HitAt(after, name, u, lib) == HitAt(before, name, u, lib)
    {
      var h := HitAt(before, name, u, lib);
      if h.Some? {
        assert PathOf(after.objects, h.value.id) == PathOf(before.objects, h.value.id);
      }
    }
  }

  /** Two graphs whose targets have the same frameworks files, and whose paths agree on
      those files, have the same matches. */
  lemma SameMatches(before: Graph, after: Graph, name: string, lib: Library)
    requires lib.Sound()
    requires |after.nativeTargets| == |before.nativeTargets|
    requires forall t :: 0 <= t < |before.nativeTargets| ==>
      FrameworksFiles(after.nativeTargets[t], lib) == FrameworksFiles(before.nativeTargets[t], lib)
    requires forall t, x :: 0 <= t < |before.nativeTargets| && x in FrameworksFiles(before.nativeTargets[t], lib) ==>
      PathOf(after.objects, x) == PathOf(before.objects, x)
    ensures forall t :: 0 <= t < |before.nativeTargets| ==>
      TargetMatch(after.nativeTargets[t], after.objects, name, lib) == TargetMatch(before.nativeTargets[t], before.objects, name, lib)
  {
    forall t | 0 <= t < |before.nativeTargets|
      ensures TargetMatch(after.nativeTargets[t], after.objects, name, lib) == TargetMatch(before.nativeTargets[t], before.objects, name, lib)
    {
      FirstMatchFrame(FrameworksFiles(before.nativeTargets[t], lib), before.objects, after.objects, name);
    }
  }
}
