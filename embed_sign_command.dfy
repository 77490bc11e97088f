/** `embed-sign`: for every framework name, in every target, create a new build file for
    the file of the first frameworks-phase build file whose path contains the name, with
    `ATTRIBUTES = [CodeSignOnCopy]`, and put it into the target's embed phase unless that
    phase already lists an equal one; then write the project. */
module EmbedSignCommand {
  import opened XcodeGraph
  import opened EmbedPhase
  import ListCommand

  // ----- The new build file -----

  /** `["ATTRIBUTES": ["CodeSignOnCopy"]]` */
  const SignedSettings: Settings := map[AttributesKey := StringList([CodeSignOnCopy])]

  /** `PBXBuildFile(file: buildFile.file)` given the signing settings: a new build file
      for the same file, which the listing shows as "Embed & Sign". */
  function SignedCopy(file: BuildFile): (r: BuildFile)
    ensures r.file == file.file
    ensures ListCommand.EmbeddingStatus(r.settings) == ListCommand.EmbedAndSign
  {
    assert ListCommand.SignsOnCopy(Some(SignedSettings));
    BuildFile(file.file, Some(SignedSettings))
  }

  // ----- The command on the graph -----

  /** `embedAndSignFramework(buildFile:forTarget:in:)` for build file `id` of target `t`.
      The new build file is compared, and registered when it is not already listed, under
      the next free position of the object table. */
  function SignStep(g: Graph, t: nat, id: BuildFileId, lib: Library): (r: Graph)
    requires t < |g.nativeTargets| && id < |g.objects|
    ensures |r.nativeTargets| == |g.nativeTargets|
    ensures |r.objects| == |g.objects| + if AlreadyListed(g.nativeTargets[t].buildPhases, |g.objects|, lib.equal) then 0 else 1
  {
    var phases := g.nativeTargets[t].buildPhases;
    var newId := |g.objects|;
    Graph(g.nativeTargets[t := Target(Attach(phases, newId, lib.equal))],
          if AlreadyListed(phases, newId, lib.equal) then g.objects else g.objects + [SignedCopy(g.objects[id])])
  }

  /** The target loop from target `t` on, signing for the hits `found`. */
  function SignAll(g: Graph, found: seq<Option<Hit>>, t: nat, lib: Library): (r: Graph)
    requires |found| == |g.nativeTargets| && Fits(found, |g.objects|) && t <= |found|
    ensures |r.nativeTargets| == |g.nativeTargets| && |r.objects| >= |g.objects|
    decreases |found| - t
  {
    if t == |found| then g
    else
      match found[t]
      case None => SignAll(g, found, t + 1, lib)
      case Some(hit) => SignAll(SignStep(g, t, hit.id, lib), found, t + 1, lib)
  }

  /** The target loop for one framework name: the graph it leaves and the paths it appends
      to `updatedFrameworks`. Signing changes no frameworks phase and no registered build
      file, so the hits it meets are those of the graph it starts from (see
      `FoundUnchanged`). */
  function SignInTargets(g: Graph, name: string, lib: Library): (r: (Graph, seq<string>))
    requires lib.Sound()
    ensures |r.0.nativeTargets| == |g.nativeTargets| && |r.0.objects| >= |g.objects|
  {
    var found := Found(g, name, lib);
    (SignAll(g, found, 0, lib), Paths(found))
  }

  /** Where the run stands: the graph, the updated paths, the names not found. */
  datatype Progress = Progress(graph: Graph, updated: seq<string>, notFound: seq<string>)

  /** The framework loop, from name `i` on. */
  function SignFrom(g: Graph, frameworks: seq<string>, i: nat, lib: Library): (r: Progress)
    requires lib.Sound() && i <= |frameworks|
    ensures |r.graph.nativeTargets| == |g.nativeTargets| && |r.graph.objects| >= |g.objects|
    decreases |frameworks| - i, 1
  {
    if i == |frameworks| then Progress(g, [], [])
    else SignRest(frameworks, i, SignInTargets(g, frameworks[i], lib), lib)
  }

  /** The framework loop once name `i` has been searched for: the warning when nothing
      was updated for it, then the remaining names. */
  function SignRest(frameworks: seq<string>, i: nat, searched: (Graph, seq<string>), lib: Library): (r: Progress)
    requires lib.Sound() && i < |frameworks|
    ensures |r.graph.nativeTargets| == |searched.0.nativeTargets| && |r.graph.objects| >= |searched.0.objects|
    decreases |frameworks| - i, 0
  {
    var (next, updated) := searched;
    var rest := SignFrom(next, frameworks, i + 1, lib);
    Progress(rest.graph, updated + rest.updated, (if updated == [] then [frameworks[i]] else []) + rest.notFound)
  }

  /** One pass of the framework loop. */
  lemma SignFromStep(g: Graph, frameworks: seq<string>, i: nat, lib: Library)
    requires lib.Sound() && i < |frameworks|
    ensures var (next, updated) := SignInTargets(g, frameworks[i], lib);
      var rest := SignFrom(next, frameworks, i + 1, lib);
      SignFrom(g, frameworks, i, lib)
        == Progress(rest.graph, updated + rest.updated, (if updated == [] then [frameworks[i]] else []) + rest.notFound)
  {
  }

  // ----- What a run keeps and what it achieves -----

  /** Build file `b` was created by the command for the file of one of `objects`. */
  ghost predicate SignedCopyOf(b: BuildFile, objects: seq<BuildFile>) {
    b.settings == Some(SignedSettings) && exists x :: 0 <= x < |objects| && b.file == objects[x].file
  }

  /** How the run may have changed `g0` into `g`: the registered build files as they were;
      every new one a signed copy of one of them; the phases of each target grown as
      `PhasesGrown` allows; frameworks phases as they were. */
  ghost predicate Changed(g0: Graph, g: Graph, lib: Library)
    requires lib.Sound()
  {
    ObjectsChanged(g0.objects, g.objects) && TargetsGrown(g0, g, lib)
  }

  lemma ChangedReflexive(g: Graph, lib: Library)
    requires lib.Sound()
    ensures Changed(g, g, lib)
  {
  }

  /** A changed graph has the hits of the graph it was changed from, provided that graph
      listed only registered build files. */
  lemma FoundUnchanged(g0: Graph, g: Graph, name: string, lib: Library)
    requires lib.Sound() && Resolved(g0) && Changed(g0, g, lib)
    ensures Found(g, name, lib) == Found(g0, name, lib)
  {
    forall u, x | 0 <= u < |g0.nativeTargets| && x in FrameworksFiles(g0.nativeTargets[u], lib)
      ensures PathOf(g.objects, x) == PathOf(g0.objects, x)
    {
      assert TargetResolved(g0.nativeTargets[u], |g0.objects|);
      var k := FrameworksPhaseIndex(g0.nativeTargets[u], lib).value;
      assert PhaseResolved(g0.nativeTargets[u].buildPhases[k], |g0.objects|);
    }
    SameHits(g0, g, name, lib);
  }

  /** The object table part of `Changed`. */
  ghost predicate ObjectsChanged(before: seq<BuildFile>, after: seq<BuildFile>) {
    && |before| <= |after|
    && (forall x :: 0 <= x < |before| ==> after[x] == before[x])
    && (forall k :: |before| <= k < |after| ==> SignedCopyOf(after[k], before))
  }

  lemma RegisterCopy(before: seq<BuildFile>, objects: seq<BuildFile>, id: BuildFileId)
    requires ObjectsChanged(before, objects) && id < |objects|
    ensures ObjectsChanged(before, objects + [SignedCopy(objects[id])])
  {
    var after := objects + [SignedCopy(objects[id])];
    if id < |before| {
      assert after[|objects|].file == before[id].file;
    } else {
      assert SignedCopyOf(objects[id], before);
    }
    assert SignedCopyOf(after[|objects|], before);
  }

  lemma SignStepChanged(g0: Graph, g: Graph, t: nat, id: BuildFileId, lib: Library)
    requires lib.Sound() && lib.Stable() && Changed(g0, g, lib)
    requires t < |g.nativeTargets| && id < |g.objects|
    ensures Changed(g0, SignStep(g, t, id, lib), lib)
  {
    assert ObjectsChanged(g0.objects, SignStep(g, t, id, lib).objects) by {
      if !AlreadyListed(g.nativeTargets[t].buildPhases, |g.objects|, lib.equal) {
        RegisterCopy(g0.objects, g.objects, id);
      }
    }
    AttachTargetsGrown(g0, g, t, |g.objects|, SignStep(g, t, id, lib).objects, lib);
  }

  /** One pass of the target loop keeps the graph within what the run may change. */
  lemma SignAllStep(g0: Graph, g: Graph, found: seq<Option<Hit>>, t: nat, lib: Library)
    requires lib.Sound() && lib.Stable() && Changed(g0, g, lib)
    requires |found| == |g.nativeTargets| && Fits(found, |g.objects|) && t < |found|
    ensures var next := if found[t].Some? then SignStep(g, t, found[t].value.id, lib) else g;
      && Changed(g0, next, lib)
      && SignAll(g, found, t, lib) == SignAll(next, found, t + 1, lib)
  {
    if found[t].Some? {
      SignStepChanged(g0, g, t, found[t].value.id, lib);
    }
  }

  lemma {:induction false} SignAllChanged(g0: Graph, g: Graph, found: seq<Option<Hit>>, t: nat, lib: Library)
    requires lib.Sound() && lib.Stable() && Changed(g0, g, lib)
    requires |found| == |g.nativeTargets| && Fits(found, |g.objects|) && t <= |found|
    ensures Changed(g0, SignAll(g, found, t, lib), lib)
    decreases |found| - t
  {
    if t < |found| {
      match found[t]
      case None =>
        SignAllChanged(g0, g, found, t + 1, lib);
      case Some(hit) =>
        SignStepChanged(g0, g, t, hit.id, lib);
        SignAllChanged(g0, SignStep(g, t, hit.id, lib), found, t + 1, lib);
    }
  }

  lemma SignInTargetsChanged(g0: Graph, g: Graph, name: string, lib: Library)
    requires lib.Sound() && lib.Stable() && Changed(g0, g, lib)
    ensures Changed(g0, SignInTargets(g, name, lib).0, lib)
  {
    SignAllChanged(g0, g, Found(g, name, lib), 0, lib);
  }

  lemma {:induction false} SignFromChanged(g0: Graph, g: Graph, frameworks: seq<string>, i: nat, lib: Library)
    requires lib.Sound() && lib.Stable() && Changed(g0, g, lib) && i <= |frameworks|
    ensures Changed(g0, SignFrom(g, frameworks, i, lib).graph, lib)
    decreases |frameworks| - i
  {
    if i < |frameworks| {
      SignInTargetsChanged(g0, g, frameworks[i], lib);
      SignFromChanged(g0, SignInTargets(g, frameworks[i], lib).0, frameworks, i + 1, lib);
    }
  }

  /** Build file `b` is a signed copy of the hit for one of `names` in some target of `g0`. */
  ghost predicate CopyOfHit(g0: Graph, names: seq<string>, b: BuildFile, lib: Library)
    requires lib.Sound()
  {
    exists name, u :: name in names && 0 <= u < |g0.nativeTargets| &&
      HitAt(g0, name, u, lib).Some? && b == SignedCopy(g0.objects[HitAt(g0, name, u, lib).value.id])
  }

  /** What the run for `names` may have touched: only targets with a hit for one of the
      names; and every build file it registered is a signed copy of such a hit. */
  ghost predicate Confined(g0: Graph, g: Graph, names: seq<string>, lib: Library)
    requires lib.Sound()
  {
    && OnlyHitTargets(g0, g, names, lib)
    && |g0.objects| <= |g.objects|
    && forall k :: |g0.objects| <= k < |g.objects| ==> CopyOfHit(g0, names, g.objects[k], lib)
  }

  lemma SignStepConfined(g0: Graph, g: Graph, names: seq<string>, name: string, t: nat, lib: Library)
    requires lib.Sound() && ObjectsChanged(g0.objects, g.objects) && Confined(g0, g, names, lib)
    requires name in names && t < |g0.nativeTargets| && HitAt(g0, name, t, lib).Some?
    ensures Confined(g0, SignStep(g, t, HitAt(g0, name, t, lib).value.id, lib), names, lib)
  {
    var id := HitAt(g0, name, t, lib).value.id;
    var r := SignStep(g, t, id, lib);
    AttachHitTarget(g0, g, names, name, t, |g.objects|, r.objects, lib);
    var copy := SignedCopy(g0.objects[id]);
    assert CopyOfHit(g0, names, copy, lib);
    SignStepEmbeds(g, t, id, lib);
    forall k | |g0.objects| <= k < |r.objects|
      ensures CopyOfHit(g0, names, r.objects[k], lib)
    {
      if k == |g.objects| {
        assert r.objects[k] == copy;
      } else {
        assert r.objects[k] == g.objects[k];
      }
    }
  }

  lemma {:induction false} SignAllConfined(g0: Graph, g: Graph, names: seq<string>, name: string, t: nat, lib: Library)
    requires lib.Sound() && lib.Stable() && Changed(g0, g, lib) && Confined(g0, g, names, lib)
    requires name in names && t <= |g0.nativeTargets|
    ensures Confined(g0, SignAll(g, Found(g0, name, lib), t, lib), names, lib)
    decreases |g0.nativeTargets| - t
  {
    var found := Found(g0, name, lib);
    if t < |found| {
      match found[t]
      case None =>
        SignAllConfined(g0, g, names, name, t + 1, lib);
      case Some(hit) =>
        SignStepConfined(g0, g, names, name, t, lib);
        SignStepChanged(g0, g, t, hit.id, lib);
        SignAllConfined(g0, SignStep(g, t, hit.id, lib), names, name, t + 1, lib);
    }
  }

  lemma {:induction false} SignFromConfined(g0: Graph, g: Graph, frameworks: seq<string>, i: nat, lib: Library)
    requires lib.Sound() && lib.Stable() && Resolved(g0) && Changed(g0, g, lib) && Confined(g0, g, frameworks, lib)
    requires i <= |frameworks|
    ensures Confined(g0, SignFrom(g, frameworks, i, lib).graph, frameworks, lib)
    decreases |frameworks| - i
  {
    if i < |frameworks| {
      var name := frameworks[i];
      FoundUnchanged(g0, g, name, lib);
      SignAllConfined(g0, g, frameworks, name, 0, lib);
      SignInTargetsChanged(g0, g, name, lib);
      SignFromConfined(g0, SignInTargets(g, name, lib).0, frameworks, i + 1, lib);
    }
  }

  /** A run never changes a build file that was there: it only adds signed copies of
      them, puts files into embed phases and gives each target at most one new phase;
      no frameworks phase changes. */
  lemma OnlySignedCopiesAdded(g: Graph, frameworks: seq<string>, lib: Library)
    requires lib.Sound() && lib.Stable()
    ensures Changed(g, SignFrom(g, frameworks, 0, lib).graph, lib)
  {
    ChangedReflexive(g, lib);
    SignFromChanged(g, g, frameworks, 0, lib);
  }

  /** On a project without dangling references, a run registers only signed copies of the
      build files it finds, and changes only the embed phases of the targets it finds them
      in: each such phase only gains files at the end, a target without one gains one
      "Embed Frameworks" phase, and every other phase and every other target stays as it
      was. */
  lemma OnlyHitsTouched(g: Graph, frameworks: seq<string>, lib: Library)
    requires lib.Sound() && lib.Stable() && Resolved(g)
    ensures Confined(g, SignFrom(g, frameworks, 0, lib).graph, frameworks, lib)
  {
    ChangedReflexive(g, lib);
    SignFromConfined(g, g, frameworks, 0, lib);
  }

  /** The target loop appends nothing exactly when no target has a hit for the name. */
  lemma SignInTargetsEmpty(g: Graph, name: string, lib: Library)
    requires lib.Sound()
    ensures SignInTargets(g, name, lib).1 == [] <==> NoMatch(g, name, lib)
  {
    var found := Found(g, name, lib);
    assert forall u :: 0 <= u < |found| ==> (found[u].None? <==> TargetMatch(g.nativeTargets[u], g.objects, name, lib).None?);
  }

  lemma {:induction false} SignFromReports(g0: Graph, g: Graph, frameworks: seq<string>, i: nat, lib: Library)
    requires lib.Sound() && lib.Stable() && Resolved(g0) && Changed(g0, g, lib) && i <= |frameworks|
    ensures forall name :: name in SignFrom(g, frameworks, i, lib).notFound <==> name in frameworks[i..] && NoMatch(g0, name, lib)
    ensures SignFrom(g, frameworks, i, lib).updated == [] <==> forall name :: name in frameworks[i..] ==> NoMatch(g0, name, lib)
    decreases |frameworks| - i
  {
    if i < |frameworks| {
      var name := frameworks[i];
      var (next, updated) := SignInTargets(g, name, lib);
      SignInTargetsEmpty(g, name, lib);
      SignInTargetsEmpty(g0, name, lib);
      FoundUnchanged(g0, g, name, lib);
      assert updated == [] <==> NoMatch(g0, name, lib);
      SignInTargetsChanged(g0, g, name, lib);
      SignFromReports(g0, next, frameworks, i + 1, lib);
      DropOne(frameworks, i);
    }
  }

  /** A name is reported as not found exactly when no target's frameworks phase has a
      build file whose path contains it; nothing is reported as updated exactly when
      that holds of every name. */
  lemma Reports(g: Graph, frameworks: seq<string>, lib: Library)
    requires lib.Sound() && lib.Stable() && Resolved(g)
    ensures forall name :: name in SignFrom(g, frameworks, 0, lib).notFound <==> name in frameworks && NoMatch(g, name, lib)
    ensures SignFrom(g, frameworks, 0, lib).updated == [] <==> forall name :: name in frameworks ==> NoMatch(g, name, lib)
  {
    ChangedReflexive(g, lib);
    SignFromReports(g, g, frameworks, 0, lib);
    DropNone(frameworks);
  }

  /** Target `u`'s embed phase holds the signed copy of build file `id` that was compared
      under index `n`: the target has a copy-files phase, and that phase has no file
      list, or lists `n` registered as a signed copy of `id`, or does not list `n` but
      lists a build file the library's `==` finds equal to index `n`. */
  ghost predicate Signed(g: Graph, u: nat, id: BuildFileId, n: BuildFileId, lib: Library)
    requires u < |g.nativeTargets| && id < |g.objects|
  {
    var phases := g.nativeTargets[u].buildPhases;
    var k := FirstCopyFilesPhase(Kinds(phases));
    && k.Some?
    && var files := phases[k.value].files;
       || files.None?
       || (n in files.value && n < |g.objects| && g.objects[n] == SignedCopy(g.objects[id]))
       || (n !in files.value && ContainsFile(files.value, n, lib.equal))
  }

  /** One step puts the new build file into the target's embed phase: it is registered
      and listed there as a signed copy of the matched file, unless the phase already
      lists an equal build file (or has no file list, in which case it is registered but
      not listed). */
  lemma SignStepEmbeds(g: Graph, t: nat, id: BuildFileId, lib: Library)
    requires t < |g.nativeTargets| && id < |g.objects|
    ensures var r := SignStep(g, t, id, lib);
      var phases := r.nativeTargets[t].buildPhases;
      var k := FirstCopyFilesPhase(Kinds(phases));
      && k.Some?
      && (AlreadyListed(g.nativeTargets[t].buildPhases, |g.objects|, lib.equal) ==> r.objects == g.objects)
      && (!AlreadyListed(g.nativeTargets[t].buildPhases, |g.objects|, lib.equal) ==>
            && r.objects == g.objects + [SignedCopy(g.objects[id])]
            && (phases[k.value].files.None? || |g.objects| in phases[k.value].files.value))
  {
    var phases := g.nativeTargets[t].buildPhases;
    var (ps, k) := WithEmbedPhase(phases);
    var after := Attach(phases, |g.objects|, lib.equal);
    assert Kinds(after) == Kinds(ps);
  }

  /** A step signs for the matched file under the next free index of the table. */
  lemma SignStepSigned(g: Graph, t: nat, id: BuildFileId, lib: Library)
    requires Resolved(g) && t < |g.nativeTargets| && id < |g.objects|
    ensures Signed(SignStep(g, t, id, lib), t, id, |g.objects|, lib)
  {
    var r := SignStep(g, t, id, lib);
    var phases := g.nativeTargets[t].buildPhases;
    var after := r.nativeTargets[t].buildPhases;
    var k := FirstCopyFilesPhase(Kinds(after)).value;
    SignStepEmbeds(g, t, id, lib);
    if AlreadyListed(phases, |g.objects|, lib.equal) {
      assert !ContainsFile([], |g.objects|, lib.equal);
      assert after[k].files == phases[k].files;
      assert ContainsFile(after[k].files.value, |g.objects|, lib.equal);
      assert TargetResolved(g.nativeTargets[t], |g.objects|);
      assert PhaseResolved(phases[k], |g.objects|);
      assert FilesOf(phases[k]) == phases[k].files.value;
      assert |g.objects| !in after[k].files.value;
    } else if after[k].files.Some? {
      assert r.objects[|g.objects|] == SignedCopy(r.objects[id]);
    }
  }

  /** A later step keeps every signed copy listed: objects are only appended, and the
      embed phase keeps its place and only gains files. A later step compares under an
      index no smaller than `n`; under `n` itself it finds the equal entry and appends
      nothing, so `n` is never listed afterwards where it was not. */
  lemma SignStepKeepsSigned(g: Graph, t: nat, x: BuildFileId, u: nat, id: BuildFileId, n: BuildFileId, lib: Library)
    requires t < |g.nativeTargets| && x < |g.objects| && u < |g.nativeTargets| && id < |g.objects| && n <= |g.objects|
    requires Signed(g, u, id, n, lib)
    ensures Signed(SignStep(g, t, x, lib), u, id, n, lib)
  {
    var r := SignStep(g, t, x, lib);
    if u == t {
      var before := g.nativeTargets[u].buildPhases;
      var after := r.nativeTargets[u].buildPhases;
      var k := FirstCopyFilesPhase(Kinds(before)).value;
      assert FirstCopyFilesPhase(Kinds(after)) == Some(k);
      var files := before[k].files;
      if files.Some? {
        var m := |g.objects|;
        assert after[k].files == AddIfMissing(files, m, lib.equal);
        assert files.value <= after[k].files.value;
        if n in files.value && n < |g.objects| && g.objects[n] == SignedCopy(g.objects[id]) {
          assert n in after[k].files.value && r.objects[n] == SignedCopy(r.objects[id]);
        } else {
          var y :| y in files.value && lib.equal(y, n);
          assert y in after[k].files.value;
          if !ContainsFile(files.value, m, lib.equal) {
            assert m != n;
            assert after[k].files.value == files.value + [m];
          }
        }
      }
    } else {
      var phases := g.nativeTargets[u].buildPhases;
      var k := FirstCopyFilesPhase(Kinds(phases)).value;
      var files := phases[k].files;
      if files.Some? && n in files.value && n < |g.objects| && g.objects[n] == SignedCopy(g.objects[id]) {
        assert r.objects[n] == SignedCopy(r.objects[id]);
      }
    }
  }

  lemma {:induction false} SignAllKeepsSigned(g: Graph, found: seq<Option<Hit>>, t: nat, u: nat, y: BuildFileId, n: BuildFileId, lib: Library)
    requires |found| == |g.nativeTargets| && Fits(found, |g.objects|) && t <= |found|
    requires u < |found| && y < |g.objects| && n <= |g.objects| && Signed(g, u, y, n, lib)
    ensures Signed(SignAll(g, found, t, lib), u, y, n, lib)
    decreases |found| - t
  {
    if t < |found| {
      match found[t]
      case None =>
        SignAllKeepsSigned(g, found, t + 1, u, y, n, lib);
      case Some(hit) =>
        SignStepKeepsSigned(g, t, hit.id, u, y, n, lib);
        SignAllKeepsSigned(SignStep(g, t, hit.id, lib), found, t + 1, u, y, n, lib);
    }
  }

  /** Target `u` of `g` is signed for `id` under some index past `g0`'s table and not
      past `g`'s: that index is listed as a registered signed copy of `id`, or is not
      listed while a build file `==` to it is, or the phase has no file list. */
  ghost predicate SignedSince(g0: Graph, g: Graph, u: nat, id: BuildFileId, lib: Library)
    requires u < |g.nativeTargets| && id < |g.objects|
  {
    exists n :: |g0.objects| <= n <= |g.objects| && Signed(g, u, id, n, lib)
  }

  /** The target loop signs for the hit of the target it starts at, under the next free
      index of the table it starts from. */
  lemma SignAllSignedFirst(g: Graph, found: seq<Option<Hit>>, t: nat, lib: Library)
    requires Resolved(g) && |found| == |g.nativeTargets| && Fits(found, |g.objects|) && t < |found| && found[t].Some?
    ensures Signed(SignAll(g, found, t, lib), t, found[t].value.id, |g.objects|, lib)
  {
    var id := found[t].value.id;
    var next := SignStep(g, t, id, lib);
    assert SignAll(g, found, t, lib) == SignAll(next, found, t + 1, lib);
    SignStepSigned(g, t, id, lib);
    SignAllKeepsSigned(next, found, t + 1, t, id, |g.objects|, lib);
  }

  /** The target loop signs for the hit of every target it visits. */
  lemma {:induction false} SignAllSigned(g: Graph, found: seq<Option<Hit>>, t: nat, u: nat, lib: Library)
    requires Resolved(g) && |found| == |g.nativeTargets| && Fits(found, |g.objects|) && t <= u < |found| && found[u].Some?
    ensures SignedSince(g, SignAll(g, found, t, lib), u, found[u].value.id, lib)
    decreases |found| - t
  {
    var last := SignAll(g, found, t, lib);
    var id := found[u].value.id;
    if u == t {
      SignAllSignedFirst(g, found, t, lib);
      assert Signed(last, u, id, |g.objects|, lib);
    } else {
      var next := if found[t].None? then g else SignStep(g, t, found[t].value.id, lib);
      assert last == SignAll(next, found, t + 1, lib);
      if found[t].Some? {
        SignStepResolved(g, t, found[t].value.id, lib);
      }
      SignAllSigned(next, found, t + 1, u, lib);
      var n :| |next.objects| <= n <= |last.objects| && Signed(last, u, id, n, lib);
      assert |g.objects| <= n;
    }
  }

  lemma {:induction false} SignFromKeepsSigned(g: Graph, frameworks: seq<string>, i: nat, u: nat, y: BuildFileId, n: BuildFileId, lib: Library)
    requires lib.Sound() && i <= |frameworks|
    requires u < |g.nativeTargets| && y < |g.objects| && n <= |g.objects| && Signed(g, u, y, n, lib)
    ensures Signed(SignFrom(g, frameworks, i, lib).graph, u, y, n, lib)
    decreases |frameworks| - i
  {
    if i < |frameworks| {
      var found := Found(g, frameworks[i], lib);
      var next := SignInTargets(g, frameworks[i], lib).0;
      SignFromStep(g, frameworks, i, lib);
      assert next == SignAll(g, found, 0, lib);
      SignAllKeepsSigned(g, found, 0, u, y, n, lib);
      SignFromKeepsSigned(next, frameworks, i + 1, u, y, n, lib);
    }
  }

  /** The rest of the framework loop signs for the hit of each of its names in each
      target. */
  lemma {:induction false} SignFromSigned(g: Graph, frameworks: seq<string>, i: nat, name: string, u: nat, lib: Library)
    requires lib.Sound() && lib.Stable() && Resolved(g) && i <= |frameworks|
    requires name in frameworks[i..] && u < |g.nativeTargets| && Found(g, name, lib)[u].Some?
    ensures SignedSince(g, SignFrom(g, frameworks, i, lib).graph, u, Found(g, name, lib)[u].value.id, lib)
    decreases |frameworks| - i
  {
    var first := frameworks[i];
    var found := Found(g, first, lib);
    var next := SignInTargets(g, first, lib).0;
    var last := SignFrom(g, frameworks, i, lib).graph;
    var id := Found(g, name, lib)[u].value.id;
    SignFromStep(g, frameworks, i, lib);
    assert last == SignFrom(next, frameworks, i + 1, lib).graph;
    assert next == SignAll(g, found, 0, lib);
    if name == first {
      SignAllSigned(g, found, 0, u, lib);
      var n :| |g.objects| <= n <= |next.objects| && Signed(next, u, id, n, lib);
      SignFromKeepsSigned(next, frameworks, i + 1, u, id, n, lib);
      assert Signed(last, u, id, n, lib);
    } else {
      InRest(frameworks, i, name);
      ChangedReflexive(g, lib);
      SignInTargetsChanged(g, g, first, lib);
      SignAllResolved(g, found, 0, lib);
      FoundUnchanged(g, next, name, lib);
      SignFromSigned(next, frameworks, i + 1, name, u, lib);
      var n :| |next.objects| <= n <= |last.objects| && Signed(last, u, id, n, lib);
      assert |g.objects| <= n;
    }
  }

  /** After a run, for every requested name and every target with a hit for it, the
      target's embed phase is signed for the hit under an index past the starting table:
      that index is listed as a registered signed copy of the hit, or is not listed while
      an entry equal to it is, or the phase has no file list. */
  lemma EveryMatchSigned(g: Graph, frameworks: seq<string>, lib: Library)
    requires lib.Sound() && lib.Stable() && Resolved(g)
    ensures var last := SignFrom(g, frameworks, 0, lib).graph;
      forall name, u :: name in frameworks && 0 <= u < |g.nativeTargets| && HitAt(g, name, u, lib).Some? ==>
        SignedSince(g, last, u, HitAt(g, name, u, lib).value.id, lib)
  {
    DropNone(frameworks);
    forall name, u | name in frameworks && 0 <= u < |g.nativeTargets| && HitAt(g, name, u, lib).Some?
      ensures SignedSince(g, SignFrom(g, frameworks, 0, lib).graph, u, HitAt(g, name, u, lib).value.id, lib)
    {
      assert Found(g, name, lib)[u] == HitAt(g, name, u, lib);
      SignFromSigned(g, frameworks, 0, name, u, lib);
    }
  }

  // ----- The command on the project -----

  lemma SignStepResolved(g: Graph, t: nat, id: BuildFileId, lib: Library)
    requires Resolved(g) && t < |g.nativeTargets| && id < |g.objects|
    ensures Resolved(SignStep(g, t, id, lib))
  {
    var r := SignStep(g, t, id, lib);
    AttachResolved(g.nativeTargets[t].buildPhases, |g.objects|, lib.equal, |r.objects|);
    forall u | 0 <= u < |r.nativeTargets| && u != t
      ensures TargetResolved(r.nativeTargets[u], |r.objects|)
    {
      assert TargetResolved(g.nativeTargets[u], |g.objects|);
    }
  }

  lemma {:induction false} SignAllResolved(g: Graph, found: seq<Option<Hit>>, t: nat, lib: Library)
    requires Resolved(g) && |found| == |g.nativeTargets| && Fits(found, |g.objects|) && t <= |found|
    ensures Resolved(SignAll(g, found, t, lib))
    decreases |found| - t
  {
    if t < |found| {
      match found[t]
      case None =>
        SignAllResolved(g, found, t + 1, lib);
      case Some(hit) =>
        SignStepResolved(g, t, hit.id, lib);
        SignAllResolved(SignStep(g, t, hit.id, lib), found, t + 1, lib);
    }
  }

  /** `embedAndSignFramework(buildFile:forTarget:in:)`, in place. */
  method SignFramework(project: Project, t: nat, id: BuildFileId, lib: Library)
    requires project.Valid() && t < |project.nativeTargets| && id < |project.objects|
    modifies project
    ensures project.State() == SignStep(old(project.State()), t, id, lib)
    ensures project.Valid() && project.writes == old(project.writes)
  {
    SignStepResolved(project.State(), t, id, lib);
    ghost var before := project.nativeTargets[t].buildPhases;
    var embedBuildFile := SignedCopy(project.objects[id]);
    var newId := |project.objects|;
    var phases := project.nativeTargets[t].buildPhases;
    var index: nat;
    var existing := FirstCopyFilesPhase(Kinds(phases));
    if existing.Some? {
      index := existing.value;
    } else {
      phases := phases + [NewEmbedPhase];
      index := |phases| - 1;
    }
    assert (phases, index) == WithEmbedPhase(before);
    var phase := phases[index];
    if !(phase.files.Some? && ContainsFile(phase.files.value, newId, lib.equal)) {
      project.objects := project.objects + [embedBuildFile];
      if phase.files.Some? {
        phases := phases[index := phase.(files := Some(phase.files.value + [newId]))];
      }
    } else {
      assert phases[index := phase] == phases;
    }
    assert phases == Attach(before, newId, lib.equal);
    project.nativeTargets := project.nativeTargets[t := Target(phases)];
  }

  /** What `run()` reports: the updated paths, the names warned about, and whether the
      write succeeded (a failed write is thrown to the caller). */
  datatype SignReport = SignReport(updated: seq<string>, notFound: seq<string>, saved: bool)

  /** One pass of the target loop: search target `t`'s frameworks phase and sign for the
      first build file whose path contains the name. */
  method SignInTarget(project: Project, name: string, t: nat, lib: Library) returns (fileName: Option<string>)
    requires project.Valid() && lib.Sound() && t < |project.nativeTargets|
    modifies project
    ensures var hit := HitAt(old(project.State()), name, t, lib);
      && fileName == (if hit.Some? then Some(hit.value.path) else None)
      && project.State() == (if hit.Some? then SignStep(old(project.State()), t, hit.value.id, lib) else old(project.State()))
    ensures project.Valid() && project.writes == old(project.writes)
  {
    fileName := None;
    var target := project.nativeTargets[t];
    var phase := FrameworksPhaseIndex(target, lib);
    if phase.Some? {
      var id := FindMatch(FilesOf(target.buildPhases[phase.value]), project.objects, name);
      if id.Some? {
        fileName := Some(PathOf(project.objects, id.value).value);
        SignFramework(project, t, id.value, lib);
      }
    }
  }

  /** Where the target loop for `name` stands after `t` targets of `g0`: the graph `g`
      it reached is within what the run may change, the rest of the loop from `g`
      ends where the whole loop from `g0` does, and `updated` holds the paths of the
      hits so far. */
  ghost predicate Scanned(g0: Graph, g: Graph, name: string, t: nat, updated: seq<string>, lib: Library)
    requires lib.Sound()
  {
    var found := Found(g0, name, lib);
    && Resolved(g0)
    && |g.nativeTargets| == |g0.nativeTargets|
    && t <= |found|
    && Changed(g0, g, lib)
    && Fits(found, |g.objects|)
    && SignAll(g, found, t, lib) == SignAll(g0, found, 0, lib)
    && updated == Paths(found[..t])
  }

  lemma ScanStart(g: Graph, name: string, lib: Library)
    requires lib.Sound() && Resolved(g)
    ensures Scanned(g, g, name, 0, [], lib)
  {
    ChangedReflexive(g, lib);
  }

  /** One pass of the target loop: the hit of target `t` in the graph reached is the
      one the loop from `g0` meets. */
  lemma ScanStep(g0: Graph, g: Graph, name: string, t: nat, updated: seq<string>, lib: Library)
    requires lib.Sound() && lib.Stable() && Scanned(g0, g, name, t, updated, lib) && t < |g.nativeTargets|
    ensures var hit := HitAt(g, name, t, lib);
      && (hit.Some? ==> hit.value.id < |g.objects|)
      && Scanned(g0, if hit.Some? then SignStep(g, t, hit.value.id, lib) else g, name, t + 1,
                 updated + (if hit.Some? then [hit.value.path] else []), lib)
  {
    var found := Found(g0, name, lib);
    FoundUnchanged(g0, g, name, lib);
    assert found[t] == HitAt(g, name, t, lib);
    SignAllStep(g0, g, found, t, lib);
    PathsSnoc(found, t);
  }

  lemma ScanDone(g0: Graph, g: Graph, name: string, updated: seq<string>, lib: Library)
    requires lib.Sound() && Scanned(g0, g, name, |g.nativeTargets|, updated, lib)
    ensures (g, updated) == SignInTargets(g0, name, lib)
  {
    var found := Found(g0, name, lib);
    assert found[..|found|] == found;
  }

  /** The target loop of `run()` for one framework name. */
  method SignName(project: Project, name: string, lib: Library) returns (updated: seq<string>)
    requires project.Valid() && lib.Sound() && lib.Stable()
    modifies project
    ensures var r := SignInTargets(old(project.State()), name, lib);
      project.State() == r.0 && updated == r.1
    ensures project.Valid() && project.writes == old(project.writes)
  {
    ghost var g0 := project.State();
    ScanStart(g0, name, lib);
    updated := [];
    var t := 0;
    while t < |project.nativeTargets|
      invariant project.Valid() && project.writes == old(project.writes)
      invariant Scanned(g0, project.State(), name, t, updated, lib)
    {
      ScanStep(g0, project.State(), name, t, updated, lib);
      var fileName := SignInTarget(project, name, t, lib);
      updated := updated + if fileName.Some? then [fileName.value] else [];
      t := t + 1;
    }
    ScanDone(g0, project.State(), name, updated, lib);
  }

  /** One pass of the framework loop of `run()`: search every target for the name, and
      remember it for the warning when nothing was updated. */
  method SearchFramework(project: Project, frameworks: seq<string>, i: nat, lib: Library,
                         updatedFrameworks: seq<string>, notFound: seq<string>)
    returns (updatedAfter: seq<string>, notFoundAfter: seq<string>)
    requires project.Valid() && lib.Sound() && lib.Stable() && i < |frameworks|
    modifies project
    ensures project.Valid() && project.writes == old(project.writes)
    ensures var before := SignFrom(old(project.State()), frameworks, i, lib);
      var after := SignFrom(project.State(), frameworks, i + 1, lib);
      && after.graph == before.graph
      && updatedAfter + after.updated == updatedFrameworks + before.updated
      && notFoundAfter + after.notFound == notFound + before.notFound
  {
    SignFromStep(project.State(), frameworks, i, lib);
    var framework := frameworks[i];
    var updated := SignName(project, framework, lib);
    ghost var after := SignFrom(project.State(), frameworks, i + 1, lib);
    var foundFramework := updated != [];
    var warned := if foundFramework then [] else [framework];
    updatedAfter := updatedFrameworks + updated;
    notFoundAfter := notFound + warned;
    Regroup(updatedFrameworks, updated, after.updated);
    Regroup(notFound, warned, after.notFound);
  }

  /** `run()`: every framework name in turn, then the write. */
  method Run(project: Project, frameworks: seq<string>, lib: Library, writeOk: bool) returns (report: SignReport)
    requires project.Valid() && lib.Sound() && lib.Stable()
    modifies project
    ensures project.Valid() && project.writes == old(project.writes) + 1
    ensures var p := SignFrom(old(project.State()), frameworks, 0, lib);
      project.State() == p.graph && report == SignReport(p.updated, p.notFound, writeOk)
  {
    ghost var final := SignFrom(project.State(), frameworks, 0, lib);
    var updatedFrameworks: seq<string> := [];
    var notFound: seq<string> := [];
    var i := 0;
    while i < |frameworks|
      invariant i <= |frameworks|
      invariant project.Valid() && project.writes == old(project.writes)
      invariant var rest := SignFrom(project.State(), frameworks, i, lib);
        && rest.graph == final.graph
        && updatedFrameworks + rest.updated == final.updated
        && notFound + rest.notFound == final.notFound
    {
      updatedFrameworks, notFound := SearchFramework(project, frameworks, i, lib, updatedFrameworks, notFound);
      i := i + 1;
    }
    project.writes := project.writes + 1;
    report := SignReport(updatedFrameworks, notFound, writeOk);
  }
}
