/** `duplicates`: count the build files of every target's frameworks phase by their
    full path and report the paths met more than once. */
module DuplicatesCommand {
  import opened XcodeGraph
  import opened Models

  /** `tally[path, default: 0] += 1` */
  function Bumped(tally: map<string, nat>, path: string): (r: map<string, nat>)
    ensures r.Keys == tally.Keys + {path}
    ensures r[path] == (if path in tally then tally[path] else 0) + 1
    ensures forall p :: p in tally && p != path ==> r[p] == tally[p]
  {
    tally[path := if path in tally then tally[path] + 1 else 1]
  }

  /** `tally` holds, for each path met so far, how many build files of `seen` carry it. */
  ghost predicate Tallies(tally: map<string, nat>, seen: seq<BuildFileId>, objects: seq<BuildFile>) {
    forall path ::
      && (path in tally <==> |Occurrences(seen, objects, path)| > 0)
      && (path in tally ==> tally[path] == |Occurrences(seen, objects, path)|)
  }

  lemma TallyStep(tally: map<string, nat>, seen: seq<BuildFileId>, objects: seq<BuildFile>, id: BuildFileId)
    requires Tallies(tally, seen, objects)
    ensures Tallies(if PathOf(objects, id).Some? then Bumped(tally, PathOf(objects, id).value) else tally, seen + [id], objects)
  {
    forall path {
      OccurrencesSnoc(seen, id, objects, path);
    }
  }

  /** The inner loop of the tally: one frameworks phase's build files. */
  method CountFiles(tally0: map<string, nat>, ghost seen: seq<BuildFileId>, files: seq<BuildFileId>, objects: seq<BuildFile>)
    returns (tally: map<string, nat>)
    requires Tallies(tally0, seen, objects)
    ensures Tallies(tally, seen + files, objects)
  {
    tally := tally0;
    ghost var counted := seen;
    var j := 0;
    while j < |files|
      invariant j <= |files|
      invariant counted == seen + files[..j]
      invariant Tallies(tally, counted, objects)
    {
      var id := files[j];
      TallyStep(tally, counted, objects, id);
      var path := PathOf(objects, id);
      if path.Some? {
        tally := Bumped(tally, path.value);
      }
      counted := counted + [id];
      assert files[..j + 1] == files[..j] + [id];
      j := j + 1;
    }
    assert files[..|files|] == files;
  }

  /** One pass of the target loop: the files of the target's frameworks phase, if any. */
  method CountTarget(tally0: map<string, nat>, ghost seen: seq<BuildFileId>, target: Target, objects: seq<BuildFile>, lib: Library)
    returns (tally: map<string, nat>)
    requires lib.Sound() && Tallies(tally0, seen, objects)
    ensures Tallies(tally, seen + FrameworksFiles(target, lib), objects)
  {
    tally := tally0;
    var phase := FrameworksPhaseIndex(target, lib);
    if phase.Some? {
      tally := CountFiles(tally, seen, FilesOf(target.buildPhases[phase.value]), objects);
    } else {
      assert seen + [] == seen;
    }
  }

  /** The tally loop of `run()`, over every frameworks-phase build file that has a path. */
  method CountOccurrences(g: Graph, lib: Library) returns (tally: map<string, nat>)
    requires lib.Sound()
    ensures forall path :: path in tally <==> |Occurrences(FrameworkFileIds(g.nativeTargets, lib), g.objects, path)| > 0
    ensures forall path :: path in tally ==> tally[path] == |Occurrences(FrameworkFileIds(g.nativeTargets, lib), g.objects, path)|
  {
    tally := map[];
    ghost var counted: seq<BuildFileId> := [];
    var t := 0;
    while t < |g.nativeTargets|
      invariant t <= |g.nativeTargets|
      invariant counted == FrameworkFileIds(g.nativeTargets[..t], lib)
      invariant Tallies(tally, counted, g.objects)
    {
      tally := CountTarget(tally, counted, g.nativeTargets[t], g.objects, lib);
      FrameworkFileIdsPrefix(g.nativeTargets, t, lib);
      counted := counted + FrameworksFiles(g.nativeTargets[t], lib);
      t := t + 1;
    }
    assert g.nativeTargets[..t] == g.nativeTargets;
  }

  /** `run()`: the `> 1` filter over the tally, each reported path with its tally as
      `count`. The order of the report follows the dictionary and is not modelled. */
  method Run(project: Project, lib: Library) returns (report: set<FrameworkInfo>)
    requires lib.Sound()
    ensures forall info :: info in report <==>
      var n := |Occurrences(FrameworkFileIds(project.nativeTargets, lib), project.objects, info.name)|;
      n > 1 && info == Counted(info.name, n)
    ensures report == {} <==>
      forall path :: |Occurrences(FrameworkFileIds(project.nativeTargets, lib), project.objects, path)| <= 1
  {
    var tally := CountOccurrences(project.State(), lib);
    report := set path | path in tally && tally[path] > 1 :: Counted(path, tally[path]);
    ghost var ids := FrameworkFileIds(project.nativeTargets, lib);
    assert forall path :: |Occurrences(ids, project.objects, path)| > 1 ==> Counted(path, tally[path]) in report;
  }
}
