/** `fix`: group the frameworks-phase build files by path and, for every path met
    more than once, remove all but one of its build files from every target's
    frameworks phase; then write the project. */
module FixCommand {
  import opened XcodeGraph

  const KeepFirst := "keep-first"
  const KeepLast := "keep-last"

  datatype FixOutcome =
    | NothingToFix
    | InvalidStrategy
      /** The project was changed and written; `saved` is false when writing failed,
          which is reported, not rethrown. */
    | Fixed(saved: bool)

  predicate KnownStrategy(strategy: string) {
    strategy == KeepFirst || strategy == KeepLast
  }

  // ----- Step 1: grouping by path -----

  /** `groups[path, default: []].append(id)` */
  function Appended(groups: map<string, seq<BuildFileId>>, path: string, id: BuildFileId): (r: map<string, seq<BuildFileId>>)
    ensures r.Keys == groups.Keys + {path}
    ensures r[path] == (if path in groups then groups[path] else []) + [id]
    ensures forall p :: p in groups && p != path ==> r[p] == groups[p]
  {
    groups[path := (if path in groups then groups[path] else []) + [id]]
  }

  /** `groups` holds, for each path met so far, the build files of `seen` that carry it, in order. */
  ghost predicate Grouped(groups: map<string, seq<BuildFileId>>, seen: seq<BuildFileId>, objects: seq<BuildFile>) {
    forall path ::
      && (path in groups <==> |Occurrences(seen, objects, path)| > 0)
      && (path in groups ==> groups[path] == Occurrences(seen, objects, path))
  }

  lemma GroupStep(groups: map<string, seq<BuildFileId>>, seen: seq<BuildFileId>, objects: seq<BuildFile>, id: BuildFileId)
    requires Grouped(groups, seen, objects)
    ensures Grouped(if PathOf(objects, id).Some? then Appended(groups, PathOf(objects, id).value, id) else groups, seen + [id], objects)
  {
    forall path {
      OccurrencesSnoc(seen, id, objects, path);
    }
  }

  /** The inner loop of step 1: one frameworks phase's build files. */
  method GroupFiles(groups0: map<string, seq<BuildFileId>>, ghost seen: seq<BuildFileId>, files: seq<BuildFileId>, objects: seq<BuildFile>)
    returns (groups: map<string, seq<BuildFileId>>)
    requires Grouped(groups0, seen, objects)
    ensures Grouped(groups, seen + files, objects)
  {
    groups := groups0;
    ghost var grouped := seen;
    var j := 0;
    while j < |files|
      invariant j <= |files|
      invariant grouped == seen + files[..j]
      invariant Grouped(groups, grouped, objects)
    {
      var id := files[j];
      GroupStep(groups, grouped, objects, id);
      var path := PathOf(objects, id);
      if path.Some? {
        groups := Appended(groups, path.value, id);
      }
      grouped := grouped + [id];
      TakeOneMore(files, j);
      j := j + 1;
    }
    assert files[..|files|] == files;
  }

  /** One pass of the target loop: the files of the target's frameworks phase, if any. */
  method GroupTarget(groups0: map<string, seq<BuildFileId>>, ghost seen: seq<BuildFileId>, target: Target, objects: seq<BuildFile>, lib: Library)
    returns (groups: map<string, seq<BuildFileId>>)
    requires lib.Sound() && Grouped(groups0, seen, objects)
    ensures Grouped(groups, seen + FrameworksFiles(target, lib), objects)
  {
    groups := groups0;
    var phase := FrameworksPhaseIndex(target, lib);
    if phase.Some? {
      groups := GroupFiles(groups, seen, FilesOf(target.buildPhases[phase.value]), objects);
    } else {
      assert seen + [] == seen;
    }
  }

  /** Step 1 of `run()`: each path's build files in encounter order, target by target
      and then file by file. */
  method GroupByPath(g: Graph, lib: Library) returns (groups: map<string, seq<BuildFileId>>)
    requires lib.Sound()
    ensures forall path :: path in groups <==> |Occurrences(FrameworkFileIds(g.nativeTargets, lib), g.objects, path)| > 0
    ensures forall path :: path in groups ==> groups[path] == Occurrences(FrameworkFileIds(g.nativeTargets, lib), g.objects, path)
  {
    groups := map[];
    ghost var grouped: seq<BuildFileId> := [];
    var t := 0;
    while t < |g.nativeTargets|
      invariant t <= |g.nativeTargets|
      invariant grouped == FrameworkFileIds(g.nativeTargets[..t], lib)
      invariant Grouped(groups, grouped, g.objects)
    {
      groups := GroupTarget(groups, grouped, g.nativeTargets[t], g.objects, lib);
      FrameworkFileIdsPrefix(g.nativeTargets, t, lib);
      grouped := grouped + FrameworksFiles(g.nativeTargets[t], lib);
      t := t + 1;
    }
    assert g.nativeTargets[..t] == g.nativeTargets;
  }

  // ----- Step 3: the strategy and the removal -----

  /** The `switch strategy`: the entries of one group marked for removal, or `None`
      for an unknown strategy. */
  function Marked(group: seq<BuildFileId>, strategy: string): (r: Option<seq<BuildFileId>>)
    ensures r.Some? <==> KnownStrategy(strategy)
    ensures r.Some? ==> forall x :: x in r.value ==> x in group
    ensures strategy == KeepFirst && group != [] ==> [group[0]] + r.value == group
    ensures strategy == KeepLast && group != [] ==> r.value + [group[|group| - 1]] == group
  {
    if strategy == KeepFirst then Some(if group == [] then [] else group[1..])
    else if strategy == KeepLast then Some(if group == [] then [] else group[..|group| - 1])
    else None
  }

  /** The entry a known strategy keeps. */
  function Kept(group: seq<BuildFileId>, strategy: string): BuildFileId
    requires group != []
  {
    if strategy == KeepFirst then group[0] else group[|group| - 1]
  }

  /** `files.removeAll(where: { $0 == removed })` */
  function Without(files: seq<BuildFileId>, removed: BuildFileId, equal: (BuildFileId, BuildFileId) -> bool): (r: seq<BuildFileId>)
    ensures forall x :: x in r <==> x in files && !equal(x, removed)
  {
    if |files| == 0 then []
    else
      var last := files[|files| - 1];
      Without(files[..|files| - 1], removed, equal) + (if equal(last, removed) then [] else [last])
  }

  /** One pass of the removal loop over the targets, on one target: the frameworks
      phase found by the library loses every build file equal to `removed`. */
  function RemovedFrom(target: Target, removed: BuildFileId, lib: Library): Target
    requires lib.Sound()
  {
    match FrameworksPhaseIndex(target, lib)
    case None => target
    case Some(k) =>
      var phase := target.buildPhases[k];
      if phase.files.None? then target
      else Target(target.buildPhases[k := phase.(files := Some(Without(phase.files.value, removed, lib.equal)))])
  }

  /** One removal keeps the phases and their kinds, and changes only the frameworks
      phase, whose files become those not equal to the removed one. */
  lemma RemovedFromFrameworksOnly(target: Target, removed: BuildFileId, lib: Library)
    requires lib.Sound()
    ensures var r := RemovedFrom(target, removed, lib);
      && Kinds(r.buildPhases) == Kinds(target.buildPhases)
      && (forall k :: 0 <= k < |r.buildPhases| && FrameworksPhaseIndex(target, lib) != Some(k) ==>
            r.buildPhases[k] == target.buildPhases[k])
      && FrameworksFiles(r, lib) == Without(FrameworksFiles(target, lib), removed, lib.equal)
  {
    var r := RemovedFrom(target, removed, lib);
    if FrameworksPhaseIndex(target, lib).Some? {
      assert Kinds(r.buildPhases) == Kinds(target.buildPhases);
    }
  }

  /** A build file is kept when the library finds it equal to none of the removed ones. */
  ghost predicate Survives(x: BuildFileId, doomed: set<BuildFileId>, equal: (BuildFileId, BuildFileId) -> bool) {
    forall d :: d in doomed ==> !equal(x, d)
  }

  /** What is left of `files` once every build file of `doomed` has been removed. */
  ghost function Keep(files: seq<BuildFileId>, doomed: set<BuildFileId>, equal: (BuildFileId, BuildFileId) -> bool): (r: seq<BuildFileId>)
    ensures |r| <= |files|
    ensures forall x :: x in r <==> x in files && Survives(x, doomed, equal)
  {
    if |files| == 0 then []
    else
      var last := files[|files| - 1];
      Keep(files[..|files| - 1], doomed, equal) + (if Survives(last, doomed, equal) then [last] else [])
  }

  /** A target once every build file of `doomed` has been removed from its frameworks
      phase; no other phase changes. */
  ghost function PruneTarget(target: Target, doomed: set<BuildFileId>, lib: Library): (r: Target)
    requires lib.Sound()
    ensures Kinds(r.buildPhases) == Kinds(target.buildPhases)
    ensures forall k :: 0 <= k < |r.buildPhases| && FrameworksPhaseIndex(target, lib) != Some(k) ==>
      r.buildPhases[k] == target.buildPhases[k]
    ensures FrameworksFiles(r, lib) == Keep(FrameworksFiles(target, lib), doomed, lib.equal)
  {
    match FrameworksPhaseIndex(target, lib)
    case None => target
    case Some(k) =>
      var phase := target.buildPhases[k];
      var pruned := if phase.files.None? then phase else phase.(files := Some(Keep(phase.files.value, doomed, lib.equal)));
      var r := Target(target.buildPhases[k := pruned]);
      assert Kinds(r.buildPhases) == Kinds(target.buildPhases);
      r
  }

  ghost function Prune(targets: seq<Target>, doomed: set<BuildFileId>, lib: Library): (r: seq<Target>)
    requires lib.Sound()
    ensures |r| == |targets|
    ensures forall t :: 0 <= t < |targets| ==> r[t] == PruneTarget(targets[t], doomed, lib)
  {
    seq(|targets|, t requires 0 <= t < |targets| => PruneTarget(targets[t], doomed, lib))
  }

  /** A build file the chosen strategy removes: it has a path met more than once and
      is among the entries the strategy marks for that path. */
  ghost predicate IsDoomed(x: BuildFileId, ids: seq<BuildFileId>, objects: seq<BuildFile>, strategy: string) {
    && PathOf(objects, x).Some?
    && var group := Occurrences(ids, objects, PathOf(objects, x).value);
    && |group| > 1
    && x in Marked(group, strategy).GetOr([])
  }

  ghost function Doomed(ids: seq<BuildFileId>, objects: seq<BuildFile>, strategy: string): set<BuildFileId> {
    set x | x in ids && IsDoomed(x, ids, objects, strategy)
  }

  // ----- Lemmas about removal -----

  lemma {:induction false} KeepNothing(files: seq<BuildFileId>, equal: (BuildFileId, BuildFileId) -> bool)
    ensures Keep(files, {}, equal) == files
  {
    if |files| > 0 {
      var init, last := files[..|files| - 1], files[|files| - 1];
      KeepNothing(init, equal);
      assert Keep(files, {}, equal) == init + [last] by {
        assert Survives(last, {}, equal);
      }
      assert init + [last] == files;
    }
  }

  lemma {:induction false} KeepAppend(a: seq<BuildFileId>, b: seq<BuildFileId>, doomed: set<BuildFileId>, equal: (BuildFileId, BuildFileId) -> bool)
    ensures Keep(a + b, doomed, equal) == Keep(a, doomed, equal) + Keep(b, doomed, equal)
  {
    if |b| == 0 {
      assert a + b == a;
    } else {
      var init, last := b[..|b| - 1], b[|b| - 1];
      var tail := if Survives(last, doomed, equal) then [last] else [];
      KeepAppend(a, init, doomed, equal);
      assert Keep(a + b, doomed, equal) == Keep(a + init, doomed, equal) + tail by {
        assert (a + b)[..|a + b| - 1] == a + init;
        assert (a + b)[|a + b| - 1] == last;
      }
      assert Keep(b, doomed, equal) == Keep(init, doomed, equal) + tail;
      Regroup(Keep(a, doomed, equal), Keep(init, doomed, equal), tail);
    }
  }

  lemma WithoutSnoc(files: seq<BuildFileId>, x: BuildFileId, removed: BuildFileId, equal: (BuildFileId, BuildFileId) -> bool)
    ensures Without(files + [x], removed, equal) == Without(files, removed, equal) + (if equal(x, removed) then [] else [x])
  {
    assert (files + [x])[..|files|] == files;
  }

  /** Removing one more build file from what is left is removing both at once. */
  lemma {:induction false} WithoutKeep(files: seq<BuildFileId>, doomed: set<BuildFileId>, removed: BuildFileId, equal: (BuildFileId, BuildFileId) -> bool)
    ensures Without(Keep(files, doomed, equal), removed, equal) == Keep(files, doomed + {removed}, equal)
  {
    if |files| > 0 {
      var init, last := files[..|files| - 1], files[|files| - 1];
      WithoutKeep(init, doomed, removed, equal);
      assert Survives(last, doomed + {removed}, equal) <==> Survives(last, doomed, equal) && !equal(last, removed);
      if Survives(last, doomed, equal) {
        WithoutSnoc(Keep(init, doomed, equal), last, removed, equal);
      } else {
        assert Keep(files, doomed, equal) == Keep(init, doomed, equal);
      }
    }
  }

  lemma RemoveStep(target: Target, doomed: set<BuildFileId>, removed: BuildFileId, lib: Library)
    requires lib.Sound()
    ensures RemovedFrom(PruneTarget(target, doomed, lib), removed, lib) == PruneTarget(target, doomed + {removed}, lib)
  {
    match FrameworksPhaseIndex(target, lib)
    case None =>
    case Some(k) =>
      var phase := target.buildPhases[k];
      if phase.files.Some? {
        WithoutKeep(phase.files.value, doomed, removed, lib.equal);
      }
  }

  lemma PruneNothing(targets: seq<Target>, lib: Library)
    requires lib.Sound()
    ensures Prune(targets, {}, lib) == targets
  {
    forall t | 0 <= t < |targets|
      ensures PruneTarget(targets[t], {}, lib) == targets[t]
    {
      match FrameworksPhaseIndex(targets[t], lib)
      case None =>
      case Some(k) =>
        var phase := targets[t].buildPhases[k];
        if phase.files.Some? {
          KeepNothing(phase.files.value, lib.equal);
          assert phase.(files := Some(phase.files.value)) == phase;
        }
        assert targets[t].buildPhases[k := phase] == targets[t].buildPhases;
    }
  }

  lemma PruneResolved(g: Graph, doomed: set<BuildFileId>, lib: Library)
    requires lib.Sound() && Resolved(g)
    ensures Resolved(Graph(Prune(g.nativeTargets, doomed, lib), g.objects))
  {
    var pruned := Prune(g.nativeTargets, doomed, lib);
    forall t | 0 <= t < |pruned|
      ensures TargetResolved(pruned[t], |g.objects|)
    {
      var before := g.nativeTargets[t];
      assert TargetResolved(before, |g.objects|);
      forall k | 0 <= k < |pruned[t].buildPhases|
        ensures PhaseResolved(pruned[t].buildPhases[k], |g.objects|)
      {
        assert PhaseResolved(before.buildPhases[k], |g.objects|);
      }
    }
  }

  /** Pruning the targets prunes the sequence of their frameworks-phase build files. */
  lemma {:induction false} PruneFrameworkFileIds(targets: seq<Target>, doomed: set<BuildFileId>, lib: Library)
    requires lib.Sound()
    ensures FrameworkFileIds(Prune(targets, doomed, lib), lib) == Keep(FrameworkFileIds(targets, lib), doomed, lib.equal)
  {
    if |targets| > 0 {
      var n := |targets| - 1;
      PruneFrameworkFileIds(targets[..n], doomed, lib);
      assert Prune(targets, doomed, lib)[..n] == Prune(targets[..n], doomed, lib);
      KeepAppend(FrameworkFileIds(targets[..n], lib), FrameworksFiles(targets[n], lib), doomed, lib.equal);
    }
  }

  /** Removing build files and grouping by path commute. */
  lemma {:induction false} OccurrencesKeep(ids: seq<BuildFileId>, objects: seq<BuildFile>, path: string, doomed: set<BuildFileId>, equal: (BuildFileId, BuildFileId) -> bool)
    ensures Occurrences(Keep(ids, doomed, equal), objects, path) == Keep(Occurrences(ids, objects, path), doomed, equal)
  {
    if |ids| > 0 {
      var init, last := ids[..|ids| - 1], ids[|ids| - 1];
      OccurrencesKeep(init, objects, path, doomed, equal);
      var kept := Keep(init, doomed, equal);
      if Survives(last, doomed, equal) {
        OccurrencesSnoc(kept, last, objects, path);
      } else {
        assert Keep(ids, doomed, equal) == kept;
      }
      KeepAppend(Occurrences(init, objects, path), if PathOf(objects, last) == Some(path) then [last] else [], doomed, equal);
    }
  }

  lemma KeepAllDoomed(files: seq<BuildFileId>, doomed: set<BuildFileId>, equal: (BuildFileId, BuildFileId) -> bool)
    requires forall x :: x in files ==> x in doomed && equal(x, x)
    ensures Keep(files, doomed, equal) == []
  {
    var r := Keep(files, doomed, equal);
    if |r| > 0 {
      assert r[0] in files;
    }
  }

  /** The entries a strategy marks for a duplicated path are exactly the doomed build
      files with that path. */
  lemma MarkedAreDoomed(ids: seq<BuildFileId>, objects: seq<BuildFile>, strategy: string, path: string)
    requires KnownStrategy(strategy)
    requires |Occurrences(ids, objects, path)| > 1
    ensures forall x :: x in Marked(Occurrences(ids, objects, path), strategy).value <==>
      x in Doomed(ids, objects, strategy) && PathOf(objects, x) == Some(path)
  {
  }

  /** After a fix with a known strategy, and with a reflexive `==` on build files, no
      path is met twice any more: a second run finds nothing to fix. */
  lemma {:induction false} NoDuplicatesAfterFix(targets: seq<Target>, objects: seq<BuildFile>, strategy: string, lib: Library)
    requires lib.Sound() && KnownStrategy(strategy)
    requires forall x :: lib.equal(x, x)
    ensures forall path ::
      |Occurrences(FrameworkFileIds(Prune(targets, Doomed(FrameworkFileIds(targets, lib), objects, strategy), lib), lib), objects, path)| <= 1
  {
    var ids := FrameworkFileIds(targets, lib);
    var doomed := Doomed(ids, objects, strategy);
    PruneFrameworkFileIds(targets, doomed, lib);
    forall path
      ensures |Occurrences(Keep(ids, doomed, lib.equal), objects, path)| <= 1
    {
      OccurrencesKeep(ids, objects, path, doomed, lib.equal);
      var group := Occurrences(ids, objects, path);
      if |group| > 1 {
        var marked := Marked(group, strategy).value;
        MarkedAreDoomed(ids, objects, strategy, path);
        KeepAllDoomed(marked, doomed, lib.equal);
        if strategy == KeepFirst {
          KeepAppend([group[0]], marked, doomed, lib.equal);
        } else {
          KeepAppend(marked, [group[|group| - 1]], doomed, lib.equal);
        }
      }
    }
  }

  /** The entry a strategy keeps for a duplicated path stays in the project, provided
      the library's `==` finds it equal to none of the removed build files (the same
      build file may sit in two targets and then be both kept and removed). */
  lemma KeptEntrySurvives(targets: seq<Target>, objects: seq<BuildFile>, strategy: string, lib: Library, path: string)
    requires lib.Sound() && KnownStrategy(strategy)
    requires |Occurrences(FrameworkFileIds(targets, lib), objects, path)| > 1
    requires Survives(Kept(Occurrences(FrameworkFileIds(targets, lib), objects, path), strategy),
                      Doomed(FrameworkFileIds(targets, lib), objects, strategy), lib.equal)
    ensures Kept(Occurrences(FrameworkFileIds(targets, lib), objects, path), strategy)
         in FrameworkFileIds(Prune(targets, Doomed(FrameworkFileIds(targets, lib), objects, strategy), lib), lib)
  {
    var ids := FrameworkFileIds(targets, lib);
    var group := Occurrences(ids, objects, path);
    PruneFrameworkFileIds(targets, Doomed(ids, objects, strategy), lib);
    assert Kept(group, strategy) in group;
  }

  // ----- The command -----

  /** The loop over the targets for one build file to remove. */
  method RemoveFromTargets(project: Project, fileToRemove: BuildFileId, ghost original: seq<Target>, ghost removed: set<BuildFileId>, lib: Library)
    requires lib.Sound() && project.nativeTargets == Prune(original, removed, lib)
    modifies project
    ensures project.nativeTargets == Prune(original, removed + {fileToRemove}, lib)
    ensures project.objects == old(project.objects) && project.writes == old(project.writes)
  {
    ghost var start := project.nativeTargets;
    ghost var goal := Prune(original, removed + {fileToRemove}, lib);
    var t := 0;
    while t < |project.nativeTargets|
      invariant t <= |original| && |project.nativeTargets| == |original| == |start| == |goal|
      invariant forall i :: 0 <= i < t ==> project.nativeTargets[i] == goal[i]
      invariant forall i :: t <= i < |original| ==> project.nativeTargets[i] == start[i]
      invariant project.objects == old(project.objects) && project.writes == old(project.writes)
    {
      var next := RemovedFrom(project.nativeTargets[t], fileToRemove, lib);
      assert next == goal[t] by {
        RemoveStep(original[t], removed, fileToRemove, lib);
      }
      project.nativeTargets := project.nativeTargets[t := next];
      t := t + 1;
    }
  }

  /** The loop over the entries marked for one path. */
  method RemoveAll(project: Project, filesToRemove: seq<BuildFileId>, ghost original: seq<Target>, ghost removed: set<BuildFileId>, lib: Library)
    requires lib.Sound() && project.nativeTargets == Prune(original, removed, lib)
    modifies project
    ensures project.nativeTargets == Prune(original, removed + (set x | x in filesToRemove), lib)
    ensures project.objects == old(project.objects) && project.writes == old(project.writes)
  {
    ghost var done := removed;
    var q := 0;
    while q < |filesToRemove|
      invariant q <= |filesToRemove|
      invariant done == removed + (set x | x in filesToRemove[..q])
      invariant project.nativeTargets == Prune(original, done, lib)
      invariant project.objects == old(project.objects) && project.writes == old(project.writes)
    {
      RemoveFromTargets(project, filesToRemove[q], original, done, lib);
      TakeOneMore(filesToRemove, q);
      done := done + {filesToRemove[q]};
      q := q + 1;
    }
    assert filesToRemove[..q] == filesToRemove;
  }

  /** Step 3 of `run()`: the loop over the duplicated paths. An unknown strategy is
      noticed at the first of them, before any removal. The paths are taken in an
      arbitrary order, as a dictionary gives them; the result does not depend on it. */
  method RemoveDuplicates(project: Project, groups: map<string, seq<BuildFileId>>, duplicated: set<string>, strategy: string,
                          ghost ids: seq<BuildFileId>, lib: Library)
    returns (known: bool)
    requires lib.Sound() && duplicated != {}
    requires forall path :: path in duplicated <==> |Occurrences(ids, project.objects, path)| > 1
    requires forall path :: path in duplicated ==> path in groups && groups[path] == Occurrences(ids, project.objects, path)
    modifies project
    ensures known == KnownStrategy(strategy)
    ensures known ==> project.nativeTargets == Prune(old(project.nativeTargets), Doomed(ids, old(project.objects), strategy), lib)
    ensures !known ==> project.nativeTargets == old(project.nativeTargets)
    ensures project.objects == old(project.objects) && project.writes == old(project.writes)
  {
    ghost var original := project.nativeTargets;
    ghost var objects := project.objects;
    ghost var doomed := Doomed(ids, objects, strategy);
    ghost var removed: set<BuildFileId> := {};
    PruneNothing(original, lib);
    var pending := duplicated;
    while pending != {}
      invariant pending <= duplicated
      invariant !KnownStrategy(strategy) ==> pending == duplicated
      invariant forall x :: x in removed <==>
        x in doomed && PathOf(objects, x).Some? && PathOf(objects, x).value in duplicated - pending
      invariant project.nativeTargets == Prune(original, removed, lib)
      invariant project.objects == objects && project.writes == old(project.writes)
      decreases pending
    {
      var path :| path in pending;
      var marked := Marked(groups[path], strategy);
      if marked.None? {
        assert removed == {};
        return false;
      }
      MarkedAreDoomed(ids, objects, strategy, path);
      RemoveAll(project, marked.value, original, removed, lib);
      removed := removed + (set x | x in marked.value);
      pending := pending - {path};
    }
    assert removed == doomed;
    return true;
  }

  /** `run()`: group, stop when no path is duplicated, remove, write. A failed write is
      reported, not rethrown. */
  method Run(project: Project, strategy: string, lib: Library, writeOk: bool) returns (outcome: FixOutcome)
    requires project.Valid() && lib.Sound()
    modifies project
    ensures project.Valid()
    ensures project.objects == old(project.objects)
    ensures outcome ==
      if forall path :: |Occurrences(FrameworkFileIds(old(project.nativeTargets), lib), old(project.objects), path)| <= 1
      then NothingToFix
      else if !KnownStrategy(strategy) then InvalidStrategy
      else Fixed(writeOk)
    ensures outcome.Fixed? ==>
      && project.nativeTargets == Prune(old(project.nativeTargets),
                                        Doomed(FrameworkFileIds(old(project.nativeTargets), lib), old(project.objects), strategy), lib)
      && project.writes == old(project.writes) + 1
    ensures !outcome.Fixed? ==> project.nativeTargets == old(project.nativeTargets) && project.writes == old(project.writes)
  {
    ghost var original := project.nativeTargets;
    ghost var ids := FrameworkFileIds(original, lib);
    var groups := GroupByPath(project.State(), lib);
    var duplicated := set path | path in groups && |groups[path]| > 1;
    assert forall path :: path in duplicated <==> |Occurrences(ids, project.objects, path)| > 1;
    if duplicated == {} {
      return NothingToFix;
    }
    ghost var sample :| sample in duplicated;
    var known := RemoveDuplicates(project, groups, duplicated, strategy, ids, lib);
    if !known {
      return InvalidStrategy;
    }
    PruneResolved(Graph(original, project.objects), Doomed(ids, project.objects, strategy), lib);
    project.writes := project.writes + 1;
    return Fixed(writeOk);
  }
}
