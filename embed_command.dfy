/** `embed`: for every framework name, in every target, put the first build file of the
    frameworks phase whose path contains the name into the target's embed phase and
    give it the `CodeSignOnCopy` and `RemoveHeadersOnCopy` attributes; then write the
    project. */
module EmbedCommand {
  import opened XcodeGraph
  import opened EmbedPhase
  import ListCommand

  // ----- The attributes -----

  /** `if !attributes.contains(x) { attributes.append(x) }` */
  function AppendMissing(items: seq<string>, x: string): (r: seq<string>)
    ensures x in r && items <= r
    ensures forall y :: y in r ==> y in items || y == x
    ensures x in items ==> r == items
  {
    if x in items then items else items + [x]
  }

  /** The settings hold `ATTRIBUTES` as a list of strings. */
  predicate HasAttributeList(settings: Option<Settings>) {
    settings.Some? && AttributesKey in settings.value && settings.value[AttributesKey].StringList?
  }

  /** The settings an embedded build file ends up with: a missing dictionary becomes
      empty; an `ATTRIBUTES` list keeps its order and gains the two attributes it lacks;
      anything else under `ATTRIBUTES` is replaced by the two attributes. */
  function MergeAttributes(settings: Option<Settings>): (r: Settings)
    ensures HasAttributeList(Some(r))
    ensures CodeSignOnCopy in r[AttributesKey].items && RemoveHeadersOnCopy in r[AttributesKey].items
    ensures r.Keys == settings.GetOr(map[]).Keys + {AttributesKey}
    ensures forall key :: key in settings.GetOr(map[]) && key != AttributesKey ==> r[key] == settings.GetOr(map[])[key]
    ensures HasAttributeList(settings) ==> settings.value[AttributesKey].items <= r[AttributesKey].items
    ensures forall a :: a in r[AttributesKey].items ==>
      a == CodeSignOnCopy || a == RemoveHeadersOnCopy || (HasAttributeList(settings) && a in settings.value[AttributesKey].items)
    ensures !HasAttributeList(settings) ==> r[AttributesKey].items == [CodeSignOnCopy, RemoveHeadersOnCopy]
    ensures HasAttributeList(settings) ==>
      r[AttributesKey].items == AppendMissing(AppendMissing(settings.value[AttributesKey].items, CodeSignOnCopy), RemoveHeadersOnCopy)
    ensures HasAttributeList(settings) && CodeSignOnCopy in settings.value[AttributesKey].items
            && RemoveHeadersOnCopy in settings.value[AttributesKey].items ==>
      r[AttributesKey] == settings.value[AttributesKey]
  {
    var s := settings.GetOr(map[]);
    if AttributesKey in s && s[AttributesKey].StringList? then
      s[AttributesKey := StringList(AppendMissing(AppendMissing(s[AttributesKey].items, CodeSignOnCopy), RemoveHeadersOnCopy))]
    else
      s[AttributesKey := StringList([CodeSignOnCopy, RemoveHeadersOnCopy])]
  }

  /** Embedding a build file twice gives it the same settings as embedding it once. */
  lemma MergeAttributesIdempotent(settings: Option<Settings>)
    ensures MergeAttributes(Some(MergeAttributes(settings))) == MergeAttributes(settings)
  {
    var once := MergeAttributes(settings);
    var items := once[AttributesKey].items;
    assert AppendMissing(AppendMissing(items, CodeSignOnCopy), RemoveHeadersOnCopy) == items;
    assert once[AttributesKey := StringList(items)] == once;
  }

  /** Although this command is the one "without signing", the listing shows every build
      file it embedded as "Embed & Sign": it sets `CodeSignOnCopy`. */
  lemma EmbedListsAsSigned(settings: Option<Settings>)
    ensures ListCommand.EmbeddingStatus(Some(MergeAttributes(settings))) == ListCommand.EmbedAndSign
  {
    assert ListCommand.SignsOnCopy(Some(MergeAttributes(settings)));
  }

  /** A build file after `embedFramework`: the same file, with both attributes, shown
      by the listing as "Embed & Sign". */
  function Merged(file: BuildFile): (r: BuildFile)
    ensures r.file == file.file
    ensures HasAttributeList(r.settings)
    ensures CodeSignOnCopy in r.settings.value[AttributesKey].items
    ensures RemoveHeadersOnCopy in r.settings.value[AttributesKey].items
    ensures ListCommand.EmbeddingStatus(r.settings) == ListCommand.EmbedAndSign
  {
    EmbedListsAsSigned(file.settings);
    file.(settings := Some(MergeAttributes(file.settings)))
  }

  // ----- The command on the graph -----

  /** `embedFramework(buildFile:forTarget:in:)` for build file `id` of target `t`. */
  function EmbedStep(g: Graph, t: nat, id: BuildFileId, lib: Library): (r: Graph)
    requires t < |g.nativeTargets| && id < |g.objects|
    ensures |r.nativeTargets| == |g.nativeTargets| && |r.objects| == |g.objects|
  {
    Graph(g.nativeTargets[t := Target(Attach(g.nativeTargets[t].buildPhases, id, lib.equal))],
          g.objects[id := Merged(g.objects[id])])
  }

  /** The target loop from target `t` on, embedding the hits `found`. */
  function EmbedAll(g: Graph, found: seq<Option<Hit>>, t: nat, lib: Library): (r: Graph)
    requires |found| == |g.nativeTargets| && Fits(found, |g.objects|) && t <= |found|
    ensures |r.nativeTargets| == |g.nativeTargets| && |r.objects| == |g.objects|
    decreases |found| - t
  {
    if t == |found| then g
    else
      match found[t]
      case None => EmbedAll(g, found, t + 1, lib)
      case Some(hit) => EmbedAll(EmbedStep(g, t, hit.id, lib), found, t + 1, lib)
  }

  /** The target loop for one framework name: the graph it leaves and the paths it appends
      to `updatedFrameworks`. Embedding changes no frameworks phase and no path, so the
      hits it meets are those of the graph it starts from (see `FoundUnchanged`). */
  function EmbedInTargets(g: Graph, name: string, lib: Library): (r: (Graph, seq<string>))
    requires lib.Sound()
    ensures |r.0.nativeTargets| == |g.nativeTargets| && |r.0.objects| == |g.objects|
  {
    var found := Found(g, name, lib);
    (EmbedAll(g, found, 0, lib), Paths(found))
  }

  /** Where the run stands: the graph, the updated paths, the names not found. */
  datatype Progress = Progress(graph: Graph, updated: seq<string>, notFound: seq<string>)

  /** The framework loop, from name `i` on. */
  function EmbedFrom(g: Graph, frameworks: seq<string>, i: nat, lib: Library): (r: Progress)
    requires lib.Sound() && i <= |frameworks|
    ensures |r.graph.nativeTargets| == |g.nativeTargets| && |r.graph.objects| == |g.objects|
    decreases |frameworks| - i, 1
  {
    if i == |frameworks| then Progress(g, [], [])
    else EmbedRest(frameworks, i, EmbedInTargets(g, frameworks[i], lib), lib)
  }

  /** The framework loop once name `i` has been searched for: the warning when nothing
      was updated for it, then the remaining names. */
  function EmbedRest(frameworks: seq<string>, i: nat, searched: (Graph, seq<string>), lib: Library): (r: Progress)
    requires lib.Sound() && i < |frameworks|
    ensures |r.graph.nativeTargets| == |searched.0.nativeTargets| && |r.graph.objects| == |searched.0.objects|
    decreases |frameworks| - i, 0
  {
    var (next, updated) := searched;
    var rest := EmbedFrom(next, frameworks, i + 1, lib);
    Progress(rest.graph, updated + rest.updated, (if updated == [] then [frameworks[i]] else []) + rest.notFound)
  }

  /** One pass of the framework loop. */
  lemma EmbedFromStep(g: Graph, frameworks: seq<string>, i: nat, lib: Library)
    requires lib.Sound() && i < |frameworks|
    ensures var (next, updated) := EmbedInTargets(g, frameworks[i], lib);
      var rest := EmbedFrom(next, frameworks, i + 1, lib);
      EmbedFrom(g, frameworks, i, lib)
        == Progress(rest.graph, updated + rest.updated, (if updated == [] then [frameworks[i]] else []) + rest.notFound)
  {
  }

  // ----- What a run keeps and what it achieves -----

  /** How the run may have changed `g0` into `g`: no object added; each object as it was
      or as embedded; the phases of each target grown as `PhasesGrown` allows; frameworks
      phases as they were. */
  ghost predicate Changed(g0: Graph, g: Graph, lib: Library)
    requires lib.Sound()
  {
    ObjectsMerged(g0.objects, g.objects) && TargetsGrown(g0, g, lib)
  }

  /** The object table part of `Changed`. */
  ghost predicate ObjectsMerged(before: seq<BuildFile>, after: seq<BuildFile>) {
    && |after| == |before|
    && forall x :: 0 <= x < |before| ==> after[x] == before[x] || after[x] == Merged(before[x])
  }

  lemma MergeObject(before: seq<BuildFile>, objects: seq<BuildFile>, id: BuildFileId)
    requires ObjectsMerged(before, objects) && id < |objects|
    ensures ObjectsMerged(before, objects[id := Merged(objects[id])])
  {
    MergeAttributesIdempotent(before[id].settings);
    assert Merged(Merged(before[id])) == Merged(before[id]);
  }

  lemma ChangedReflexive(g: Graph, lib: Library)
    requires lib.Sound()
    ensures Changed(g, g, lib)
  {
  }

  /** A changed graph has the hits of the graph it was changed from. */
  lemma FoundUnchanged(g0: Graph, g: Graph, name: string, lib: Library)
    requires lib.Sound() && Changed(g0, g, lib)
    ensures Found(g, name, lib) == Found(g0, name, lib)
  {
    forall u, x | 0 <= u < |g0.nativeTargets| && x in FrameworksFiles(g0.nativeTargets[u], lib)
      ensures PathOf(g.objects, x) == PathOf(g0.objects, x)
    {
      if x < |g0.objects| {
        assert g.objects[x].file == g0.objects[x].file;
      }
    }
    SameHits(g0, g, name, lib);
  }

  lemma EmbedStepChanged(g0: Graph, g: Graph, t: nat, id: BuildFileId, lib: Library)
    requires lib.Sound() && lib.Stable() && Changed(g0, g, lib)
    requires t < |g.nativeTargets| && id < |g.objects|
    ensures Changed(g0, EmbedStep(g, t, id, lib), lib)
  {
    MergeObject(g0.objects, g.objects, id);
    AttachTargetsGrown(g0, g, t, id, g.objects[id := Merged(g.objects[id])], lib);
  }

  /** One pass of the target loop keeps the graph within what the run may change. */
  lemma EmbedAllStep(g0: Graph, g: Graph, found: seq<Option<Hit>>, t: nat, lib: Library)
    requires lib.Sound() && lib.Stable() && Changed(g0, g, lib)
    requires |found| == |g.nativeTargets| && Fits(found, |g.objects|) && t < |found|
    ensures var next := if found[t].Some? then EmbedStep(g, t, found[t].value.id, lib) else g;
      && Changed(g0, next, lib)
      && EmbedAll(g, found, t, lib) == EmbedAll(next, found, t + 1, lib)
  {
    if found[t].Some? {
      EmbedStepChanged(g0, g, t, found[t].value.id, lib);
    }
  }

  lemma {:induction false} EmbedAllChanged(g0: Graph, g: Graph, found: seq<Option<Hit>>, t: nat, lib: Library)
    requires lib.Sound() && lib.Stable() && Changed(g0, g, lib)
    requires |found| == |g.nativeTargets| && Fits(found, |g.objects|) && t <= |found|
    ensures Changed(g0, EmbedAll(g, found, t, lib), lib)
    decreases |found| - t
  {
    if t < |found| {
      match found[t]
      case None =>
        EmbedAllChanged(g0, g, found, t + 1, lib);
      case Some(hit) =>
        EmbedStepChanged(g0, g, t, hit.id, lib);
        EmbedAllChanged(g0, EmbedStep(g, t, hit.id, lib), found, t + 1, lib);
    }
  }

  lemma EmbedInTargetsChanged(g0: Graph, g: Graph, name: string, lib: Library)
    requires lib.Sound() && lib.Stable() && Changed(g0, g, lib)
    ensures Changed(g0, EmbedInTargets(g, name, lib).0, lib)
  {
    EmbedAllChanged(g0, g, Found(g, name, lib), 0, lib);
  }

  lemma {:induction false} EmbedFromChanged(g0: Graph, g: Graph, frameworks: seq<string>, i: nat, lib: Library)
    requires lib.Sound() && lib.Stable() && Changed(g0, g, lib) && i <= |frameworks|
    ensures Changed(g0, EmbedFrom(g, frameworks, i, lib).graph, lib)
    decreases |frameworks| - i
  {
    if i < |frameworks| {
      EmbedInTargetsChanged(g0, g, frameworks[i], lib);
      EmbedFromChanged(g0, EmbedInTargets(g, frameworks[i], lib).0, frameworks, i + 1, lib);
    }
  }

  /** What the run for `names` may have touched: only targets with a hit for one of the
      names, and only build files that are such a hit. */
  ghost predicate Confined(g0: Graph, g: Graph, names: seq<string>, lib: Library)
    requires lib.Sound()
  {
    && OnlyHitTargets(g0, g, names, lib)
    && |g.objects| == |g0.objects|
    && forall x :: 0 <= x < |g0.objects| && g.objects[x] != g0.objects[x] ==> HitFile(g0, names, x, lib)
  }

  lemma EmbedStepConfined(g0: Graph, g: Graph, names: seq<string>, name: string, t: nat, lib: Library)
    requires lib.Sound() && Confined(g0, g, names, lib)
    requires name in names && t < |g0.nativeTargets| && HitAt(g0, name, t, lib).Some?
    ensures Confined(g0, EmbedStep(g, t, HitAt(g0, name, t, lib).value.id, lib), names, lib)
  {
    var id := HitAt(g0, name, t, lib).value.id;
    var objects := g.objects[id := Merged(g.objects[id])];
    AttachHitTarget(g0, g, names, name, t, id, objects, lib);
    assert HitFile(g0, names, id, lib);
    forall x | 0 <= x < |g0.objects| && objects[x] != g0.objects[x]
      ensures HitFile(g0, names, x, lib)
    {
      if x != id {
        assert objects[x] == g.objects[x];
      }
    }
  }

  lemma {:induction false} EmbedAllConfined(g0: Graph, g: Graph, names: seq<string>, name: string, t: nat, lib: Library)
    requires lib.Sound() && Confined(g0, g, names, lib) && name in names && t <= |g0.nativeTargets|
    ensures Confined(g0, EmbedAll(g, Found(g0, name, lib), t, lib), names, lib)
    decreases |g0.nativeTargets| - t
  {
    var found := Found(g0, name, lib);
    if t < |found| {
      match found[t]
      case None =>
        EmbedAllConfined(g0, g, names, name, t + 1, lib);
      case Some(hit) =>
        EmbedStepConfined(g0, g, names, name, t, lib);
        EmbedAllConfined(g0, EmbedStep(g, t, hit.id, lib), names, name, t + 1, lib);
    }
  }

  lemma {:induction false} EmbedFromConfined(g0: Graph, g: Graph, frameworks: seq<string>, i: nat, lib: Library)
    requires lib.Sound() && lib.Stable() && Changed(g0, g, lib) && Confined(g0, g, frameworks, lib) && i <= |frameworks|
    ensures Confined(g0, EmbedFrom(g, frameworks, i, lib).graph, frameworks, lib)
    decreases |frameworks| - i
  {
    if i < |frameworks| {
      var name := frameworks[i];
      FoundUnchanged(g0, g, name, lib);
      EmbedAllConfined(g0, g, frameworks, name, 0, lib);
      EmbedInTargetsChanged(g0, g, name, lib);
      EmbedFromConfined(g0, EmbedInTargets(g, name, lib).0, frameworks, i + 1, lib);
    }
  }

  /** A run changes nothing but the settings of the build files it embeds (the same way
      however often) and the embed phases of the targets they are found in: each such
      phase only gains files at the end, a target without one gains one "Embed
      Frameworks" phase, and every other phase, every other target and every other build
      file stays as it was. */
  lemma OnlyEmbeddingChanges(g: Graph, frameworks: seq<string>, lib: Library)
    requires lib.Sound() && lib.Stable()
    ensures Changed(g, EmbedFrom(g, frameworks, 0, lib).graph, lib)
    ensures Confined(g, EmbedFrom(g, frameworks, 0, lib).graph, frameworks, lib)
  {
    ChangedReflexive(g, lib);
    EmbedFromChanged(g, g, frameworks, 0, lib);
    EmbedFromConfined(g, g, frameworks, 0, lib);
  }

  /** The target loop appends nothing exactly when no target has a hit for the name. */
  lemma EmbedInTargetsEmpty(g: Graph, name: string, lib: Library)
    requires lib.Sound()
    ensures EmbedInTargets(g, name, lib).1 == [] <==> NoMatch(g, name, lib)
  {
    var found := Found(g, name, lib);
    assert forall u :: 0 <= u < |found| ==> (found[u].None? <==> TargetMatch(g.nativeTargets[u], g.objects, name, lib).None?);
  }

  lemma {:induction false} EmbedFromReports(g0: Graph, g: Graph, frameworks: seq<string>, i: nat, lib: Library)
    requires lib.Sound() && lib.Stable() && Changed(g0, g, lib) && i <= |frameworks|
    ensures forall name :: name in EmbedFrom(g, frameworks, i, lib).notFound <==> name in frameworks[i..] && NoMatch(g0, name, lib)
    ensures EmbedFrom(g, frameworks, i, lib).updated == [] <==> forall name :: name in frameworks[i..] ==> NoMatch(g0, name, lib)
    decreases |frameworks| - i
  {
    if i < |frameworks| {
      var name := frameworks[i];
      var (next, updated) := EmbedInTargets(g, name, lib);
      EmbedInTargetsEmpty(g, name, lib);
      EmbedInTargetsEmpty(g0, name, lib);
      FoundUnchanged(g0, g, name, lib);
      assert updated == [] <==> NoMatch(g0, name, lib);
      EmbedInTargetsChanged(g0, g, name, lib);
      EmbedFromReports(g0, next, frameworks, i + 1, lib);
      DropOne(frameworks, i);
    }
  }

  /** A name is reported as not found exactly when no target's frameworks phase has a
      build file whose path contains it; nothing is reported as updated exactly when
      that holds of every name. */
  lemma Reports(g: Graph, frameworks: seq<string>, lib: Library)
    requires lib.Sound() && lib.Stable()
    ensures forall name :: name in EmbedFrom(g, frameworks, 0, lib).notFound <==> name in frameworks && NoMatch(g, name, lib)
    ensures EmbedFrom(g, frameworks, 0, lib).updated == [] <==> forall name :: name in frameworks ==> NoMatch(g, name, lib)
  {
    ChangedReflexive(g, lib);
    EmbedFromReports(g, g, frameworks, 0, lib);
    DropNone(frameworks);
  }

  /** Build file `id` carries both attributes and sits in target `u`'s embed phase. */
  ghost predicate Done(g: Graph, u: nat, id: BuildFileId, lib: Library)
    requires u < |g.nativeTargets|
  {
    && id < |g.objects|
    && HasAttributeList(g.objects[id].settings)
    && CodeSignOnCopy in g.objects[id].settings.value[AttributesKey].items
    && RemoveHeadersOnCopy in g.objects[id].settings.value[AttributesKey].items
    && Embedded(g.nativeTargets[u].buildPhases, id, lib.equal)
  }

  lemma EmbedStepKeepsDone(g: Graph, t: nat, id: BuildFileId, u: nat, y: BuildFileId, lib: Library)
    requires t < |g.nativeTargets| && id < |g.objects| && u < |g.nativeTargets|
    requires Done(g, u, y, lib)
    ensures Done(EmbedStep(g, t, id, lib), u, y, lib)
  {
    if u == t {
      AttachKeepsEmbedded(g.nativeTargets[t].buildPhases, id, y, lib.equal);
    }
  }

  lemma EmbedStepDone(g: Graph, t: nat, id: BuildFileId, lib: Library)
    requires t < |g.nativeTargets| && id < |g.objects|
    ensures Done(EmbedStep(g, t, id, lib), t, id, lib)
  {
    AttachEmbeds(g.nativeTargets[t].buildPhases, id, lib.equal);
  }

  lemma {:induction false} EmbedAllKeepsDone(g: Graph, found: seq<Option<Hit>>, t: nat, u: nat, y: BuildFileId, lib: Library)
    requires |found| == |g.nativeTargets| && Fits(found, |g.objects|) && t <= |found|
    requires u < |found| && Done(g, u, y, lib)
    ensures Done(EmbedAll(g, found, t, lib), u, y, lib)
    decreases |found| - t
  {
    if t < |found| {
      match found[t]
      case None =>
        EmbedAllKeepsDone(g, found, t + 1, u, y, lib);
      case Some(hit) =>
        EmbedStepKeepsDone(g, t, hit.id, u, y, lib);
        EmbedAllKeepsDone(EmbedStep(g, t, hit.id, lib), found, t + 1, u, y, lib);
    }
  }

  lemma {:induction false} EmbedAllDone(g: Graph, found: seq<Option<Hit>>, t: nat, lib: Library)
    requires |found| == |g.nativeTargets| && Fits(found, |g.objects|) && t <= |found|
    ensures forall u :: t <= u < |found| && found[u].Some? ==> Done(EmbedAll(g, found, t, lib), u, found[u].value.id, lib)
    decreases |found| - t
  {
    if t < |found| {
      match found[t]
      case None =>
        EmbedAllDone(g, found, t + 1, lib);
      case Some(hit) =>
        var next := EmbedStep(g, t, hit.id, lib);
        EmbedStepDone(g, t, hit.id, lib);
        EmbedAllKeepsDone(next, found, t + 1, t, hit.id, lib);
        EmbedAllDone(next, found, t + 1, lib);
    }
  }

  lemma {:induction false} EmbedFromKeepsDone(g: Graph, frameworks: seq<string>, i: nat, u: nat, y: BuildFileId, lib: Library)
    requires lib.Sound() && i <= |frameworks| && u < |g.nativeTargets| && Done(g, u, y, lib)
    ensures Done(EmbedFrom(g, frameworks, i, lib).graph, u, y, lib)
    decreases |frameworks| - i
  {
    if i < |frameworks| {
      EmbedFromStep(g, frameworks, i, lib);
      EmbedAllKeepsDone(g, Found(g, frameworks[i], lib), 0, u, y, lib);
      EmbedFromKeepsDone(EmbedInTargets(g, frameworks[i], lib).0, frameworks, i + 1, u, y, lib);
    }
  }

  lemma {:induction false} EmbedFromDone(g: Graph, frameworks: seq<string>, i: nat, lib: Library)
    requires lib.Sound() && lib.Stable() && i <= |frameworks|
    ensures forall name, u :: name in frameworks[i..] && 0 <= u < |g.nativeTargets| && Found(g, name, lib)[u].Some? ==>
      Done(EmbedFrom(g, frameworks, i, lib).graph, u, Found(g, name, lib)[u].value.id, lib)
    decreases |frameworks| - i
  {
    if i < |frameworks| {
      var first := frameworks[i];
      var found := Found(g, first, lib);
      var next := EmbedInTargets(g, first, lib).0;
      var last := EmbedFrom(g, frameworks, i, lib).graph;
      EmbedFromStep(g, frameworks, i, lib);
      assert last == EmbedFrom(next, frameworks, i + 1, lib).graph;
      EmbedAllDone(g, found, 0, lib);
      EmbedFromDone(next, frameworks, i + 1, lib);
      ChangedReflexive(g, lib);
      EmbedInTargetsChanged(g, g, first, lib);
      forall name, u | name in frameworks[i..] && 0 <= u < |g.nativeTargets| && Found(g, name, lib)[u].Some?
        ensures Done(last, u, Found(g, name, lib)[u].value.id, lib)
      {
        if name == first {
          EmbedFromKeepsDone(next, frameworks, i + 1, u, found[u].value.id, lib);
        } else {
          InRest(frameworks, i, name);
          FoundUnchanged(g, next, name, lib);
        }
      }
    }
  }

  /** After a run, every build file matched for a given name in some target carries both
      attributes and sits in that target's embed phase (or that phase has no file list). */
  lemma EveryMatchEmbedded(g: Graph, frameworks: seq<string>, lib: Library)
    requires lib.Sound() && lib.Stable()
    ensures forall name, u, id :: name in frameworks && 0 <= u < |g.nativeTargets| &&
                                  TargetMatch(g.nativeTargets[u], g.objects, name, lib) == Some(id) ==>
      Done(EmbedFrom(g, frameworks, 0, lib).graph, u, id, lib)
  {
    EmbedFromDone(g, frameworks, 0, lib);
    DropNone(frameworks);
    forall name, u, id | name in frameworks && 0 <= u < |g.nativeTargets| &&
                         TargetMatch(g.nativeTargets[u], g.objects, name, lib) == Some(id)
      ensures Done(EmbedFrom(g, frameworks, 0, lib).graph, u, id, lib)
    {
      assert Found(g, name, lib)[u] == HitAt(g, name, u, lib);
    }
  }

  // ----- The command on the project -----

  lemma EmbedStepResolved(g: Graph, t: nat, id: BuildFileId, lib: Library)
    requires Resolved(g) && t < |g.nativeTargets| && id < |g.objects|
    ensures Resolved(EmbedStep(g, t, id, lib))
  {
    AttachResolved(g.nativeTargets[t].buildPhases, id, lib.equal, |g.objects|);
  }

  /** Lines 84-97 of `embedFramework`: find or create the embed phase and put the build
      file into it unless its list already has an equal one. */
  method AttachFile(phases: seq<BuildPhase>, id: BuildFileId, equal: (BuildFileId, BuildFileId) -> bool)
    returns (result: seq<BuildPhase>)
    ensures result == Attach(phases, id, equal)
  {
    result := phases;
    var index: nat;
    var existing := FirstCopyFilesPhase(Kinds(phases));
    if existing.Some? {
      index := existing.value;
    } else {
      result := result + [NewEmbedPhase];
      index := |result| - 1;
    }
    assert (result, index) == WithEmbedPhase(phases);
    var phase := result[index];
    if !(phase.files.Some? && ContainsFile(phase.files.value, id, equal)) {
      if phase.files.Some? {
        result := result[index := phase.(files := Some(phase.files.value + [id]))];
      }
    }
  }

  /** Lines 100-116 of `embedFramework`: the settings of the embedded build file. */
  method MergeSettings(settings: Option<Settings>) returns (s: Settings)
    ensures s == MergeAttributes(settings)
  {
    var current := settings;
    if current.None? {
      current := Some(map[]);
    }
    s := current.value;
    if AttributesKey in s && s[AttributesKey].StringList? {
      var attributes := s[AttributesKey].items;
      if CodeSignOnCopy !in attributes {
        attributes := attributes + [CodeSignOnCopy];
      }
      if RemoveHeadersOnCopy !in attributes {
        attributes := attributes + [RemoveHeadersOnCopy];
      }
      s := s[AttributesKey := StringList(attributes)];
    } else {
      s := s[AttributesKey := StringList([CodeSignOnCopy, RemoveHeadersOnCopy])];
    }
  }

  /** `embedFramework(buildFile:forTarget:in:)`, in place. */
  method EmbedFramework(project: Project, t: nat, id: BuildFileId, lib: Library)
    requires project.Valid() && t < |project.nativeTargets| && id < |project.objects|
    modifies project
    ensures project.State() == EmbedStep(old(project.State()), t, id, lib)
    ensures project.Valid() && project.writes == old(project.writes)
  {
    EmbedStepResolved(project.State(), t, id, lib);
    var phases := AttachFile(project.nativeTargets[t].buildPhases, id, lib.equal);
    project.nativeTargets := project.nativeTargets[t := Target(phases)];
    var s := MergeSettings(project.objects[id].settings);
    project.objects := project.objects[id := project.objects[id].(settings := Some(s))];
  }

  /** What `run()` reports: the updated paths, the names warned about, and whether the
      write succeeded (a failed write is thrown to the caller). */
  datatype EmbedReport = EmbedReport(updated: seq<string>, notFound: seq<string>, saved: bool)

  /** One pass of the target loop: search target `t`'s frameworks phase and embed the
      first build file whose path contains the name. */
  method EmbedInTarget(project: Project, name: string, t: nat, lib: Library) returns (fileName: Option<string>)
    requires project.Valid() && lib.Sound() && t < |project.nativeTargets|
    modifies project
    ensures var hit := HitAt(old(project.State()), name, t, lib);
      && fileName == (if hit.Some? then Some(hit.value.path) else None)
      && project.State() == (if hit.Some? then EmbedStep(old(project.State()), t, hit.value.id, lib) else old(project.State()))
    ensures project.Valid() && project.writes == old(project.writes)
  {
    fileName := None;
    var target := project.nativeTargets[t];
    var phase := FrameworksPhaseIndex(target, lib);
    if phase.Some? {
      var id := FindMatch(FilesOf(target.buildPhases[phase.value]), project.objects, name);
      if id.Some? {
        fileName := Some(PathOf(project.objects, id.value).value);
        EmbedFramework(project, t, id.value, lib);
      }
    }
  }

  /** Where the target loop for `name` stands after `t` targets of `g0`: the graph `g`
      it reached is within what the run may change, the rest of the loop from `g`
      ends where the whole loop from `g0` does, and `updated` holds the paths of the
      hits so far. */
  ghost predicate Scanned(g0: Graph, g: Graph, name: string, t: nat, updated: seq<string>, lib: Library)
    requires lib.Sound()
  {
    var found := Found(g0, name, lib);
    && |g.nativeTargets| == |g0.nativeTargets|
    && t <= |found|
    && Changed(g0, g, lib)
    && Fits(found, |g.objects|)
    && EmbedAll(g, found, t, lib) == EmbedAll(g0, found, 0, lib)
    && updated == Paths(found[..t])
  }

  lemma ScanStart(g: Graph, name: string, lib: Library)
    requires lib.Sound()
    ensures Scanned(g, g, name, 0, [], lib)
  {
    ChangedReflexive(g, lib);
  }

  /** One pass of the target loop: the hit of target `t` in the graph reached is the
      one the loop from `g0` meets. */
  lemma ScanStep(g0: Graph, g: Graph, name: string, t: nat, updated: seq<string>, lib: Library)
    requires lib.Sound() && lib.Stable() && Scanned(g0, g, name, t, updated, lib) && t < |g.nativeTargets|
    ensures var hit := HitAt(g, name, t, lib);
      && (hit.Some? ==> hit.value.id < |g.objects|)
      && Scanned(g0, if hit.Some? then EmbedStep(g, t, hit.value.id, lib) else g, name, t + 1,
                 updated + (if hit.Some? then [hit.value.path] else []), lib)
  {
    var found := Found(g0, name, lib);
    FoundUnchanged(g0, g, name, lib);
    assert found[t] == HitAt(g, name, t, lib);
    EmbedAllStep(g0, g, found, t, lib);
    PathsSnoc(found, t);
  }

  lemma ScanDone(g0: Graph, g: Graph, name: string, updated: seq<string>, lib: Library)
    requires lib.Sound() && Scanned(g0, g, name, |g.nativeTargets|, updated, lib)
    ensures (g, updated) == EmbedInTargets(g0, name, lib)
  {
    var found := Found(g0, name, lib);
    assert found[..|found|] == found;
  }

  /** The target loop of `run()` for one framework name. */
  method EmbedName(project: Project, name: string, lib: Library) returns (updated: seq<string>)
    requires project.Valid() && lib.Sound() && lib.Stable()
    modifies project
    ensures var r := EmbedInTargets(old(project.State()), name, lib);
      project.State() == r.0 && updated == r.1
    ensures project.Valid() && project.writes == old(project.writes)
  {
    ghost var g0 := project.State();
    ScanStart(g0, name, lib);
    updated := [];
    var t := 0;
    while t < |project.nativeTargets|
      invariant project.Valid() && project.writes == old(project.writes)
      invariant Scanned(g0, project.State(), name, t, updated, lib)
    {
      ScanStep(g0, project.State(), name, t, updated, lib);
      var fileName := EmbedInTarget(project, name, t, lib);
      updated := updated + if fileName.Some? then [fileName.value] else [];
      t := t + 1;
    }
    ScanDone(g0, project.State(), name, updated, lib);
  }

  /** One pass of the framework loop of `run()`: search every target for the name, and
      remember it for the warning when nothing was updated. */
  method SearchFramework(project: Project, frameworks: seq<string>, i: nat, lib: Library,
                         updatedFrameworks: seq<string>, notFound: seq<string>)
    returns (updatedAfter: seq<string>, notFoundAfter: seq<string>)
    requires project.Valid() && lib.Sound() && lib.Stable() && i < |frameworks|
    modifies project
    ensures project.Valid() && project.writes == old(project.writes)
    ensures var before := EmbedFrom(old(project.State()), frameworks, i, lib);
      var after := EmbedFrom(project.State(), frameworks, i + 1, lib);
      && after.graph == before.graph
      && updatedAfter + after.updated == updatedFrameworks + before.updated
      && notFoundAfter + after.notFound == notFound + before.notFound
  {
    EmbedFromStep(project.State(), frameworks, i, lib);
    var framework := frameworks[i];
    var updated := EmbedName(project, framework, lib);
    ghost var after := EmbedFrom(project.State(), frameworks, i + 1, lib);
    var foundFramework := updated != [];
    var warned := if foundFramework then [] else [framework];
    updatedAfter := updatedFrameworks + updated;
    notFoundAfter := notFound + warned;
    Regroup(updatedFrameworks, updated, after.updated);
    Regroup(notFound, warned, after.notFound);
  }

  /** `run()`: every framework name in turn, then the write. */
  method Run(project: Project, frameworks: seq<string>, lib: Library, writeOk: bool) returns (report: EmbedReport)
    requires project.Valid() && lib.Sound() && lib.Stable()
    modifies project
    ensures project.Valid() && project.writes == old(project.writes) + 1
    ensures var p := EmbedFrom(old(project.State()), frameworks, 0, lib);
      project.State() == p.graph && report == EmbedReport(p.updated, p.notFound, writeOk)
  {
    ghost var final := EmbedFrom(project.State(), frameworks, 0, lib);
    var updatedFrameworks: seq<string> := [];
    var notFound: seq<string> := [];
    var i := 0;
    while i < |frameworks|
      invariant i <= |frameworks|
      invariant project.Valid() && project.writes == old(project.writes)
      invariant var rest := EmbedFrom(project.State(), frameworks, i, lib);
        && rest.graph == final.graph
        && updatedFrameworks + rest.updated == final.updated
        && notFound + rest.notFound == final.notFound
    {
      updatedFrameworks, notFound := SearchFramework(project, frameworks, i, lib, updatedFrameworks, notFound);
      i := i + 1;
    }
    project.writes := project.writes + 1;
    report := EmbedReport(updatedFrameworks, notFound, writeOk);
  }
}
