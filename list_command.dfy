/** `list`: one row per framework met in a frameworks phase or in the phase named
    "Embed Frameworks", with its type and embedding status, sorted by name. */
module ListCommand {
  import opened XcodeGraph
  import opened Models
  import opened Strings

  const XCFrameworkType := "XCFramework"
  const FrameworkType := "Framework"
  const DoNotEmbed := "Do Not Embed"
  const EmbedWithoutSigning := "Embed Without Signing"
  const EmbedAndSign := "Embed & Sign"

  /** The type column: decided by the `.xcframework` suffix of the full path. */
  function TypeOf(path: string): (r: string)
    ensures r == XCFrameworkType <==> HasSuffix(path, ".xcframework")
    ensures r == XCFrameworkType || r == FrameworkType
  {
    if HasSuffix(path, ".xcframework") then XCFrameworkType else FrameworkType
  }

  /** The settings hold an `ATTRIBUTES` list of strings that contains `CodeSignOnCopy`. */
  predicate SignsOnCopy(settings: Option<Settings>) {
    && settings.Some?
    && AttributesKey in settings.value
    && settings.value[AttributesKey].StringList?
    && CodeSignOnCopy in settings.value[AttributesKey].items
  }

  /** The status of a build file of the embed phase. */
  function EmbeddingStatus(settings: Option<Settings>): (r: string)
    ensures r == EmbedAndSign <==> SignsOnCopy(settings)
    ensures r != DoNotEmbed
  {
    if SignsOnCopy(settings) then EmbedAndSign else EmbedWithoutSigning
  }

  /** A copy-files phase named "Embed Frameworks". */
  predicate IsEmbedPhase(kind: PhaseKind) {
    kind == CopyFiles(Some(EmbedFrameworksName))
  }

  /** The phases whose build files the listing looks at. */
  predicate IsListed(kind: PhaseKind) {
    kind == Frameworks || IsEmbedPhase(kind)
  }

  /** A build file met by the listing, with the kind of the phase it was met in. */
  datatype Entry = Entry(kind: PhaseKind, id: BuildFileId)

  function PhaseEntries(phase: BuildPhase): (r: seq<Entry>)
    ensures |r| == if IsListed(phase.kind) then |FilesOf(phase)| else 0
    ensures forall i :: 0 <= i < |r| ==> r[i] == Entry(phase.kind, FilesOf(phase)[i])
  {
    if IsListed(phase.kind) then seq(|FilesOf(phase)|, i requires 0 <= i < |FilesOf(phase)| => Entry(phase.kind, FilesOf(phase)[i]))
    else []
  }

  /** The entries of a target's phases, phase by phase. */
  function TargetEntries(phases: seq<BuildPhase>): seq<Entry> {
    if |phases| == 0 then []
    else TargetEntries(phases[..|phases| - 1]) + PhaseEntries(phases[|phases| - 1])
  }

  /** The entries of all targets, in the order the listing meets them. */
  function Entries(targets: seq<Target>): seq<Entry> {
    if |targets| == 0 then []
    else Entries(targets[..|targets| - 1]) + TargetEntries(targets[|targets| - 1].buildPhases)
  }

  lemma TargetEntriesPrefix(phases: seq<BuildPhase>, k: nat)
    requires k < |phases|
    ensures TargetEntries(phases[..k + 1]) == TargetEntries(phases[..k]) + PhaseEntries(phases[k])
  {
    assert phases[..k + 1][..k] == phases[..k];
  }

  lemma EntriesPrefix(targets: seq<Target>, t: nat)
    requires t < |targets|
    ensures Entries(targets[..t + 1]) == Entries(targets[..t]) + TargetEntries(targets[t].buildPhases)
  {
    assert targets[..t + 1][..t] == targets[..t];
  }

  // ----- Rows -----

  function Names(rows: seq<FrameworkInfo>): set<string> {
    set k | 0 <= k < |rows| :: rows[k].name
  }

  lemma NamesAppend(rows: seq<FrameworkInfo>, info: FrameworkInfo)
    ensures Names(rows + [info]) == Names(rows) + {info.name}
  {
    var r := rows + [info];
    assert r[|rows|].name == info.name;
    forall name | name in Names(rows)
      ensures name in Names(r)
    {
      var k :| 0 <= k < |rows| && rows[k].name == name;
      assert r[k] == rows[k];
    }
  }

  /** Rows whose names are the same, position by position, have the same names. */
  lemma SameNameColumn(a: seq<FrameworkInfo>, b: seq<FrameworkInfo>)
    requires |a| == |b|
    requires forall k :: 0 <= k < |a| ==> a[k].name == b[k].name
    ensures Names(a) == Names(b)
  {
    forall name | name in Names(a)
      ensures name in Names(b)
    {
      var k :| 0 <= k < |a| && a[k].name == name;
    }
    forall name | name in Names(b)
      ensures name in Names(a)
    {
      var k :| 0 <= k < |b| && b[k].name == name;
    }
  }

  /** `frameworksInfo.firstIndex(where: { $0.name == name })` */
  function FirstIndexOfName(rows: seq<FrameworkInfo>, name: string): (r: Option<nat>)
    ensures r.Some? ==> r.value < |rows| && rows[r.value].name == name
    ensures r.Some? ==> forall k :: 0 <= k < r.value ==> rows[k].name != name
    ensures r.None? <==> name !in Names(rows)
  {
    if |rows| == 0 then None
    else if rows[0].name == name then Some(0)
    else
      var rest := FirstIndexOfName(rows[1..], name);
      assert name in Names(rows) <==> name in Names(rows[1..]) by {
        if name in Names(rows) {
          var k :| 0 <= k < |rows| && rows[k].name == name;
          assert rows[1..][k - 1] == rows[k];
        }
        if name in Names(rows[1..]) {
          var k :| 0 <= k < |rows| - 1 && rows[1..][k].name == name;
          assert rows[k + 1] == rows[1..][k];
        }
      }
      match rest
      case None => None
      case Some(k) => Some(k + 1)
  }

  lemma FirstIndexUnique(rows: seq<FrameworkInfo>, name: string, i: nat)
    requires i < |rows| && rows[i].name == name
    requires forall k :: 0 <= k < i ==> rows[k].name != name
    ensures FirstIndexOfName(rows, name) == Some(i)
  {
  }

  lemma ReplaceFacts(rows: seq<FrameworkInfo>, i: nat, info: FrameworkInfo)
    requires FirstIndexOfName(rows, info.name) == Some(i)
    ensures var r := rows[i := info];
      && Names(r) == Names(rows)
      && FirstIndexOfName(r, info.name) == Some(i)
      && forall name :: name != info.name ==> FirstIndexOfName(r, name) == FirstIndexOfName(rows, name)
  {
    var r := rows[i := info];
    FirstIndexUnique(r, info.name, i);
    SameNameColumn(r, rows);
    forall name | name != info.name
      ensures FirstIndexOfName(r, name) == FirstIndexOfName(rows, name)
    {
      if FirstIndexOfName(rows, name).Some? {
        FirstIndexUnique(r, name, FirstIndexOfName(rows, name).value);
      }
    }
  }

  lemma AppendFacts(rows: seq<FrameworkInfo>, info: FrameworkInfo)
    ensures var r := rows + [info];
      && Names(r) == Names(rows) + {info.name}
      && (info.name !in Names(rows) ==> FirstIndexOfName(r, info.name) == Some(|rows|))
      && forall name :: name in Names(rows) ==> FirstIndexOfName(r, name) == FirstIndexOfName(rows, name)
  {
    var r := rows + [info];
    NamesAppend(rows, info);
    if info.name !in Names(rows) {
      FirstIndexUnique(r, info.name, |rows|);
    }
    forall name | name in Names(rows)
      ensures FirstIndexOfName(r, name) == FirstIndexOfName(rows, name)
    {
      FirstIndexUnique(r, name, FirstIndexOfName(rows, name).value);
    }
  }

  /** Replace the first row with the same name, or append when there is none. */
  function Upsert(rows: seq<FrameworkInfo>, info: FrameworkInfo): (r: seq<FrameworkInfo>)
    ensures Names(r) == Names(rows) + {info.name}
    ensures |r| == |rows| + (if info.name in Names(rows) then 0 else 1)
    ensures FirstIndexOfName(r, info.name).Some? && r[FirstIndexOfName(r, info.name).value] == info
    ensures forall name :: name != info.name ==> FirstIndexOfName(r, name) == FirstIndexOfName(rows, name)
    ensures forall k :: 0 <= k < |rows| && rows[k].name != info.name ==> r[k] == rows[k]
  {
    match FirstIndexOfName(rows, info.name)
    case Some(i) =>
      ReplaceFacts(rows, i, info);
      rows[i := info]
    case None =>
      AppendFacts(rows, info);
      rows + [info]
  }

  /** What one entry does to the rows: a frameworks-phase file with a path is appended
      as "Do Not Embed"; an embed-phase file with a path replaces the first row of the
      same name, or is appended. */
  function EntryStep(rows: seq<FrameworkInfo>, e: Entry, objects: seq<BuildFile>): seq<FrameworkInfo> {
    match PathOf(objects, e.id)
    case None => rows
    case Some(path) =>
      var name := LastPathComponent(path);
      if e.kind == Frameworks then rows + [Classified(name, TypeOf(path), DoNotEmbed)]
      else Upsert(rows, Classified(name, TypeOf(path), EmbeddingStatus(objects[e.id].settings)))
  }

  /** One entry leaves the rows alone when its build file has no path; a frameworks-phase
      file adds one row at the end, shown as "Do Not Embed"; an embed-phase file puts its
      status in the first row of its name and leaves the rows of other names alone. At
      most one row is added. */
  lemma EntryStepRows(rows: seq<FrameworkInfo>, e: Entry, objects: seq<BuildFile>)
    ensures var r := EntryStep(rows, e, objects);
      && (PathOf(objects, e.id).None? ==> r == rows)
      && |r| <= |rows| + 1
      && (PathOf(objects, e.id).Some? && e.kind == Frameworks ==>
            && rows <= r && |r| == |rows| + 1
            && r[|rows|].name == LastPathComponent(PathOf(objects, e.id).value) && r[|rows|].isEmbedded == DoNotEmbed)
      && (PathOf(objects, e.id).Some? && e.kind != Frameworks ==>
            var name := LastPathComponent(PathOf(objects, e.id).value);
            && FirstIndexOfName(r, name).Some?
            && r[FirstIndexOfName(r, name).value].isEmbedded == EmbeddingStatus(objects[e.id].settings)
            && forall k :: 0 <= k < |rows| && rows[k].name != name ==> r[k] == rows[k])
  {
  }

  /** The rows collected from a sequence of entries, before sorting. */
  function Collected(es: seq<Entry>, objects: seq<BuildFile>): (r: seq<FrameworkInfo>)
    ensures |r| <= |es|
  {
    if |es| == 0 then []
    else
      var rows := Collected(es[..|es| - 1], objects);
      EntryStepRows(rows, es[|es| - 1], objects);
      EntryStep(rows, es[|es| - 1], objects)
  }

  function CollectedRows(g: Graph): seq<FrameworkInfo> {
    Collected(Entries(g.nativeTargets), g.objects)
  }

  lemma CollectedSnoc(es: seq<Entry>, e: Entry, objects: seq<BuildFile>)
    ensures Collected(es + [e], objects) == EntryStep(Collected(es, objects), e, objects)
  {
    assert (es + [e])[..|es|] == es;
  }

  // ----- What the rows say -----

  /** A row of the listing: a last path component, one of the two types, one of the
      three statuses, counted once. */
  ghost predicate WellFormed(info: FrameworkInfo) {
    && '/' !in info.name
    && info.count == 1
    && (info.kind == XCFrameworkType || info.kind == FrameworkType)
    && (info.isEmbedded == DoNotEmbed || info.isEmbedded == EmbedWithoutSigning || info.isEmbedded == EmbedAndSign)
  }

  lemma EntryStepWellFormed(rows: seq<FrameworkInfo>, e: Entry, objects: seq<BuildFile>)
    requires forall info :: info in rows ==> WellFormed(info)
    ensures forall info :: info in EntryStep(rows, e, objects) ==> WellFormed(info)
  {
    match PathOf(objects, e.id)
    case None =>
    case Some(path) =>
      var name := LastPathComponent(path);
      if e.kind == Frameworks {
        assert WellFormed(Classified(name, TypeOf(path), DoNotEmbed));
      } else {
        var info := Classified(name, TypeOf(path), EmbeddingStatus(objects[e.id].settings));
        assert WellFormed(info);
        UpsertElements(rows, info);
      }
  }

  lemma UpsertElements(rows: seq<FrameworkInfo>, info: FrameworkInfo)
    ensures forall x :: x in Upsert(rows, info) ==> x in rows || x == info
  {
    var r := Upsert(rows, info);
    forall x | x in r
      ensures x in rows || x == info
    {
      var k :| 0 <= k < |r| && r[k] == x;
      if k < |rows| && rows[k].name != info.name {
        assert r[k] == rows[k];
      }
    }
  }

  lemma {:induction false} CollectedWellFormed(es: seq<Entry>, objects: seq<BuildFile>)
    ensures forall info :: info in Collected(es, objects) ==> WellFormed(info)
  {
    if |es| > 0 {
      CollectedWellFormed(es[..|es| - 1], objects);
      EntryStepWellFormed(Collected(es[..|es| - 1], objects), es[|es| - 1], objects);
    }
  }

  /** The names a sequence of entries brings to the listing. */
  ghost function ListedNames(es: seq<Entry>, objects: seq<BuildFile>): set<string> {
    set e | e in es && PathOf(objects, e.id).Some? :: LastPathComponent(PathOf(objects, e.id).value)
  }

  /** The name one entry brings, if any. */
  ghost function EntryNames(e: Entry, objects: seq<BuildFile>): set<string> {
    match PathOf(objects, e.id)
    case None => {}
    case Some(path) => {LastPathComponent(path)}
  }

  lemma EntryStepNames(rows: seq<FrameworkInfo>, e: Entry, objects: seq<BuildFile>)
    ensures Names(EntryStep(rows, e, objects)) == Names(rows) + EntryNames(e, objects)
  {
    match PathOf(objects, e.id)
    case None =>
    case Some(path) =>
      if e.kind == Frameworks {
        NamesAppend(rows, Classified(LastPathComponent(path), TypeOf(path), DoNotEmbed));
      }
  }

  lemma ListedNamesSnoc(es: seq<Entry>, e: Entry, objects: seq<BuildFile>)
    ensures ListedNames(es + [e], objects) == ListedNames(es, objects) + EntryNames(e, objects)
  {
    assert forall x :: x in es + [e] <==> x in es || x == e;
  }

  /** Every framework met with a path has a row under its last path component, and
      every row comes from such a framework. */
  lemma {:induction false} CollectedNames(es: seq<Entry>, objects: seq<BuildFile>)
    ensures Names(Collected(es, objects)) == ListedNames(es, objects)
  {
    if |es| > 0 {
      var init, last := es[..|es| - 1], es[|es| - 1];
      var rows := Collected(init, objects);
      assert Collected(es, objects) == EntryStep(rows, last, objects);
      CollectedNames(init, objects);
      EntryStepNames(rows, last, objects);
      assert init + [last] == es;
      ListedNamesSnoc(init, last, objects);
      assert Names(EntryStep(rows, last, objects)) == ListedNames(init, objects) + EntryNames(last, objects);
    }
  }

  /** The first row with this name shows the framework as embedded. */
  ghost predicate ShowsEmbedded(rows: seq<FrameworkInfo>, name: string) {
    var i := FirstIndexOfName(rows, name);
    i.Some? && rows[i.value].isEmbedded != DoNotEmbed
  }

  lemma EntryStepKeepsEmbedded(rows: seq<FrameworkInfo>, e: Entry, objects: seq<BuildFile>, name: string)
    requires ShowsEmbedded(rows, name)
    ensures ShowsEmbedded(EntryStep(rows, e, objects), name)
  {
    match PathOf(objects, e.id)
    case None =>
    case Some(path) =>
      if e.kind == Frameworks {
        var i := FirstIndexOfName(rows, name).value;
        FirstIndexUnique(rows + [Classified(LastPathComponent(path), TypeOf(path), DoNotEmbed)], name, i);
      }
  }

  /** An embed-phase entry with a path shows its framework as embedded. */
  lemma EntryStepShowsEmbedded(rows: seq<FrameworkInfo>, e: Entry, objects: seq<BuildFile>)
    requires IsEmbedPhase(e.kind) && PathOf(objects, e.id).Some?
    ensures ShowsEmbedded(EntryStep(rows, e, objects), LastPathComponent(PathOf(objects, e.id).value))
  {
  }

  /** A framework met with a path in the embed phase is never listed as "Do Not Embed"
      in its first row, whatever comes after it: a later frameworks-phase file of the
      same name is appended behind, and a later embed-phase one replaces the row with
      another embedded status. */
  lemma {:induction false} EmbeddedNeverListedAsNotEmbedded(es: seq<Entry>, objects: seq<BuildFile>)
    ensures forall e :: e in es && IsEmbedPhase(e.kind) && PathOf(objects, e.id).Some? ==>
      ShowsEmbedded(Collected(es, objects), LastPathComponent(PathOf(objects, e.id).value))
  {
    if |es| > 0 {
      var init, last := es[..|es| - 1], es[|es| - 1];
      var rows := Collected(init, objects);
      assert Collected(es, objects) == EntryStep(rows, last, objects);
      EmbeddedNeverListedAsNotEmbedded(init, objects);
      forall e | e in es && IsEmbedPhase(e.kind) && PathOf(objects, e.id).Some?
        ensures ShowsEmbedded(EntryStep(rows, last, objects), LastPathComponent(PathOf(objects, e.id).value))
      {
        var name := LastPathComponent(PathOf(objects, e.id).value);
        if e in init {
          EntryStepKeepsEmbedded(rows, last, objects, name);
        } else {
          EntryStepShowsEmbedded(rows, e, objects);
        }
      }
    }
  }

  // ----- Sorting -----

  /** The sort key: the name, lower-cased. */
  function Key(info: FrameworkInfo): string {
    Lower(info.name)
  }

  ghost predicate SortedByName(rows: seq<FrameworkInfo>) {
    forall i, j :: 0 <= i < j < |rows| ==> NotAfter(Key(rows[i]), Key(rows[j]))
  }

  function Insert(x: FrameworkInfo, rows: seq<FrameworkInfo>): (r: seq<FrameworkInfo>)
    ensures multiset(r) == multiset(rows) + multiset{x}
  {
    if |rows| == 0 then [x]
    else if NotAfter(Key(x), Key(rows[0])) then [x] + rows
    else
      assert rows == [rows[0]] + rows[1..];
      [rows[0]] + Insert(x, rows[1..])
  }

  /** `frameworksInfo.sort { $0.name.lowercased() < $1.name.lowercased() }`, as an
      insertion sort; rows of equal keys may come out in any order. */
  function SortRows(rows: seq<FrameworkInfo>): (r: seq<FrameworkInfo>)
    ensures multiset(r) == multiset(rows)
  {
    if |rows| == 0 then []
    else
      assert rows == [rows[0]] + rows[1..];
      Insert(rows[0], SortRows(rows[1..]))
  }

  lemma SortedCons(x: FrameworkInfo, rows: seq<FrameworkInfo>)
    requires SortedByName(rows)
    requires forall y :: y in rows ==> NotAfter(Key(x), Key(y))
    ensures SortedByName([x] + rows)
  {
    var r := [x] + rows;
    forall i, j | 0 <= i < j < |r|
      ensures NotAfter(Key(r[i]), Key(r[j]))
    {
      if i > 0 {
        assert r[i] == rows[i - 1] && r[j] == rows[j - 1];
      } else {
        assert r[j] in rows;
      }
    }
  }

  lemma {:induction false} InsertSorted(x: FrameworkInfo, rows: seq<FrameworkInfo>)
    requires SortedByName(rows)
    ensures SortedByName(Insert(x, rows))
  {
    if |rows| == 0 {
    } else if NotAfter(Key(x), Key(rows[0])) {
      forall y | y in rows
        ensures NotAfter(Key(x), Key(y))
      {
        var j :| 0 <= j < |rows| && rows[j] == y;
        if j > 0 {
          NotAfterTransitive(Key(x), Key(rows[0]), Key(y));
        }
      }
      SortedCons(x, rows);
    } else {
      var rest := rows[1..];
      assert SortedByName(rest) by {
        forall i, j | 0 <= i < j < |rest|
          ensures NotAfter(Key(rest[i]), Key(rest[j]))
        {
          assert rest[i] == rows[i + 1] && rest[j] == rows[j + 1];
        }
      }
      InsertSorted(x, rest);
      NotAfterTotal(Key(x), Key(rows[0]));
      forall y | y in Insert(x, rest)
        ensures NotAfter(Key(rows[0]), Key(y))
      {
        assert y in multiset(Insert(x, rest));
        if y != x {
          assert y in rest;
          var j :| 0 <= j < |rest| && rest[j] == y;
          assert rows[j + 1] == y;
        }
      }
      SortedCons(rows[0], Insert(x, rest));
    }
  }

  lemma {:induction false} SortRowsSorted(rows: seq<FrameworkInfo>)
    ensures SortedByName(SortRows(rows))
  {
    if |rows| > 0 {
      SortRowsSorted(rows[1..]);
      InsertSorted(rows[0], SortRows(rows[1..]));
    }
  }

  lemma SameNames(a: seq<FrameworkInfo>, b: seq<FrameworkInfo>)
    requires multiset(a) == multiset(b)
    ensures Names(a) == Names(b)
    ensures forall info :: info in a <==> info in b
  {
    assert forall info :: info in a <==> info in multiset(a);
    assert forall info :: info in b <==> info in multiset(b);
    forall name | name in Names(a)
      ensures name in Names(b)
    {
      var k :| 0 <= k < |a| && a[k].name == name;
      assert a[k] in b;
      var j :| 0 <= j < |b| && b[j] == a[k];
    }
    forall name | name in Names(b)
      ensures name in Names(a)
    {
      var k :| 0 <= k < |b| && b[k].name == name;
      assert b[k] in a;
      var j :| 0 <= j < |a| && a[j] == b[k];
    }
  }

  // ----- The command -----

  /** The first `if` block of the phase loop: a frameworks phase's build files. */
  method CollectFrameworks(rows0: seq<FrameworkInfo>, ghost seen: seq<Entry>, phase: BuildPhase, objects: seq<BuildFile>)
    returns (rows: seq<FrameworkInfo>)
    requires phase.kind == Frameworks
    requires rows0 == Collected(seen, objects)
    ensures rows == Collected(seen + PhaseEntries(phase), objects)
  {
    rows := rows0;
    var files := FilesOf(phase);
    ghost var entries := PhaseEntries(phase);
    ghost var done := seen;
    var j := 0;
    while j < |files|
      invariant j <= |files|
      invariant done == seen + entries[..j]
      invariant rows == Collected(done, objects)
    {
      var path := PathOf(objects, files[j]);
      CollectedSnoc(done, entries[j], objects);
      if path.Some? {
        rows := rows + [Classified(LastPathComponent(path.value), TypeOf(path.value), DoNotEmbed)];
      }
      TakeOneMore(entries, j);
      done := done + [entries[j]];
      j := j + 1;
    }
    assert entries[..j] == entries;
  }

  /** Replace the first row of the same name, else append. */
  method UpsertRow(rows0: seq<FrameworkInfo>, info: FrameworkInfo) returns (rows: seq<FrameworkInfo>)
    ensures rows == Upsert(rows0, info)
  {
    var index := FirstIndexOfName(rows0, info.name);
    if index.Some? {
      rows := rows0[index.value := info];
    } else {
      rows := rows0 + [info];
    }
  }

  /** The second `if` block of the phase loop: the embed phase's build files. */
  method CollectEmbedded(rows0: seq<FrameworkInfo>, ghost seen: seq<Entry>, phase: BuildPhase, objects: seq<BuildFile>)
    returns (rows: seq<FrameworkInfo>)
    requires IsEmbedPhase(phase.kind)
    requires rows0 == Collected(seen, objects)
    ensures rows == Collected(seen + PhaseEntries(phase), objects)
  {
    rows := rows0;
    var files := FilesOf(phase);
    ghost var entries := PhaseEntries(phase);
    ghost var done := seen;
    var j := 0;
    while j < |files|
      invariant j <= |files|
      invariant done == seen + entries[..j]
      invariant rows == Collected(done, objects)
    {
      var path := PathOf(objects, files[j]);
      ghost var e := entries[j];
      assert e == Entry(phase.kind, files[j]);
      ghost var next := EntryStep(rows, e, objects);
      assert Collected(done + [e], objects) == next by {
        CollectedSnoc(done, e, objects);
      }
      if path.Some? {
        var name := LastPathComponent(path.value);
        var info := Classified(name, TypeOf(path.value), EmbeddingStatus(objects[files[j]].settings));
        assert next == Upsert(rows, info);
        rows := UpsertRow(rows, info);
      }
      assert done + [e] == seen + entries[..j + 1] by {
        TakeOneMore(entries, j);
        Regroup(seen, entries[..j], [e]);
      }
      done := done + [e];
      j := j + 1;
    }
    assert entries[..j] == entries;
  }

  /** The phase loop of one target. */
  method CollectTarget(rows0: seq<FrameworkInfo>, ghost seen0: seq<Entry>, phases: seq<BuildPhase>, objects: seq<BuildFile>)
    returns (collected: seq<FrameworkInfo>)
    requires rows0 == Collected(seen0, objects)
    ensures collected == Collected(seen0 + TargetEntries(phases), objects)
  {
    collected := rows0;
    ghost var seen := seen0;
    var k := 0;
    while k < |phases|
      invariant k <= |phases|
      invariant seen == seen0 + TargetEntries(phases[..k])
      invariant collected == Collected(seen, objects)
    {
      var phase := phases[k];
      if phase.kind == Frameworks {
        collected := CollectFrameworks(collected, seen, phase, objects);
      } else if IsEmbedPhase(phase.kind) {
        collected := CollectEmbedded(collected, seen, phase, objects);
      } else {
        assert seen + PhaseEntries(phase) == seen;
      }
      TargetEntriesPrefix(phases, k);
      Regroup(seen0, TargetEntries(phases[..k]), PhaseEntries(phase));
      seen := seen + PhaseEntries(phase);
      k := k + 1;
    }
    assert phases[..k] == phases;
  }

  method CollectAll(targets: seq<Target>, objects: seq<BuildFile>) returns (collected: seq<FrameworkInfo>)
    ensures collected == Collected(Entries(targets), objects)
  {
    collected := [];
    ghost var seen: seq<Entry> := [];
    var t := 0;
    while t < |targets|
      invariant t <= |targets|
      invariant seen == Entries(targets[..t])
      invariant collected == Collected(seen, objects)
    {
      collected := CollectTarget(collected, seen, targets[t].buildPhases, objects);
      EntriesPrefix(targets, t);
      seen := seen + TargetEntries(targets[t].buildPhases);
      t := t + 1;
    }
    assert targets[..t] == targets;
  }

  /** `run()`: collect the rows target by target and phase by phase, then sort them. */
  method Run(project: Project) returns (rows: seq<FrameworkInfo>)
    ensures multiset(rows) == multiset(CollectedRows(project.State()))
    ensures SortedByName(rows)
    ensures Names(rows) == ListedNames(Entries(project.nativeTargets), project.objects)
    ensures forall info :: info in rows ==> WellFormed(info)
    ensures forall e :: e in Entries(project.nativeTargets) && IsEmbedPhase(e.kind) && PathOf(project.objects, e.id).Some? ==>
      exists info :: info in rows && info.name == LastPathComponent(PathOf(project.objects, e.id).value) && info.isEmbedded != DoNotEmbed
  {
    var es := Entries(project.nativeTargets);
    var collected := CollectAll(project.nativeTargets, project.objects);
    rows := SortRows(collected);
    SortRowsSorted(collected);
    SameNames(rows, collected);
    CollectedNames(es, project.objects);
    CollectedWellFormed(es, project.objects);
    EmbeddedNeverListedAsNotEmbedded(es, project.objects);
    forall e | e in es && IsEmbedPhase(e.kind) && PathOf(project.objects, e.id).Some?
      ensures exists info :: info in rows && info.name == LastPathComponent(PathOf(project.objects, e.id).value) && info.isEmbedded != DoNotEmbed
    {
      var i := FirstIndexOfName(collected, LastPathComponent(PathOf(project.objects, e.id).value)).value;
      assert collected[i] in rows;
    }
  }
}
