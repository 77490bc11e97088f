# xcode-frameworks, modelled in Dafny

`xcode-frameworks` is a command-line tool that reads an Xcode project (`.xcodeproj`)
and reports or repairs how its targets link and embed frameworks. This project models
the five working commands and the one record the tool defines:

- `duplicates`: tallies the build files of each target's frameworks phase by their
  full path. It reports every path that occurs more than once, with its count.
- `fix`: groups the same build files by path. For every duplicated path it keeps the
  first or the last occurrence (`--strategy keep-first|keep-last`) and removes the
  others from every target's frameworks phase. It then writes the project back.
- `list`: walks every target's frameworks phase and "Embed Frameworks" copy-files
  phase. It builds one row per framework (name, `Framework`/`XCFramework`, embedding
  status), lets an embed-phase row replace an earlier row of the same name, and sorts
  the rows by lower-cased name.
- `embed`: for each requested name and each target, it finds the first
  frameworks-phase build file whose path contains the name. That build file goes into
  the target's first copy-files phase, which is created when missing, and its
  `ATTRIBUTES` gain `CodeSignOnCopy` and `RemoveHeadersOnCopy`.
- `embed-sign`: the same search. It puts a new build file into the copy-files phase,
  pointing at the same file and carrying `ATTRIBUTES = [CodeSignOnCopy]`.
- `FrameworkInfo`: the table row, with its two initialisers.

The project's object graph is a value, `XcodeGraph.Graph`. It holds the native
targets, each a sequence of build phases, and the object table of build files. A
phase refers to build files by their index in that table. So one build file can sit
in several phases, and a change to its settings is seen by all of them, as with the
reference types of the project library. The loaded project is the class
`XcodeGraph.Project`. The commands that change it (`fix`, `embed`, `embed-sign`) are
methods that modify it in place. Their loops carry invariants that tie the state
reached so far to a specification function of the starting graph. Lemmas then prove
what each command promises about that function:

- after `fix`, no path occurs twice;
- every match found by `embed` is embedded, and its settings sign on copy;
- `embed-sign` makes a signed copy for every match and lists it in its target's embed
  phase, unless a build file `==` to it is listed already, in which case the copy
  stays unlisted; it adds nothing but signed copies;
- both embed commands change only the targets and build files they match, and in a
  target only its first copy-files phase, whose list they extend at its end;
- `list` rows are sorted, well formed and name exactly the listed files, and an
  embedded framework is never shown as "Do Not Embed";
- the reports name exactly the frameworks that were not found.

Two services of the project library are parameters, gathered in `XcodeGraph.Library`:

- `PBXTarget.frameworksBuildPhase()`. It is assumed to return a frameworks phase
  (`Sound`). The two embed commands also assume it is not changed by appending a
  phase of another kind (`Stable`).
- `==` on build files. It is an arbitrary relation on build-file indices.

## Model

| member | source | states |
|---|---|---|
| XcodeGraph.FrameworksPhaseIndex | Sources/Commads/DuplicatesCommand.swift:25 | the phase the library picks for a target is one of its phases and is a frameworks phase |
| XcodeGraph.Occurrences | Sources/Commads/FixCommand.swift:47-55 | the build files with a given path are exactly those among the scanned ones that carry that path, in scan order and never more than were scanned |
| XcodeGraph.FrameworkFileIdsPrefix | Sources/Commads/DuplicatesCommand.swift:24-32 | the frameworks-phase build files of one more target come after those of the targets before it |
| XcodeGraph.OccurrencesSnoc | Sources/Commads/FixCommand.swift:49-52 | scanning one more build file adds it to the group of its path and to no other group |
| XcodeGraph.Project.constructor | Sources/Commads/FixCommand.swift:36 | a loaded project holds the loaded graph, has no dangling build-file references and has not been written |
| Strings.LastPathComponent | Sources/Commads/ListCommand.swift:59 | the name is the suffix of the path after its last `/`, and contains no `/` |
| Strings.ContainsBounds | Sources/Commads/EmbedCommand.swift:52 | no path contains a name longer than itself |
| Strings.Lower | Sources/Commads/ListCommand.swift:102 | lower-casing keeps the length and maps each character on its own |
| Strings.NotAfterTotal | Sources/Commads/ListCommand.swift:102 | any two names are ordered one way or the other |
| Strings.NotAfterTransitive | Sources/Commads/ListCommand.swift:102 | the order on names is transitive |
| Models.Counted | Sources/Models/FrameworkInfo.swift:9-14 | a duplicates row has the given name and count and an empty type and status |
| Models.Classified | Sources/Models/FrameworkInfo.swift:16-21 | a listing row has the given name, type and status, and a count of one |
| Models.InitialisersAgree | Sources/Models/FrameworkInfo.swift:9-21 | the two initialisers build the same row exactly when the count is one and the type and status are empty |
| DuplicatesCommand.Bumped | Sources/Commads/DuplicatesCommand.swift:28 | the tally of the path goes up by one from zero or its old value, and every other tally stays |
| DuplicatesCommand.TallyStep | Sources/Commads/DuplicatesCommand.swift:26-30 | one more build file keeps the tally equal to the number of occurrences of each path |
| DuplicatesCommand.CountFiles | Sources/Commads/DuplicatesCommand.swift:26-30 | after one phase's files, every path's tally is its number of occurrences so far |
| DuplicatesCommand.CountTarget | Sources/Commads/DuplicatesCommand.swift:25-31 | after one target, every path's tally counts the files of its frameworks phase as well, and a target without one adds nothing |
| DuplicatesCommand.CountOccurrences | Sources/Commads/DuplicatesCommand.swift:24-32 | a path is tallied if and only if it occurs in some frameworks phase, and its tally is its number of occurrences |
| DuplicatesCommand.Run | Sources/Commads/DuplicatesCommand.swift:24-40 | a row is reported if and only if its path occurs more than once, with that count; the report is empty if and only if no path occurs twice |
| FixCommand.Appended | Sources/Commads/FixCommand.swift:51 | the group of the path gains the build file at its end, and every other group stays |
| FixCommand.GroupStep | Sources/Commads/FixCommand.swift:49-52 | one more build file keeps every group equal to the occurrences of its path |
| FixCommand.GroupFiles | Sources/Commads/FixCommand.swift:49-53 | after one phase's files, every group is the occurrences of its path so far |
| FixCommand.GroupTarget | Sources/Commads/FixCommand.swift:48-54 | after one target, every group holds the files of its frameworks phase as well, and a target without one adds nothing |
| FixCommand.GroupByPath | Sources/Commads/FixCommand.swift:44-55 | a path has a group if and only if it occurs, and its group is its occurrences in scan order |
| FixCommand.Marked | Sources/Commads/FixCommand.swift:85-95 | the strategy is accepted if and only if it is keep-first or keep-last; keep-first marks all but the first, keep-last all but the last |
| FixCommand.Without | Sources/Commads/FixCommand.swift:101 | after `removeAll`, a build file is listed if and only if it was listed and is not equal to the removed one |
| FixCommand.RemovedFromFrameworksOnly | Sources/Commads/FixCommand.swift:100-101 | one removal keeps the phases and their kinds, changes only the frameworks phase, and leaves it the files not equal to the removed one |
| FixCommand.Keep | Sources/Commads/FixCommand.swift:98-104 | what is left holds exactly the listed build files equal to no removed one, and is no longer |
| FixCommand.PruneTarget | Sources/Commads/FixCommand.swift:99-103 | removal keeps a target's phases and their kinds, and changes only the frameworks phase, to what is left of its files |
| FixCommand.Prune | Sources/Commads/FixCommand.swift:98-104 | removal applies to every target and keeps their number |
| FixCommand.KeepNothing | Sources/Commads/FixCommand.swift:98-104 | removing nothing leaves a file list unchanged |
| FixCommand.KeepAppend | Sources/Commads/FixCommand.swift:98-104 | removal distributes over concatenation of file lists |
| FixCommand.WithoutSnoc | Sources/Commads/FixCommand.swift:101 | `removeAll` keeps the last file exactly when it is not equal to the removed one |
| FixCommand.WithoutKeep | Sources/Commads/FixCommand.swift:98-101 | removing one more build file equals removing the grown set at once |
| FixCommand.RemoveStep | Sources/Commads/FixCommand.swift:99-103 | one more removal over a target gives the target with the grown set removed |
| FixCommand.PruneNothing | Sources/Commads/FixCommand.swift:98-104 | removing nothing leaves the targets unchanged |
| FixCommand.PruneResolved | Sources/Commads/FixCommand.swift:98-104 | removal creates no dangling build-file reference |
| FixCommand.PruneFrameworkFileIds | Sources/Commads/FixCommand.swift:98-104 | the frameworks-phase files after removal are those before it, less the removed ones, in order |
| FixCommand.OccurrencesKeep | Sources/Commads/FixCommand.swift:98-104 | grouping after removal equals removal from each group |
| FixCommand.KeepAllDoomed | Sources/Commads/FixCommand.swift:98-104 | a group all of whose members are removed is left empty |
| FixCommand.MarkedAreDoomed | Sources/Commads/FixCommand.swift:85-91 | the build files marked in a duplicated group are exactly the removed ones that carry its path |
| FixCommand.NoDuplicatesAfterFix | Sources/Commads/FixCommand.swift:74-104 | after a fix with a known strategy, no path occurs more than once in the frameworks phases |
| FixCommand.KeptEntrySurvives | Sources/Commads/FixCommand.swift:86-91 | the kept build file of a duplicated group stays listed, when it is equal to no removed one |
| FixCommand.RemoveFromTargets | Sources/Commads/FixCommand.swift:99-103 | removing one build file from every target extends the removed set by it, and changes nothing else |
| FixCommand.RemoveAll | Sources/Commads/FixCommand.swift:98-104 | removing a list of build files extends the removed set by all of them |
| FixCommand.RemoveDuplicates | Sources/Commads/FixCommand.swift:74-109 | with a known strategy the targets lose exactly the marked build files; with an unknown one nothing changes |
| FixCommand.Run | Sources/Commads/FixCommand.swift:43-117 | nothing to fix if and only if no path occurs twice; otherwise an unknown strategy changes nothing; otherwise the marked build files are removed and the project is written once |
| ListCommand.TypeOf | Sources/Commads/ListCommand.swift:60 | the type is XCFramework if and only if the path ends in `.xcframework`, Framework otherwise |
| ListCommand.EmbeddingStatus | Sources/Commads/ListCommand.swift:79-85 | an embed-phase file is "Embed & Sign" if and only if its ATTRIBUTES list holds CodeSignOnCopy, and never "Do Not Embed" |
| ListCommand.PhaseEntries | Sources/Commads/ListCommand.swift:56-74 | a frameworks or "Embed Frameworks" phase contributes its files in order; any other phase contributes nothing |
| ListCommand.TargetEntriesPrefix | Sources/Commads/ListCommand.swift:54 | the phases of a target are visited in order |
| ListCommand.EntriesPrefix | Sources/Commads/ListCommand.swift:47 | the targets are visited in order |
| ListCommand.NamesAppend | Sources/Commads/ListCommand.swift:63 | an appended row adds its name to the names shown |
| ListCommand.SameNameColumn | Sources/Commads/ListCommand.swift:88 | rows with the same name column show the same names |
| ListCommand.FirstIndexOfName | Sources/Commads/ListCommand.swift:87 | `firstIndex` finds the first row with the name, and finds none if and only if no row has it |
| ListCommand.FirstIndexUnique | Sources/Commads/ListCommand.swift:87 | a row with the name and none before it is the one `firstIndex` finds |
| ListCommand.ReplaceFacts | Sources/Commads/ListCommand.swift:88 | replacing the first row of a name keeps the names and where every name is first found |
| ListCommand.AppendFacts | Sources/Commads/ListCommand.swift:90 | appending a row of a new name makes it found at the end, and keeps where the other names are found |
| ListCommand.Upsert | Sources/Commads/ListCommand.swift:87-91 | the row ends up first of its name; the row count grows only for a new name; other rows and other names stay |
| ListCommand.CollectedSnoc | Sources/Commads/ListCommand.swift:57-97 | collecting one more entry applies one more step to the rows |
| ListCommand.EntryStepRows | Sources/Commads/ListCommand.swift:58-91 | a file without a path changes nothing; a frameworks-phase file appends one "Do Not Embed" row of its name; an embed-phase file gives the first row of its name its status and leaves rows of other names alone; at most one row is added |
| ListCommand.Collected | Sources/Commads/ListCommand.swift:47-100 | there are never more rows than listed build files |
| ListCommand.EntryStepWellFormed | Sources/Commads/ListCommand.swift:58-91 | each step keeps every row well formed: a name without `/`, a count of one, a known type and a known status |
| ListCommand.UpsertElements | Sources/Commads/ListCommand.swift:87-91 | replace-or-append only brings in the new row |
| ListCommand.CollectedWellFormed | Sources/Commads/ListCommand.swift:47-100 | every collected row is well formed |
| ListCommand.EntryStepNames | Sources/Commads/ListCommand.swift:58-91 | a step adds the name of the entry's file, if it has a path, and no other name |
| ListCommand.ListedNamesSnoc | Sources/Commads/ListCommand.swift:57-97 | the names of one more entry are those before it plus its own |
| ListCommand.CollectedNames | Sources/Commads/ListCommand.swift:47-100 | the rows name exactly the last path components of the listed files that have a path |
| ListCommand.EntryStepKeepsEmbedded | Sources/Commads/ListCommand.swift:63-91 | once a name is shown embedded, no later step shows it as "Do Not Embed" |
| ListCommand.EntryStepShowsEmbedded | Sources/Commads/ListCommand.swift:79-91 | an "Embed Frameworks" file with a path leaves its name first shown with an embedded status |
| ListCommand.EmbeddedNeverListedAsNotEmbedded | Sources/Commads/ListCommand.swift:69-91 | every framework in an "Embed Frameworks" phase is shown with an embedding status other than "Do Not Embed" |
| ListCommand.Insert | Sources/Commads/ListCommand.swift:102 | insertion adds exactly the row to the multiset of rows |
| ListCommand.SortRows | Sources/Commads/ListCommand.swift:102 | sorting permutes the rows |
| ListCommand.SortedCons | Sources/Commads/ListCommand.swift:102 | a row not after any sorted row can lead them |
| ListCommand.InsertSorted | Sources/Commads/ListCommand.swift:102 | insertion into sorted rows keeps them sorted by lower-cased name |
| ListCommand.SortRowsSorted | Sources/Commads/ListCommand.swift:102 | the sorted rows are in order of lower-cased name |
| ListCommand.SameNames | Sources/Commads/ListCommand.swift:102 | sorting keeps the names and the rows |
| ListCommand.CollectFrameworks | Sources/Commads/ListCommand.swift:56-66 | the loop over a frameworks phase appends the rows of its entries |
| ListCommand.UpsertRow | Sources/Commads/ListCommand.swift:87-91 | the `firstIndex` replace-or-append is the upsert |
| ListCommand.CollectEmbedded | Sources/Commads/ListCommand.swift:69-97 | the loop over an "Embed Frameworks" phase upserts the rows of its entries |
| ListCommand.CollectTarget | Sources/Commads/ListCommand.swift:52-99 | the phase loop of a target collects the rows of its entries, phase by phase |
| ListCommand.CollectAll | Sources/Commads/ListCommand.swift:47-100 | the target loop collects the rows of all entries in order |
| ListCommand.Run | Sources/Commads/ListCommand.swift:44-102 | the table is a permutation of the collected rows, sorted by lower-cased name, with well-formed rows naming exactly the listed files; every framework with a path in an "Embed Frameworks" phase has a row of its name that is not "Do Not Embed" |
| EmbedPhase.FirstMatch | Sources/Commads/EmbedCommand.swift:51-61 | the file loop stops at the first build file whose path contains the name; it finds none if and only if no file matches |
| EmbedPhase.FindMatch | Sources/Commads/EmbedCommand.swift:51-61 | the file loop with its `break` finds that first match |
| EmbedPhase.HitAt | Sources/Commads/EmbedCommand.swift:50-52 | a target has a hit if and only if it has a match, a registered frameworks-phase build file whose path contains the name |
| EmbedPhase.Found | Sources/Commads/EmbedCommand.swift:49-64 | there is one hit per target, the hit of that target, each naming a registered build file |
| EmbedPhase.Paths | Sources/Commads/EmbedCommand.swift:58 | the reported paths are no more than the targets, and none at all if and only if no target has a hit |
| EmbedPhase.PathsSnoc | Sources/Commads/EmbedCommand.swift:58 | one more target adds its hit's path, if any |
| EmbedPhase.FirstMatchFrame | Sources/Commads/EmbedCommand.swift:51-52 | the match depends only on the paths of the files searched |
| EmbedPhase.FirstCopyFilesPhase | Sources/Commads/EmbedCommand.swift:84 | `first(where:)` finds the first copy-files phase, and none if and only if there is none |
| EmbedPhase.FirstCopyFilesUnique | Sources/Commads/EmbedCommand.swift:84 | a copy-files phase with none before it is the one found |
| EmbedPhase.WithEmbedPhase | Sources/Commads/EmbedCommand.swift:84-91 | after find-or-create the target has a first copy-files phase; the phases are unchanged if one existed, and gain a new "Embed Frameworks" phase otherwise |
| EmbedPhase.AddIfMissing | Sources/Commads/EmbedCommand.swift:94-97 | a missing list stays missing; a list gains the file at its end unless an equal one is there, and grows by at most one |
| EmbedPhase.Attach | Sources/Commads/EmbedCommand.swift:84-97 | with a copy-files phase, only the first one changes, gaining the file unless listed or unlisted; without one, a new "Embed Frameworks" phase listing the file is appended; no other phase changes |
| EmbedPhase.AttachKinds | Sources/Commads/EmbedCommand.swift:84-97 | attaching appends a phase only to a target with no copy-files phase |
| EmbedPhase.FirstCopyFilesPhaseExtend | Sources/Commads/EmbedCommand.swift:84 | appending phases does not change which copy-files phase comes first |
| EmbedPhase.AttachGrown | Sources/Commads/EmbedCommand.swift:84-97 | repeated attaching only lets the first copy-files phase gain files at the end of its list, or adds one "Embed Frameworks" phase with a list, and leaves every other phase as it was |
| EmbedPhase.GrownKinds | Sources/Commads/EmbedCommand.swift:84-97 | a target grown as allowed keeps its phase kinds, followed at most by the new embed phase |
| EmbedPhase.AttachKeepsEmbedded | Sources/Commads/EmbedCommand.swift:94-97 | attaching a file keeps every file already embedded |
| EmbedPhase.AttachEmbeds | Sources/Commads/EmbedCommand.swift:84-97 | after attaching, the file is in the first copy-files phase, has an equal one there, or the phase has no list |
| EmbedPhase.AttachKeepsFrameworks | Sources/Commads/EmbedCommand.swift:84-97 | attaching leaves the target's frameworks phase and its files unchanged |
| EmbedPhase.AttachResolved | Sources/Commads/EmbedCommand.swift:84-97 | putting a registered build file into the embed phase, or one already listed, leaves no dangling reference |
| EmbedPhase.AttachTargetsGrown | Sources/Commads/EmbedCommand.swift:84-97 | attaching a file to one target keeps every target grown only as `PhasesGrown` allows, with its frameworks phase as it was |
| EmbedPhase.AttachHitTarget | Sources/Commads/EmbedCommand.swift:49-64 | attaching a file to a target with a hit leaves every other target as it was |
| EmbedPhase.SameHits | Sources/Commads/EmbedCommand.swift:49-64 | the hits depend only on the frameworks-phase files and their paths |
| EmbedPhase.SameMatches | Sources/Commads/EmbedCommand.swift:50-52 | the per-target match depends only on the frameworks-phase files and their paths |
| EmbedCommand.AppendMissing | Sources/Commads/EmbedCommand.swift:107-112 | an attribute is appended only when absent; the list keeps its order and gains nothing else |
| EmbedCommand.MergeAttributes | Sources/Commads/EmbedCommand.swift:99-116 | settings without an ATTRIBUTES list get exactly `[CodeSignOnCopy, RemoveHeadersOnCopy]`; an existing list keeps its order and gains each of the two only when it lacks it, so a list holding both is unchanged; every other key stays |
| EmbedCommand.MergeAttributesIdempotent | Sources/Commads/EmbedCommand.swift:99-116 | embedding a file a second time leaves its settings as they are |
| EmbedCommand.EmbedListsAsSigned | Sources/Commads/EmbedCommand.swift:106-116 | an embedded build file is listed as "Embed & Sign" |
| EmbedCommand.Merged | Sources/Commads/EmbedCommand.swift:99-116 | an embedded build file points at the same file, holds both attributes and is listed as "Embed & Sign" |
| EmbedCommand.EmbedStep | Sources/Commads/EmbedCommand.swift:82-121 | embedding keeps the number of targets and build files |
| EmbedCommand.EmbedAll | Sources/Commads/EmbedCommand.swift:49-64 | the target loop keeps the number of targets and build files |
| EmbedCommand.EmbedInTargets | Sources/Commads/EmbedCommand.swift:49-64 | searching one name keeps the number of targets and build files |
| EmbedCommand.EmbedFrom | Sources/Commads/EmbedCommand.swift:44-69 | the framework loop keeps the number of targets and build files |
| EmbedCommand.EmbedRest | Sources/Commads/EmbedCommand.swift:58-68 | the rest of the framework loop keeps the number of targets and build files |
| EmbedCommand.EmbedFromStep | Sources/Commads/EmbedCommand.swift:44-69 | one framework's pass appends its paths, or warns about it when there are none, then the loop goes on |
| EmbedCommand.ChangedReflexive | Sources/Commads/EmbedCommand.swift:44-69 | the starting graph is within what the command may change |
| EmbedCommand.FoundUnchanged | Sources/Commads/EmbedCommand.swift:49-64 | embedding never changes what a later search finds |
| EmbedCommand.MergeObject | Sources/Commads/EmbedCommand.swift:99-116 | embedding a build file once more leaves it merged once: the object table stays within what the run may change |
| EmbedCommand.EmbedStepChanged | Sources/Commads/EmbedCommand.swift:82-121 | one embedding keeps the run within what it may change: each build file as it was or merged, only the first copy-files phase gaining files at its end, at most one "Embed Frameworks" phase added, all other phases as they were |
| EmbedCommand.EmbedAllChanged | Sources/Commads/EmbedCommand.swift:49-64 | the target loop changes only what embedding may change |
| EmbedCommand.EmbedAllStep | Sources/Commads/EmbedCommand.swift:50-60 | one pass of the target loop stays within what the run may change, and the rest of the loop ends where it did |
| EmbedCommand.ScanStart | Sources/Commads/EmbedCommand.swift:47-49 | the target loop starts at the starting graph with no updated paths |
| EmbedCommand.ScanStep | Sources/Commads/EmbedCommand.swift:50-60 | the hit of each target in the graph reached is the one of the starting graph, and embedding it moves the loop one target on |
| EmbedCommand.ScanDone | Sources/Commads/EmbedCommand.swift:49-64 | at the end of the target loop the graph and the updated paths are those of the specification |
| EmbedCommand.EmbedInTargetsChanged | Sources/Commads/EmbedCommand.swift:49-64 | one name's search changes only what embedding may change |
| EmbedCommand.EmbedFromChanged | Sources/Commads/EmbedCommand.swift:44-69 | the rest of the framework loop changes only what embedding may change |
| EmbedCommand.EmbedStepConfined | Sources/Commads/EmbedCommand.swift:82-121 | embedding the hit of a requested name keeps the run confined: only hits of requested names and the targets they are found in differ from the starting project |
| EmbedCommand.EmbedAllConfined | Sources/Commads/EmbedCommand.swift:49-64 | the target loop for a requested name changes only its hits and the targets they are found in |
| EmbedCommand.EmbedFromConfined | Sources/Commads/EmbedCommand.swift:44-69 | the rest of the framework loop changes only hits of requested names and the targets they are found in |
| EmbedCommand.OnlyEmbeddingChanges | Sources/Commads/EmbedCommand.swift:44-69 | the command adds no build file and changes no path or frameworks phase; only build files that are a hit of a requested name change, by the attribute merge; only targets with a hit change, and in them only the first copy-files phase, which gains files at its end, or one new "Embed Frameworks" phase |
| EmbedCommand.EmbedInTargetsEmpty | Sources/Commads/EmbedCommand.swift:49-64 | a name yields no paths if and only if no target matches it |
| EmbedCommand.EmbedFromReports | Sources/Commads/EmbedCommand.swift:44-69 | the warnings of the rest of the loop name exactly its frameworks that match nowhere |
| EmbedCommand.Reports | Sources/Commads/EmbedCommand.swift:44-78 | the warnings name exactly the frameworks that match nowhere; the update list is empty if and only if none matches anywhere |
| EmbedCommand.EmbedStepKeepsDone | Sources/Commads/EmbedCommand.swift:82-121 | embedding one file leaves every file embedded before still embedded |
| EmbedCommand.EmbedStepDone | Sources/Commads/EmbedCommand.swift:82-121 | an embedded file is in its target's first copy-files phase, with an ATTRIBUTES list holding both attributes |
| EmbedCommand.EmbedAllDone | Sources/Commads/EmbedCommand.swift:49-64 | the target loop embeds the hit of every target it visits |
| EmbedCommand.EmbedAllKeepsDone | Sources/Commads/EmbedCommand.swift:49-64 | the target loop leaves every file embedded before still embedded |
| EmbedCommand.EmbedFromDone | Sources/Commads/EmbedCommand.swift:44-69 | the rest of the framework loop embeds every hit of its names |
| EmbedCommand.EmbedFromKeepsDone | Sources/Commads/EmbedCommand.swift:44-69 | the rest of the framework loop leaves every file embedded before still embedded |
| EmbedCommand.EveryMatchEmbedded | Sources/Commads/EmbedCommand.swift:44-121 | for every requested name and every target, the first matching build file ends up embedded and signed on copy |
| EmbedCommand.EmbedStepResolved | Sources/Commads/EmbedCommand.swift:82-121 | embedding creates no dangling build-file reference |
| EmbedCommand.AttachFile | Sources/Commads/EmbedCommand.swift:84-97 | the in-place find-or-create and append is the attach |
| EmbedCommand.MergeSettings | Sources/Commads/EmbedCommand.swift:99-116 | the in-place settings update is the attribute merge |
| EmbedCommand.EmbedFramework | Sources/Commads/EmbedCommand.swift:82-121 | `embedFramework` turns the project into the embedding step of it |
| EmbedCommand.EmbedInTarget | Sources/Commads/EmbedCommand.swift:50-60 | one target's search reports the hit's path and embeds the hit, or leaves the project as it was |
| EmbedCommand.EmbedName | Sources/Commads/EmbedCommand.swift:47-64 | one name's target loop reaches the specified graph and paths |
| EmbedCommand.SearchFramework | Sources/Commads/EmbedCommand.swift:45-68 | one pass of the framework loop moves the project and the two lists one step along the specified run |
| EmbedCommand.Run | Sources/Commads/EmbedCommand.swift:27-79 | the run reaches the specified graph, reports its updated paths and missing frameworks, and writes the project once |
| EmbedSignCommand.SignedCopy | Sources/Commads/EmbedSignCommand.swift:84-87 | the new build file points at the same file as the matched one and is listed as "Embed & Sign" |
| EmbedSignCommand.SignStep | Sources/Commads/EmbedSignCommand.swift:82-104 | the object table grows by one build file exactly when no equal one is already in the copy-files phase |
| EmbedSignCommand.SignAll | Sources/Commads/EmbedSignCommand.swift:49-64 | the target loop keeps the targets and never shrinks the object table |
| EmbedSignCommand.SignInTargets | Sources/Commads/EmbedSignCommand.swift:49-64 | one name's search keeps the targets and never shrinks the object table |
| EmbedSignCommand.SignFrom | Sources/Commads/EmbedSignCommand.swift:44-69 | the framework loop keeps the targets and never shrinks the object table |
| EmbedSignCommand.SignRest | Sources/Commads/EmbedSignCommand.swift:58-68 | the rest of the framework loop keeps the targets and never shrinks the object table |
| EmbedSignCommand.SignFromStep | Sources/Commads/EmbedSignCommand.swift:44-69 | one framework's pass appends its paths, or warns about it when there are none, then the loop goes on |
| EmbedSignCommand.ChangedReflexive | Sources/Commads/EmbedSignCommand.swift:44-69 | the starting graph is within what the command may change |
| EmbedSignCommand.FoundUnchanged | Sources/Commads/EmbedSignCommand.swift:49-64 | adding signed copies never changes what a later search finds |
| EmbedSignCommand.RegisterCopy | Sources/Commads/EmbedSignCommand.swift:100 | registering a signed copy keeps the earlier build files as they were |
| EmbedSignCommand.SignStepChanged | Sources/Commads/EmbedSignCommand.swift:82-104 | one step keeps the earlier build files, adds at most a signed copy, and changes only the first copy-files phase, at the end of its list, or adds one "Embed Frameworks" phase; all other phases stay |
| EmbedSignCommand.SignAllChanged | Sources/Commads/EmbedSignCommand.swift:49-64 | the target loop changes only what the command may change |
| EmbedSignCommand.SignAllStep | Sources/Commads/EmbedSignCommand.swift:50-60 | one pass of the target loop stays within what the run may change, and the rest of the loop ends where it did |
| EmbedSignCommand.ScanStart | Sources/Commads/EmbedSignCommand.swift:47-49 | the target loop starts at the starting graph with no updated paths |
| EmbedSignCommand.ScanStep | Sources/Commads/EmbedSignCommand.swift:50-60 | the hit of each target in the graph reached is the one of the starting graph, and signing it moves the loop one target on |
| EmbedSignCommand.ScanDone | Sources/Commads/EmbedSignCommand.swift:49-64 | at the end of the target loop the graph and the updated paths are those of the specification |
| EmbedSignCommand.SignInTargetsChanged | Sources/Commads/EmbedSignCommand.swift:49-64 | one name's search changes only what the command may change |
| EmbedSignCommand.SignFromChanged | Sources/Commads/EmbedSignCommand.swift:44-69 | the rest of the framework loop changes only what the command may change |
| EmbedSignCommand.OnlySignedCopiesAdded | Sources/Commads/EmbedSignCommand.swift:44-69 | the command keeps every build file and frameworks phase, adds only signed copies of existing files, and changes a target only in its first copy-files phase, at the end of its list, or by one new "Embed Frameworks" phase |
| EmbedSignCommand.SignStepConfined | Sources/Commads/EmbedSignCommand.swift:82-104 | signing the hit of a requested name keeps the run confined: only targets with a hit of a requested name differ from the starting project, and every build file registered since is a signed copy of such a hit |
| EmbedSignCommand.SignAllConfined | Sources/Commads/EmbedSignCommand.swift:49-64 | the target loop for a requested name changes only the targets with a hit, and registers only signed copies of hits |
| EmbedSignCommand.SignFromConfined | Sources/Commads/EmbedSignCommand.swift:44-69 | the rest of the framework loop changes only targets with a hit of a requested name, and registers only signed copies of such hits |
| EmbedSignCommand.OnlyHitsTouched | Sources/Commads/EmbedSignCommand.swift:44-69 | on a project without dangling references, a run changes only targets with a hit of a requested name, and every build file it registers is a signed copy of such a hit |
| EmbedSignCommand.SignInTargetsEmpty | Sources/Commads/EmbedSignCommand.swift:49-64 | a name yields no paths if and only if no target matches it |
| EmbedSignCommand.SignFromReports | Sources/Commads/EmbedSignCommand.swift:44-69 | the warnings of the rest of the loop name exactly its frameworks that match nowhere |
| EmbedSignCommand.Reports | Sources/Commads/EmbedSignCommand.swift:44-78 | the warnings name exactly the frameworks that match nowhere; the update list is empty if and only if none matches anywhere |
| EmbedSignCommand.SignStepEmbeds | Sources/Commads/EmbedSignCommand.swift:84-103 | a step leaves a copy-files phase; a signed copy of the matched file is registered and listed there unless an equal one already is |
| EmbedSignCommand.SignStepSigned | Sources/Commads/EmbedSignCommand.swift:84-103 | on a project without dangling references, after a step the target's first copy-files phase lists the next free index as a registered signed copy of the matched file, or does not list that index but lists a build file `==` to it, or has no list |
| EmbedSignCommand.SignStepKeepsSigned | Sources/Commads/EmbedSignCommand.swift:90-103 | a later step keeps a target signed for a file under the same index: the phase keeps its place and only gains files, and the object table only grows |
| EmbedSignCommand.SignAllKeepsSigned | Sources/Commads/EmbedSignCommand.swift:49-64 | the target loop keeps a target signed for a file under the same index |
| EmbedSignCommand.SignAllSignedFirst | Sources/Commads/EmbedSignCommand.swift:49-64 | the target loop signs for the hit of its first target under the next free index of the table it starts from |
| EmbedSignCommand.SignAllSigned | Sources/Commads/EmbedSignCommand.swift:49-64 | the target loop signs for the hit of every target it visits, under an index past the starting table |
| EmbedSignCommand.SignFromKeepsSigned | Sources/Commads/EmbedSignCommand.swift:44-69 | the rest of the framework loop keeps a target signed for a file under the same index |
| EmbedSignCommand.SignFromSigned | Sources/Commads/EmbedSignCommand.swift:44-69 | the rest of the framework loop signs for the hit of each of its names in each target, under an index past the starting table |
| EmbedSignCommand.EveryMatchSigned | Sources/Commads/EmbedSignCommand.swift:44-103 | on a project without dangling references, after a run, for every requested name and every target with a hit for it, there is an index past the starting table that the target's embed phase lists as a registered signed copy of the hit, or does not list while it lists a build file `==` to that index, or the phase has no list |
| EmbedSignCommand.SignStepResolved | Sources/Commads/EmbedSignCommand.swift:82-104 | a step creates no dangling build-file reference |
| EmbedSignCommand.SignAllResolved | Sources/Commads/EmbedSignCommand.swift:49-64 | the target loop creates no dangling build-file reference |
| EmbedSignCommand.SignFramework | Sources/Commads/EmbedSignCommand.swift:82-104 | `embedAndSignFramework` turns the project into the signing step of it |
| EmbedSignCommand.SignInTarget | Sources/Commads/EmbedSignCommand.swift:50-60 | one target's search reports the hit's path and signs the hit, or leaves the project as it was |
| EmbedSignCommand.SignName | Sources/Commads/EmbedSignCommand.swift:47-64 | one name's target loop reaches the specified graph and paths |
| EmbedSignCommand.SearchFramework | Sources/Commads/EmbedSignCommand.swift:45-68 | one pass of the framework loop moves the project and the two lists one step along the specified run |
| EmbedSignCommand.Run | Sources/Commads/EmbedSignCommand.swift:27-79 | the run reaches the specified graph, reports its updated paths and missing frameworks, and writes the project once |

## Left out

- Loading and writing the project, the `.xcodeproj` path validation, `--verbose` output,
  the printed messages and the text tables are I/O. A write is modelled as one more
  `writes`; the outcome of `fix`'s `do`/`catch` write and of the embed commands' `try`
  write is a parameter (`writeOk`). The failure of a loading or validation step is not
  modelled.
- `SignCommand`'s whole body is commented out, so it has nothing to model. The
  executable's entry point only wires the commands together.
- `frameworksBuildPhase()` throwing: `duplicates` and `fix` would stop with an error,
  and the embed commands (`try?`) skip the target. The model treats a throw as "no
  frameworks phase" for all of them.
- Dictionary iteration order: `duplicates` returns its report as a set. `fix` treats
  duplicated paths in an arbitrary order, and its result does not depend on it. With an
  unknown strategy the source returns at the first duplicated path, before any removal;
  the model gives the same result.
- `==` on build files is the project library's. It is an arbitrary relation
  (`Library.equal`). `embed-sign` compares its new build file under the index it would
  be registered at.
- FixCommand.KeptEntrySurvives: the kept build file is proved to stay only when the
  library's `==` makes it equal to no removed build file. A field-wise `==` could also
  remove it; that depends on code this model does not include.
- `Library.equal` is one fixed relation for a whole run. `embed` rewrites the settings
  of build files between comparisons; a field-wise `==` could then judge differently
  later in the run, which the model does not capture.
- EmbedSignCommand.Signed: when the phase already lists a build file `==` to the new
  copy's index, the model says that such a build file is listed and the index is not,
  not which build file it is; that depends on the library's `==`.
- EmbedSignCommand.EveryMatchSigned: the contract says only that the index is past the
  starting table, not that it is the one the copy for this hit was compared under; the
  per-step lemma `EmbedSignCommand.SignStepSigned` names that index.
- EmbedSignCommand.SignStep: a copy that is skipped is never registered, so the next
  step compares a different copy under the same index. With one fixed relation on
  indices both comparisons get the same answer; a field-wise `==` in the source could
  skip A's copy and still add B's (EmbedSignCommand.swift:99-101), e.g. a target with
  frameworks A and B whose embed phase already holds a signed copy of A.
- Argument parsing is the argument library's, including `fix`'s `--strategy` default
  `keep-first`; the model takes the strategy text as a parameter.
- `Library.Stable` is assumed for the embed commands. It says that appending a
  copy-files phase does not change the target's frameworks phase, which is what the
  library's "first frameworks phase" gives.
- Build phases are values inside a target here. A phase object shared by two targets
  would be changed for both in the source; such sharing is not modelled. Build files
  are shared through the object table.
- `URL.lastPathComponent` is read as the text after the last `/`. A trailing slash,
  `.` and `..` are not normalised. `lowercased()` is ASCII-only. String `<` compares
  characters one by one. `contains` is plain substring search.
  Nothing is claimed for an empty name; the model's search would match it.
- `sort` in the source is not stable; the model's sort is one of the orders the source
  may produce, and the proved properties (sorted, a permutation) hold for all of them.
- The created "Embed Frameworks" phase has an empty file list; its destination and
  `dstSubfolderSpec` are not modelled, nor is registering the phase object in the
  table (phases are not table objects here).
- `Int` counts are unbounded here; a count beyond the 64-bit range is out of reach.
- The specification functions of the embed commands compute each name's hits from the
  starting graph, not from the graph the loop has reached. FoundUnchanged proves the two
  are the same. The methods search the graph reached so far, as the source does.
- `embed` picks the first copy-files phase of any name, while `list` reads only phases
  named "Embed Frameworks". A project whose first copy-files phase has another name
  gets embedded frameworks that `list` does not show. The model follows the code.
