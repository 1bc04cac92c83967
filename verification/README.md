# A verified model of the buildsys++ build engine

buildsys++ builds a set of packages in parallel and incrementally. This project
models the part of it that decides what is built, when, and from what, and proves
properties of it for every dependency graph, every schedule of its threads and
every pattern of failing commands. There are five linked parts.

1. **Scheduler.** `Scheduler.dfy` is an interleaved step system: the main thread of
   `World::basePackage`, its detached build threads, and `Package::build` with its
   recursive calls, one mutex per package, `cond_lock` and the flags `built`,
   `was_built` and `building`. A step is one access to something another thread can
   see. `SchedulerInvariant.dfy` and `SchedulerSteps.dfy` hold the invariant and
   its preservation, `SchedulerTheorems.dfy`, `SchedulerProgress.dfy` and
   `SchedulerBound.dfy` the results. `SchedulerRuns.dfy` constructs runs that every
   configuration has, and with them shows what does not hold; `SchedulerWorkers.dfy`
   says exactly when one worker per package does, and `SchedulerRaces.dfy` constructs
   the runs behind the race described below. `SchedulerModes.dfy` says what fetch-only
   and forced mode do, `SchedulerEndings.dfy` how the loop ends, and
   `SchedulerEarlyReturns.dfy` when a failed build leaves workers behind.
   `BuildWorld.dfy` has the `World`
   object in the source's imperative form, each critical section proved to be the
   step (or the run of main's steps) it stands for. `InternalGraph.dfy` is the
   dependency graph object, with the two Boost algorithms it uses implemented and
   proved.
2. **Incremental builds.** `Descriptions.dfy` is `BuildDescription` and the text it
   prints; `Worlds.dfy` says what a build from scratch of a source tree is;
   `Merkle.dfy` that equal build-info hashes mean equal builds, and `Cutoffs.dfy`
   exactly when that stays true with packages that hash their output. `Incremental.dfy`
   adds the disk, the build cache and the decisions of `shouldBuild` and `fetchFrom`
   to the scheduler's steps. `IncrementalInvariant.dfy` and `IncrementalResults.dfy`
   hold what every step keeps, `IncrementalRaces.dfy` is about descriptions that are
   assembled while a file they need is written, `IncrementalOutputs.dfy` about the
   `.output.info` files that descriptions need, `IncrementalFailures.dfy` about runs
   that fail or stop anywhere, `IncrementalDamage.dfy` about what exactly failures
   damage, and `IncrementalTheorems.dfy` has the results: the outcome equals a build
   from scratch. `IncrementalRuns.dfy`, `IncrementalFinish.dfy`
   and `IncrementalRaceRuns.dfy` show which runs there are in every tree: builds that
   succeed, failures that mislead, and races. `IncrementalWitness.dfy` exhibits tools,
   trees and caches that meet all assumptions. `PackageObjects.dfy` has the methods
   that work on those files in imperative form, and `PackageSteps.dfy` the parts of
   `Package::build` that call them, proved to be the steps of the protocol.
3. **Dependency closures.** `Closures.dfy`: the two pruned recursive searches that
   fill the staging directory and the directory of install files.
4. **Discovery.** `Worklist.dfy`: the package queue and the threads that process
   packages, with results in `WorklistTheorems.dfy` and `WorklistBound.dfy`.
   `Pipeline.dfy` shows that discovery and the cycle gate establish what the
   scheduler's theorems assume.
5. **Shared downloads and checkouts.** `Downloads.dfy`, `DownloadTheorems.dfy` and
   `GitCheckouts.dfy`: fetches of one file, or into one source directory, by several
   threads. `Features.dfy` is the lookup of feature values.

`Digraph.dfy` and `Packages.dfy` hold the shared vocabulary.

## How to read the model

- A package is the identity of its `Package` object. The dependency graph, the
  lines a package records while its Lua file is processed, and the text of its
  `.extraction.info` are inputs. A `Definition` (dependencies, intercepts, output
  hashing and so on) is a function of the package and of the recorded lines.
- The file digest and the listing that `.output.info` holds are injective. Running
  a package's commands is an unknown function of the package, its recorded lines,
  its sources and the staged archives. Archives are opaque contents.
- Whether a command, fetch, extraction or download succeeds is part of the action,
  so statements about all runs cover every pattern of failures. A `tar` or a listing
  that fails has already opened its file, so what it leaves there is part of the
  action too.
- Two sets say what failures do. A package is `spoiled` for the rest of a run once
  packing or listing it has failed over its file, or once it was described or built
  over a spoiled package, or described while an `.output.info` that it needs was
  being written. It is `exposed` while a partial restore or packing, or a new
  `.build.info` beside an old `.output.info`, has not been followed by the end of
  `updateBuildInfo`.
- `Gated` is what `basePackage` has established before it builds: the graph is
  complete, acyclic (it has ranks) and discovered from the base package.
- What the incremental theorems ask for is `SetupOk`: no `link` or `copy` fetch, no
  ignored feature, neither forced nor fetch-only mode, an honest build cache, and no
  directory that is filled from past a package that hashes its output
  (`CutoffsCovered`); packages that hash their output and intercept both staging and
  install are the simple case (`Worlds.InterceptingCovers`). Packages that extract
  their dependencies' files (`deps` fetches) or install files are always built.
- Results about successful builds hold for every package that is not spoiled, and
  for all packages if there is no race (`QuietListings`): one thread only, or no
  package c whose build can rebuild locally, through packages that may be skipped, a
  package that hashes its output and that a package d depends on, where neither of c
  and d is below the other.

## Where the code does less than one might expect

- `basePackage` reads `isFailed()` and `isBuilt()` before it takes `cond_lock`
  (src/world.cpp:141-142), so a wakeup can be lost and the program can hang after
  everything has been built. No configuration is safe from that:
  `SchedulerRuns.LostWakeup`. What does hold is that it never stops with work left
  (`SchedulerProgress.StopsOnlyWhenOver`).
- `building` is cleared one statement before `built` is set
  (src/package.cpp:1026-1027), so a second worker can be started for a package. That
  cannot happen exactly if the thread limit is one or the package is suppressed by
  forced mode: `SchedulerWorkers.OneWorkerEach`. The second worker finds the package
  built, and worker starts are bounded by `SchedulerTheorems.WorkerStartsAreBounded`.
- A package that hashes its output but does not intercept staging can hide changes
  below it: `Merkle.UninterceptedCutoffLeaks` is an example, and
  `Cutoffs.CutoffsAreExact` says exactly which trees are affected.
- The text of a description is ambiguous when a value contains a newline followed by
  what reads as another line (`Descriptions.NewlineIsAmbiguous`), and, for fields
  without newlines, exactly when one name in use goes on, after a space, where
  another one ends (`Descriptions.TextIsExact`).
- `updateBuildInfo` empties `.output.info` before the listing is in it
  (src/package.cpp:577-582), and `buildInfo` hashes that file without its package's
  mutex (src/package.cpp:467-473). A package can therefore be described while a local
  rebuild on another thread lists the output that it depends on; it then records the
  hash of an empty file, and the build still returns true:
  `IncrementalRaceRuns.RacesMislead`. In trees that clean no work directory, where
  nothing has to be built and hashed outputs are not empty, all successful builds
  leave the current descriptions exactly if there is no such race:
  `IncrementalRaceRuns.QuietIsExact`.
- `tar` overwrites the archives in place, and so does the listing `.output.info`, so
  one that fails, or a build that stops between a partial restore or packing and the
  end of `updateBuildInfo`, can leave files that the `.build.info` beside them does
  not describe, for a built package too. In every tree failures can do that to any
  package that is not cleaned or hashes its output
  (`IncrementalRuns.FailuresMislead`), and so can partial restores
  (`IncrementalRuns.PartialRestoreMisleads`). Packages that are neither exposed nor
  spoiled are safe: `IncrementalFailures.StoppedDiskIsTruthful`.
- Without keep-going a failed build returns as soon as main sees the failure, while
  other packages may still be in the middle of being built. With more than one thread
  that is possible exactly if two packages are not below each other, one of them not
  suppressed: `SchedulerEarlyReturns.EarlyReturnIsExact`.
- The base package is pushed without being marked as queued (src/world.cpp:84-85),
  so it is processed twice if something depends on it:
  `WorklistTheorems.DiscoveryIsExact`.
- Downloads and checkouts are guarded by the names and paths as they were written,
  which are not normalised. A downloaded file is safe exactly when no fetch under
  another name has that file, or has its temporary file there:
  `DownloadTheorems.GuardIsExact`. Two refspecs are kept apart in a source directory
  exactly when no two paths to one directory are wanted at different refspecs:
  `GitCheckouts.GuardIsExact`.

## Model

| member | source | states |
|---|---|---|
| InternalGraphs.InternalGraph.Fill | src/graph.cpp:32-58 | afterwards `Nodes` and `NodeMap` are inverse to each other and the edges, parallel ones included, are those of the depends lists |
| InternalGraphs.InternalGraph.AddVertex | src/graph.cpp:34-46 | a package seen before keeps its vertex; a new one gets a fresh vertex in both indexes |
| InternalGraphs.DepthFirstSearch.Run | src/graph.cpp:86-91 | the search finishes every vertex once, after everything it has an edge to unless that edge is a back edge, and every back edge closes a cycle |
| InternalGraphs.BackEdgesAreCycles | src/graph.cpp:60-92 | a finished search met a back edge exactly when the graph, self-loops and parallel edges included, has a cycle; otherwise its finishing order is topological |
| InternalGraphs.InternalGraph.GetCycledPackages | src/graph.cpp:60-92 | the cycle gate: no package is reported exactly when the dependency graph is acyclic, every package reported lies on a cycle, and of every cycle two packages that follow each other are reported |
| InternalGraphs.InternalGraph.TopologicalSort | src/graph.cpp:101-106 | succeeds exactly on an acyclic graph, and then lists every package once, dependencies first |
| InternalGraphs.InternalGraph.DeleteNode | src/graph.cpp:108-111 | keeps the indexes and drops exactly the edges at p's vertex |
| InternalGraphs.ClearedAllEdges | src/graph.cpp:108-111 | after any sequence of deletions all vertices remain, and an edge remains exactly if neither end was deleted |
| InternalGraphs.ClearedAcyclic | src/graph.cpp:101-111 | deleting a node keeps the graph acyclic, so sorting it again cannot fail |
| InternalGraphs.InternalGraph.PackageFinished | src/world.cpp:177-184 | deleting the finished package and sorting again succeeds and lists every package once, dependencies first under the remaining edges |
| InternalGraphs.InternalGraph.TopoNext | src/graph.cpp:113-124 | returns the last package of the order that is neither built nor building and has all dependencies built, and none exactly when there is none |
| SchedulerSteps.StepKeeps | src/world.cpp:32-175 | every step of every thread keeps the whole invariant of flags, mutexes, call stacks, counters and main's position |
| SchedulerSteps.InvAlways | src/world.cpp:140-175 | the invariant holds after every run of every schedule |
| SchedulerTheorems.FlagsOnlyGrow | src/package.cpp:1026-1028 | no step of any thread takes back `built` or `was_built` |
| SchedulerTheorems.BuiltIsDownwardClosed | src/package.cpp:920-925 | in every reachable state everything below a built package is built |
| SchedulerTheorems.WorkersStartReady | src/world.cpp:148-161 | a worker is only started for a package that is not being built and whose dependencies are all built |
| SchedulerTheorems.FailureAndSuccessExclude | src/world.cpp:38-49 | "some worker failed" and "the base package is built" never hold together |
| SchedulerTheorems.BasePackageResult | src/world.cpp:140-174 | `basePackage` returns true exactly when every package is built, and false exactly when a worker failed |
| SchedulerTheorems.KeepGoingWaits | src/world.cpp:162-173 | in keep-going mode a failed build returns only when no worker is left |
| SchedulerEndings.EpilogueIsForKeepGoing | src/world.cpp:162-173 | without keep-going, main is never in the epilogue that waits for workers |
| SchedulerEndings.ReturnsAtOnce | src/world.cpp:161-174 | without keep-going, the two steps that main takes once it has left the loop return, whatever the workers do meanwhile |
| SchedulerEarlyReturns.LeavesWorkerBehind | src/world.cpp:140-174 | without keep-going and with more than one thread, of any two packages that are not below each other one that is not suppressed can fail, and the build return false, while the other one is still being built |
| SchedulerEarlyReturns.LeftBehindIsBeside | src/world.cpp:140-174 | in every state with a failure, a package still being built is not below, and not above, the package that failed first, which is not suppressed |
| SchedulerEarlyReturns.EarlyReturnIsExact | src/world.cpp:140-174 | so, without keep-going and with more than one thread, a failed build can return during another package's build exactly if there are two packages that are not below each other, one of them not suppressed |
| SchedulerEarlyReturns.AnyStepCanFail | src/package.cpp:936-1018 | whatever the dependencies, every part of any package's build can be the one that fails a run, by throwing or, where the code returns false, by that |
| SchedulerEndings.FailuresAreListed | src/include/buildsys.h:1090-1100 | the list of failed packages names exactly the packages whose worker failed, each once |
| SchedulerEndings.FailureStopsStarts | src/world.cpp:141-158 | once a worker has failed, in any mode and schedule, at most one more worker is started, and none after main has next read `failed` |
| SchedulerEndings.OverIsSeen | src/world.cpp:140-174 | when main looks whether the build is over, with the base built or, without keep-going, with a failure, it returns within seven steps of its own and never sleeps again, whatever the workers do |
| SchedulerEndings.NobodyEndsUnheard | src/include/buildsys.h:1090-1120 | `packageFinished`, `setFailed` and `threadEnded` each wake a sleeping main |
| SchedulerTheorems.ThreadAccounting | src/include/buildsys.h:1109-1125 | `threads_running` is the number of workers that have not called `threadEnded`, and never exceeds a positive limit |
| SchedulerTheorems.AtMostOnce | src/package.cpp:912-918 | a package's build completes at most once in a run, and its commands run to their end at most once more than builds fail after them |
| SchedulerModes.FetchOnlyRunsNothing | src/package.cpp:972-1019 | in fetch-only mode no package's commands ever run, and no call of `build` on any thread is ever between extracting sources and recording the build |
| SchedulerModes.CompletedHasRun | src/package.cpp:980-1028 | in every other mode, a package whose build completed has had its commands run to their end |
| SchedulerModes.SuppressedDoesNothing | src/package.cpp:927-934 | a package that forced mode suppresses runs no commands, is never marked as built in this run, and its worker never fails |
| SchedulerTheorems.BuildsNeverOverlap | src/package.cpp:912-913 | two calls are never inside the same package's build, on one thread or on two |
| SchedulerTheorems.WorkerStartsAreBounded | src/graph.cpp:113-124 | at most twice as many workers as packages are started, a second one for a package only after its `building` was cleared |
| SchedulerTheorems.LocalBuildClosure | src/package.cpp:954-970 | whatever a package built in this run depends on through local dependencies was built in this run too, up to suppressed packages |
| SchedulerTheorems.LocksFollowDependencies | src/package.cpp:913-925 | the mutexes a worker holds or waits for lie on one path of the dependency graph |
| SchedulerTheorems.WaitingDescends | src/package.cpp:963-970 | a worker waits only for a mutex ranked below those its predecessor in a chain of waiters wants |
| SchedulerTheorems.NoLockCycle | src/package.cpp:912-925 | there is never a cycle of workers each waiting for a mutex that the next one holds |
| SchedulerProgress.SomeWorkerMoves | src/package.cpp:910-1032 | while a worker is building, following mutex owners finds a worker that can move |
| SchedulerProgress.SleepIsWatched | src/world.cpp:158-174 | while main sleeps with nothing failed and the base not built, some worker has yet to call `threadEnded` |
| SchedulerProgress.StopsOnlyWhenOver | src/world.cpp:140-174 | the program stops exactly when all workers have ended and main has returned or sleeps, and then a worker has failed or everything is built |
| SchedulerBound.StepCounts | src/world.cpp:140-160 | every step but a spurious wakeup uses up one of a number of steps that is finite from the start |
| SchedulerBound.RunsAreBounded | src/world.cpp:140-174 | no schedule runs for longer than a bound fixed by the dependency graph, plus a round of main's loop per spurious wakeup |
| SchedulerBound.EveryRunStops | src/world.cpp:140-174 | every run can be carried on, without spurious wakeups, to a state in which nothing moves |
| SchedulerRuns.LostWakeup | src/world.cpp:141-160 | whatever the dependencies, modes and thread limit, whatever orders sorting gives in each state, and whichever packages are found up to date, there is a run in which everything is built and main then sleeps for good |
| SchedulerRuns.SecondWorker | src/package.cpp:1026-1027 | whatever orders sorting gives, any package that is neither suppressed nor found up to date gets a second worker in some run, unless the thread limit is one |
| SchedulerRuns.BuildsAndReturns | src/world.cpp:140-174 | whichever packages are found up to date there is a run that returns true, and in which packages that nothing built asks for locally are not built |
| SchedulerWorkers.OneWorkerEach | src/world.cpp:148-157 | a package never gets a second worker, in any run, exactly if the thread limit is one or the package is suppressed |
| SchedulerWorkers.OneWorkerPerPackage | src/world.cpp:148-157 | no package ever gets a second worker exactly if the thread limit is one or all packages are suppressed |
| SchedulerRaces.SomeRace | src/package.cpp:954-970 | unless the thread limit is one, two packages that are not below each other have a run in which one is about to be described while the other one's worker lists the output of a package that it rebuilds locally |
| BuildWorld.World.PackageFinished | src/world.cpp:177-184 | the worker's package is cleared from the graph, which is sorted again, dependencies first; that is the scheduler's step with the new order, and main is woken |
| BuildWorld.World.SetFailed | src/include/buildsys.h:1090-1100 | is the scheduler's step: the package recorded, `failed` set, main woken |
| BuildWorld.World.ThreadEnded | src/include/buildsys.h:1115-1120 | is the scheduler's step: one thread less, main woken |
| BuildWorld.World.CanBuild | src/package.cpp:392-405 | true exactly for a built package or one whose dependencies are all built, and does what main's scanning steps do |
| BuildWorld.World.TopoNext | src/graph.cpp:113-124 | picks the last package of the order that is neither built nor building and has its dependencies built, and does what main's scanning steps do |
| BuildWorld.World.Schedule | src/world.cpp:142-160 | the locked body of the loop does what main's steps do when no worker moves in between, ends in a new worker or asleep, and changes nothing if asleep |
| BuildWorld.RepeatStaysReachable | src/world.cpp:142-160 | what the methods above do stays within the states that the scheduler's theorems are about |
| Descriptions.FormatIs | src/buildinfo.cpp:51-134 | the line that each kind of unit becomes, letter by letter |
| Descriptions.BuildDescription.Add | src/buildinfo.cpp:67-134 | appends one unit, formatted |
| Descriptions.BuildDescription.AddFeatureValue | src/buildinfo.cpp:51-60 | appends the feature's value unless the feature is ignored |
| Descriptions.BuildDescription.PrintTo | src/buildinfo.cpp:141-146 | prints each unit on its own line, in order |
| Descriptions.LineDecides | src/buildinfo.cpp:51-134 | two units with one-line fields and names that do not run on have the same line only if they are the same, whatever kind they are |
| Descriptions.PrintInjective | src/buildinfo.cpp:141-146 | two clean descriptions with the same text are the same |
| Descriptions.TextIsExact | src/buildinfo.cpp:51-146 | for one-line fields over a set of names, equal texts mean equal descriptions exactly if no name in the set goes on, after a space, where another one ends |
| Descriptions.NewlineIsAmbiguous | src/buildinfo.cpp:51-60 | a value that ends in a newline and the line of any unit prints like the value followed by that unit |
| Merkle.TextDetermines | src/package.cpp:493-533 | equal texts mean equal recorded lines, equal extraction info, equal definitions and equal lines for the dependencies |
| Merkle.SameTextSameOut | src/package.cpp:493-533 | equal texts mean equal outputs of clean builds |
| Merkle.EqualHashesEqualBuilds | src/package.cpp:451-482 | equal build-info hashes mean equal outputs, recorded lines and sources |
| Merkle.EqualHashesEqualTrees | src/package.cpp:467-533 | and that for every package of the dependency tree that is reached through build-info hashes |
| Merkle.ClosureSame | src/package.cpp:692-732 | equal texts mean equal staging and install closures with equal outputs |
| Worlds.InterceptingCovers | src/interface/toplevel.cpp:306-321 | a tree whose output-hashing packages intercept staging and install is covered |
| Cutoffs.CutoffsAreExact | src/package.cpp:467-478 | equal texts mean equal clean builds, for all commands and against all covered trees, exactly when no directory is filled from past a package that hashes its output |
| Merkle.UninterceptedCutoffLeaks | src/package.cpp:467-478 | two trees with an output-hashing package that intercepts nothing, whose base packages have equal texts and different clean outputs |
| Closures.DependencyGraph.GetStagingPackages | src/package.cpp:717-732 | for any contents of the shared set, adds only what is reachable without passing an intercept and leaves everything it added expanded |
| Closures.DependencyGraph.GetDependedPackages | src/package.cpp:692-710 | the same search for install files: without children it stops everywhere, ignoring intercepts nowhere, and otherwise at packages that intercept install |
| Closures.SearchIsReachability | src/package.cpp:692-732 | a search that started from the empty set found exactly the packages reachable by paths whose inner packages do not intercept |
| Closures.DependencyGraph.StagingPackages | src/package.cpp:749-750 | the staging set is exactly that reachability set, for any dependency order and any sharing |
| Closures.DependencyGraph.InstallPackages | src/package.cpp:805-806 | the set of install files is exactly the direct dependencies, or exactly what is reachable without passing a package that intercepts install |
| Closures.CutEverywhereIsDirect | src/package.cpp:704-708 | without children the set is that of the direct dependencies |
| Closures.CutNowhereIsReaches | src/package.cpp:704-708 | ignoring intercepts it is everything below the package |
| PackageObjects.PackageObject.WriteBuildInfoFile | src/package.cpp:484-491 | `.build.info.new` gets the description's text and the hash is that text's digest |
| PackageObjects.PackageObject.BuildInfo | src/package.cpp:467-478 | the line that stands for the package in its dependents' descriptions |
| PackageObjects.PackageObject.AddDepends | src/package.cpp:508-525 | fails exactly if some dependency has no hash, and otherwise appends the dependencies' lines in order |
| PackageObjects.PackageObject.PrepareBuildInfo | src/package.cpp:493-533 | assembles the description once and writes it; called again it only puts the same file back; a throw leaves the files alone |
| PackageObjects.PackageObject.UpdateBuildInfo | src/package.cpp:568-586 | throws exactly without a `.build.info.new`, which changes nothing, or, after the rename, when `.output.info` cannot be opened or the listing fails over the emptied file; otherwise renames and, if asked, lists the output |
| PackageObjects.PackageObject.FfFile | src/package.cpp:407-449 | a file is stored exactly if the cache has it and both the download and the rename go through; otherwise nothing changes |
| PackageObjects.PackageObject.FetchFrom | src/package.cpp:588-634 | downloads stop at the first file that does not arrive; the files fetched by then are in place, and `.build.info.new` is renamed only if all were fetched |
| PackageObjects.PackageObject.ShouldBuild | src/package.cpp:636-681 | updated code and files to install always mean a rebuild; what has both archives and an unchanged description is skipped; of the rest, what cannot be looked up is rebuilt as it is, and otherwise it is rebuilt exactly if some needed file does not arrive from the cache, the files before the first such one being in place; with all files in place it is skipped, or throws exactly if there is no `.build.info.new` |
| PackageObjects.PackageObject.PrepareBuildDirs | src/package.cpp:740-779 | succeeds exactly if every package of the staging set has an archive that tar can extract, and then has extracted exactly those |
| PackageObjects.PackageObject.ExtractInstallDepends | src/package.cpp:781-832 | does nothing without a directory for install files; otherwise succeeds exactly if the old directory can be removed and every package of the install set has an archive that tar can extract, and then has extracted exactly those |
| PackageSteps.PrepareFiles | src/package.cpp:936-952 | cleaning if asked for and `prepareBuildInfo`, throws included, are the protocol's step on the files |
| PackageSteps.DecideBuild | src/package.cpp:955-960 | `shouldBuild`, whatever it answers and whatever it fetched, is the protocol's step |
| PackageSteps.StageDirs | src/package.cpp:989-995 | staging goes through exactly if every archive to extract is there and nothing fails over one, and is then the protocol's step |
| PackageSteps.PackNewStaging | src/package.cpp:834-850 | `packageNewStaging`, failing or not, is the protocol's step |
| PackageSteps.PackNewInstall | src/package.cpp:852-883 | `packageNewInstall`, failing or not, is the protocol's step |
| PackageSteps.RecordBuild | src/package.cpp:568-586 | `updateBuildInfo` is the protocol's three steps, as far as they go |
| IncrementalInvariant.CurrentMeansRight | src/package.cpp:636-669 | where `.build.info` tells the truth and has the current text, the archives beside it are those of a clean build |
| IncrementalInvariant.AssembledIsText | src/package.cpp:493-533 | what `prepareBuildInfo` assembles over built dependencies is the description a clean build would have |
| IncrementalInvariant.FetchedIsRight | src/package.cpp:588-634 | a complete restore from an honest cache gives the clean archives and the current `.build.info` |
| IncrementalInvariant.TriedKeeps | src/package.cpp:617-623 | a partial restore leaves a package to be built as it was |
| IncrementalInvariant.StagedIsClean | src/package.cpp:740-832 | over built packages every archive to extract exists, and unless one of them is spoiled the directories get what a clean build would stage |
| IncrementalInvariant.WorkKeepsStore | src/package.cpp:910-1032 | every step of every call of `build`, failing ones included, keeps: built packages have their archives, and the right ones unless they are spoiled; calls in progress have the files they rely on; untouched packages are as they were found |
| IncrementalRaces.NeitherIsBelow | src/package.cpp:920-970 | when a package is about to be described while a built one's output is listed, two workers are live, and neither worker's package is below the other |
| IncrementalRaces.QuietIsReliable | src/package.cpp:467-478 | without a race a package is never described while an `.output.info` that it needs is being written |
| IncrementalResults.MoveKeepsResult | src/package.cpp:910-1032 | the same together with the scheduler's invariant and, while nothing has failed, every `.build.info` being the assembled description and, without races, every package being reliable |
| IncrementalResults.RunsAreSchedulerRuns | src/package.cpp:910-1032 | a run of the build is a run of the scheduler once files are forgotten, so all scheduler results apply |
| IncrementalResults.BuiltArchivesAreClean | src/package.cpp:636-681 | in every state of every run, failing ones included, the archives of a built package that is not spoiled are those of a build from scratch |
| IncrementalResults.HashDescribesFile | src/package.cpp:451-465 | while nothing has failed, the build-info hash of a built package that nobody works on is the hash of its `.build.info` |
| IncrementalResults.BaseBuiltMeansVouched | src/package.cpp:1013-1028 | once the base package is built every package's `.build.info` is the description that was assembled for it |
| IncrementalResults.BaseBuiltMeansRight | src/package.cpp:1013-1028 | and that is its current description, with the archives and `.output.info` of a clean build, unless it is spoiled, which without a race none is |
| IncrementalOutputs.HashedOutputsAreThere | src/package.cpp:467-478 | once the base package is built, every package whose output was hashed for another one's description has its `.output.info`, that of a clean build if there is no race or it is not spoiled |
| IncrementalFailures.MoveKeepsKept | src/package.cpp:910-1032 | every step of every thread keeps: a `.build.info` that is there is true unless its package is exposed or spoiled |
| IncrementalFailures.StoppedDiskIsTruthful | src/package.cpp:955-1018 | wherever a run stops and whatever failed in it, the `.build.info` of a package that is neither exposed nor spoiled describes the files beside it |
| IncrementalDamage.SpoiledIsBlamed | src/package.cpp:834-883 | without races, only packages at which a `tar` or a listing failed over its file, and packages above them, are ever unreliable in a run; other failures and partial restores harm no other package |
| IncrementalDamage.ExposedIsTorn | src/package.cpp:568-634 | a package is exposed exactly if some step left files under its `.build.info` that this does not speak for, and no complete restore and no end of `updateBuildInfo` has come after it |
| IncrementalDamage.ExposedIsUnderWay | src/package.cpp:955-1018 | as long as nothing has failed, a package is exposed only while a call of `build` for it is past `shouldBuild` and has not finished `updateBuildInfo` |
| IncrementalTheorems.BuildEqualsFromScratch | src/package.cpp:910-1032 | when `basePackage` returns true every package, without a race, and every package that is not spoiled otherwise, has the archives and the `.build.info` of a build from scratch, and the `.output.info` too if it is there or another package's description needs it, whatever the disk and the cache held and whatever was skipped or rebuilt |
| IncrementalTheorems.CachesDoNotMatter | src/package.cpp:588-634 | successful builds of one tree without races agree on archives, descriptions and the `.output.info` files that descriptions need, with or without caches, whatever these hit or missed |
| IncrementalTheorems.AttemptKeepsTruth | src/package.cpp:910-1032 | a run that succeeds without races, or fails or stops anywhere without leaving a package exposed or spoiled, leaves a disk that the next run may start from |
| IncrementalTheorems.EveryBuildEqualsFromScratch | src/package.cpp:910-1032 | in any series of runs on changing trees, some of which failed or stopped without leaving a package exposed or spoiled, every successful run's result is that of a build from scratch |
| IncrementalTheorems.NothingIsMissing | src/package.cpp:568-574 | except where `prepareBuildInfo` and `shouldBuild` decide, files never block a call, whatever has failed: archives to stage exist, outputs can be packed and listed, `.build.info.new` can be renamed |
| IncrementalTheorems.StagedInputsExist | src/package.cpp:740-832 | whenever `prepareBuildDirs` extracts, every package of its sets is built and has its archive |
| IncrementalTheorems.BuildNeverStalls | src/package.cpp:910-1032 | while a thread is inside `build`, some thread can move, with mutexes and files taken together |
| IncrementalRuns.RunFollows | src/package.cpp:910-1032 | a scheduler run that fails nowhere, skips only what is up to date or in the cache and describes nothing while an output is listed is a run of the build: the files never stand in its way |
| IncrementalRuns.TreeBuilds | src/package.cpp:910-1032 | for every set of packages that are up to date or in the cache there is a build that returns true, builds the rest and whatever that asks for locally, and builds none of the others |
| IncrementalRuns.FailuresMislead | src/package.cpp:835-850 | in every tree, for a package whose work directory is not cleaned or that hashes its output, a failing `tar` or listing can leave a `.build.info` that is not true |
| IncrementalRuns.PartialRestoreMisleads | src/package.cpp:617-623 | in every tree a restore of the staging archive alone leaves it beside the `.build.info` of an earlier tree, which is then not true if that tree's archive was another one |
| IncrementalFinish.GoodBuildsCanSucceed | src/package.cpp:910-1032 | a build in which nothing has failed, and whose hashed outputs are there or still to be made, can be carried on until it returns true |
| IncrementalRaceRuns.RacedIsWrong | src/package.cpp:467-473 | a package that is described while an output that it depends on is listed does not get its current description, if that output is not empty |
| IncrementalRaceRuns.RacesMislead | src/package.cpp:577-582 | in every plain tree with a race some build returns true and leaves a `.build.info` that is not the current description |
| IncrementalRaceRuns.QuietIsExact | src/package.cpp:467-582 | in plain trees (nothing has to be built, no work directory is cleaned) whose hashed outputs are not empty, all successful builds leave the current descriptions exactly if there is no race |
| IncrementalWitness.SomeBuildSucceeds | src/package.cpp:910-1032 | what the theorems above assume can be met: a build from an empty tree that runs commands and returns true |
| IncrementalWitness.SomeBuildSkips | src/package.cpp:949-955 | the same for a build that finds everything up to date |
| IncrementalWitness.SomeBuildRestores | src/package.cpp:588-634 | the same for a build that restores everything from the cache |
| IncrementalWitness.SomeBuildIsLocal | src/package.cpp:959-970 | the same for a build that skips a package that hashes its output and then rebuilds it locally for the package described by that output |
| IncrementalWitness.SomeRestoreMisleads | src/package.cpp:617-623 | two trees and a cache for which a partial restore leaves a `.build.info` that is not true |
| IncrementalWitness.SomeRaceMisleads | src/package.cpp:577-582 | a tree of four packages in which a race misleads a build that returns true |
| Worklist.PackageQueue.Pop | src/include/buildsys.h:1004-1013 | takes the front element, or nothing from an empty queue |
| Worklist.PackageQueue.Push | src/include/buildsys.h:999-1003 | appends one package |
| WorklistTheorems.StepKeeps | src/world.cpp:56-97 | every step keeps the accounting of pushed, queued, pending and processed packages |
| WorklistTheorems.DoneMeansQuiet | src/world.cpp:82-97 | when `done()` ends the loop no thread is left that could push, and everything pushed was processed |
| WorklistTheorems.SleepIsWatched | src/include/buildsys.h:1019-1027 | while main sleeps some `finish()` is still to come |
| WorklistTheorems.SomethingMoves | src/world.cpp:82-97 | discovery never deadlocks |
| WorklistTheorems.ProcessedAtMostOnce | src/world.cpp:60-66 | whatever fails, no package but the base is processed twice, and none that the base does not reach |
| WorklistTheorems.DiscoveryIsExact | src/world.cpp:56-97 | without failures exactly the packages below the base are processed, each once, and the base once more if something it reaches depends on it |
| WorklistTheorems.DiscoveryIsComplete | src/world.cpp:67-79 | the dependencies of everything processed are processed, or a failure is reported, and a failure is reported exactly if a package failed |
| WorklistBound.RunsAreBounded | src/world.cpp:82-97 | discovery ends: every run's length is bounded by the number of packages and dependencies |
| Pipeline.DiscoveryFeedsScheduler | src/world.cpp:112-140 | after a discovery without failures and a successful sort, the graph is what the scheduler's theorems assume and holds exactly the packages discovered |
| Downloads.FullName | src/fetch.cpp:63-77 | the given name, or what follows the last slash of the URI; empty exactly if there is none or nothing follows it |
| Downloads.DLObjects.FindDLObject | src/fetch.cpp:48-60 | one object per file name, found or created |
| Downloads.DLObjects.Claim | src/fetch.cpp:121-138 | refuses exactly a hash other than the recorded one, and records the first hash |
| Downloads.StepKeeps | src/fetch.cpp:106-183 | every step of every fetch keeps: mutexes have one owner, accepted hashes are recorded, vouched files are intact and not being replaced |
| DownloadTheorems.RecordedOnce | src/fetch.cpp:121-138 | along any run a recorded hash is never replaced |
| DownloadTheorems.OtherHashesAreRefused | src/fetch.cpp:121-131 | a fetch that wants another hash than the recorded one has not touched a file and can only fail |
| DownloadTheorems.DownloadsStayIntact | src/fetch.cpp:140-183 | after a fetch that expects a hash has succeeded its file keeps that hash for the rest of the run, unless a fetch under another name has that file or its temporary file there |
| DownloadTheorems.FetchByItself | src/fetch.cpp:106-183 | a fetch that runs undisturbed is refused if another hash is on record; else it takes the file that is there, or the cache's, or if the cache misses the one from upstream, throws exactly if there is none, and keeps it and succeeds exactly if it has the hash |
| DownloadTheorems.GuardIsExact | src/fetch.cpp:140-167 | the guard protects a fetch's file, in all runs, exactly when no fetch under another name has that file, or has its temporary file there |
| GitCheckouts.InvAlways | src/extraction/git.cpp:229-338 | mutexes and recorded refspecs belong to paths and have one owner; a source directory that a fetch succeeded on is at its refspec unless another path to it is wanted at another |
| GitCheckouts.CheckoutsStay | src/extraction/git.cpp:239-338 | after a fetch has succeeded its source directory stays at its refspec, unless another path to it is wanted at another refspec |
| GitCheckouts.CheckoutByItself | src/extraction/git.cpp:229-338 | a checkout that runs undisturbed is refused, touching nothing, if another refspec is on record; else it throws if git fails, and otherwise leaves the source directory at its refspec, or for HEAD as it was |
| GitCheckouts.GuardIsExact | src/extraction/git.cpp:239-262 | two refspecs never both succeed in one source directory, in all runs, exactly when no directory is wanted by two paths at two refspecs |
| Features.FeatureMap.SetFeature | src/featuremap.cpp:42-54 | the first value stays unless overriding is asked for; other features are untouched |
| Features.FeatureMap.SetFeatureFrom | src/featuremap.cpp:63-75 | splits at the first equals sign and overrides, or changes nothing without one |
| Features.FeatureMap.GetFeatureFor | src/interface/toplevel.cpp:59-78 | a package's own setting, under its name, a colon and the key, wins; no package name means the global key; in general it is the lookup that the next row is about |
| Features.LookupIsInnermost | src/interface/toplevel.cpp:59-78 | a setting under the package or a directory above it, a colon and the key is what the package sees if no closer one is set; the global key, or nothing, if none of them is set |

## Left out

- IncrementalTheorems.BuildEqualsFromScratch: does not cover forced mode, fetch-only
  mode, ignored features, or `link` and `copy` fetches, for which the code gives up
  on recorded descriptions; and a `tar` that succeeds replaces its archive at once,
  so extraction by another thread while a local rebuild rewrites an archive is not
  modelled.
- IncrementalFailures.StoppedDiskIsTruthful: being killed in the middle of a `tar` or
  a listing is the failure of that command; being killed in the middle of writing
  `.build.info.new` is not modelled. A package stays spoiled for the rest of a run
  even if a local rebuild repairs it.
- IncrementalRaceRuns.QuietIsExact: covers trees in which no package has to be built
  and no work directory is cleaned. In other trees the absence of races is still
  enough, but a package that has to be built first may happen to prevent one.
- SchedulerEarlyReturns.EarlyReturnIsExact: for a thread limit of one, only the half
  that `SchedulerEarlyReturns.LeftBehindIsBeside` states is proved.
- PackageSteps.StageDirs: leaves open what the two directories hold after a failure;
  nothing reads them then.
- src/extraction.cpp and the work directory between runs (`.extraction.info`, leftover
  sources) and `.fetch.info`: a package's sources are a text that its build uses.
- The files copied by `setInstallFile` are treated as the package's install archive.
- Parse-only mode, which returns before the modelled phase, and thread limits below
  zero.
- src/namespace.cpp: the find-or-create lookup behind package identities would only
  repeat `FindDLObject`.
- Lua bindings other than their effect on depends lists, features and intercepts;
  `BuildDir` paths and overlay search; `Digest` files, whose hashes are inputs. Which
  file a name or path leads to is an input as well.
- Git commands other than whether they succeed and which refspec they leave checked
  out; commit hashes are not compared.
- Process execution, pseudo terminals, signals, logging, timing and graph output.
- Memory-level effects: data races on non-atomic fields, and objects destroyed while
  a detached thread still runs. Counters are unbounded integers.
