# Model of the HTTP module and its vendored Metamod

This project models, in Dafny, the parts of the repository whose correctness depends on state: the hook dispatch of
Metamod and its re-entrancy, the life of a plugin and the plugin list, the lists of registered commands and cvars
(all under `dep/metamod`), the handle container, the manager of requests, options and queues (`src`), and two parsers:
the separator split with the SteamID conversion, and the search for a plugin file. Objects that the program updates in
place are classes with the same fields; their methods are proved against functions on values, and the theorems are
about those functions, over every input, every tree of nested calls or every run.

| files | what they hold |
|---|---|
| `HookDispatch`, `HookLaws` | the macros that dispatch an API call; which routines run, what they see, what is returned |
| `HookViews` | what every hook finds in the globals and what the caller gets, told from the flags alone |
| `Plugin`, `PluginRuns` | loading, unloading, reloading, pausing and clearing one plugin; what every run keeps |
| `PluginLaws` | what each of these leaves in the fields, told from the outcome of the DLL's routines |
| `PluginListSpec`, `PluginListLaws`, `PluginList` | the list of 50 slots as a value, its invariants over runs, and the same in place |
| `RefreshLaws`, `ConservationLaws` | a refresh as mark and sweep; DLL handles over runs of the whole list |
| `IniLaws`, `IniChoice` | which lines of plugins.ini get into the list at startup, told from the lines |
| `SweepLaws`, `AddLaws` | what a refresh does with newer files and new lines; adding plugins, finding them by a prefix, their descriptions |
| `UnloadNest`, `UnloadNestLaws`, `UnloadNestStates` | plugins that ask for the unload of plugins while plugins are being unloaded; the guard against it; what it does to states and DLLs |
| `ReloadNest` | the same while a plugin is being reloaded |
| `RequestLaws` | which plugin a request is about, and what becomes of it, told from the fields of the slots |
| `HandleContainer` | recycled handles |
| `HttpSpec`, `HttpLaws`, `HttpModule` | requests, options, queues and their engines as a value, what every step keeps, and the same in place |
| `SendLaws`, `SlotEngines` | to which engine a request goes, and what a map change makes of it, told from the tables; what every run keeps of the engines in the queues |
| `ResetLaws`, `ResetCallbacks`, `ResetFailures` | a map change with the callbacks that run in the middle of it; which callbacks it can bear, and two that it cannot |
| `Registrations`, `CommandRegistry`, `CvarRegistry`, `Unregistering` | histories of registrations, the two lists that must agree with them, and what an unload does to both |
| `Split`, `SteamId`, `ResolveSuffix` | the parsers |
| `Common`, `Strings`, `StringLaws` | shared definitions, and comparison in any case letter by letter |

What the outside world does is a parameter: the outcome of opening, querying, attaching and detaching a DLL, the clock
and the file system, which requests an engine has completed, what a callback does, which of the queues made in the middle
of a walk over a hash table the walk still comes to, whether a function is still mapped.
Traces and histories are ghost state.

## Where the code does not do what it or its documentation says

Each of these is a lemma with the exact condition, or with a concrete input, or both.

- A value that a pre hook returns with MRES_OVERRIDE is lost (`PreOverrideIsLost`, `DocumentedResultIff`).
- A query that is refused while `meta_errno` is ME_DLOPEN, which a load tried from inside Meta_Query leaves there, keeps
  the file open without its info; the next load opens it again (`LoadKeepsExactIff`, `UntidyLoadLeaks`).
  Reloads and retries do the same, and no other operation does (`StepKeepsExactIff`).
- A pause that the plugin's limit forbids withdraws whatever was delayed: the unload or reload is forgotten
  (`PauseWithdrawsIff`).
- A reload during whose detach somebody's request for the same plugin is decided leaves the plugin unloaded, or running
  with its file closed (`ReloadEndsAttachedIff`).
- A line of plugins.ini that overrides a delayed plugin zeroes a slot whose file is open (`MarkConservesIff`,
  `DelayedPluginIsForgotten`).
- A line of plugins.ini for a better platform that matches two plugins makes room by the first one only, so two builds of
  one plugin are loaded (`OnlyTheFirstMakesRoom`, `SuchLinesAreThere`; `BestAreHeld` when matching is transitive).
- Repeated lines of plugins.ini use up the bound on lines, so a listed plugin can be unloaded
  (`RepeatedLinesHideAPlugin`); an unlisted one survives when it may be unloaded at startup only (`MarkAndSweep`).
- A plugin that may be unloaded at startup only can be left running with its file closed: when its unload is forced, and
  while it is detached another plugin asks for it and is refused, the forced unload closes the file and then finds no
  action to carry out (`ForcedUnloadStrandsAPlugin`, `ServeStaysExactIff`).
- The guard of plugin_unload does not survive a second request of the same plugin (`SecondRequestBreaksTheGuard`,
  `FlagsAgreeIff`).
- Clearing a plugin that failed to attach closes its file but leaves its commands and cvars registered
  (`ClearLeavesWhatIsServed`).
- A map change destroys engines in the middle of its loop, and their destructors run the callbacks of the cancelled
  requests there and then. A queue that such a callback makes can be left over (`MadeQueueIsLeft`,
  `OnlyMainIsLeftIff`); an engine that it puts into the queue of a user is destroyed without a cancel
  (`EngineEndsUncancelled`, `UncancelledIff`). Callbacks that make no queue, or send nothing, rule this out
  (`OnlyMainIsLeft`, `EveryEndWasCancelled`).
- The rule that the options of a request are valid as long as the request holds iff plugins do not share options and do
  not destroy options in use (`SendKeepsRuleIff`, `DestroyKeepsRuleIff`, `SharedOptionsAreLost`).
- The comment on resolve_suffix lists `path` and `path_mm` among the names it tries; it tries neither
  (`EveryCandidateIsLonger`).
- split does not end for an empty separator (`EmptySeparatorNeverEnds`); a SteamID with an empty account number is
  converted as 0 (`AccountIsNumeral`), and one with Z of 2^31 or more to a wrong number (`ExactIff`).

## Model

| member | source | states |
|---|---|---|
| HookDispatch.Metamod.Dispatch | dep/metamod/metamod.h:197-421 | one API call, for every finite tree of calls nested in it: the depth counter ends where it began and never goes below zero, a backup is read only where one was taken, a call entered at depth > 0 leaves the globals exactly as found, the trace is the one of the specification and the value is `Result` |
| HookDispatch.Metamod.CallReal | dep/metamod/metamod.h:242-288 | the real routine runs iff it is there and nothing superceded; when it is missing the status is reset, except for the optional table |
| HookDispatch.Metamod.CallPlugins | dep/metamod/metamod.h:319-360 | the plugin loop refines `LoopAfter`, and shows each plugin the view that `PhaseTrace` says |
| HookDispatch.Metamod.CallPlugin | dep/metamod/metamod.h:322-360 | one turn of that loop; the flag read after the hook is the one that the plugin itself set |
| HookDispatch.Metamod.RunHook | dep/metamod/metamod.h:335-348 | whatever a hook calls, it goes on seeing the globals it was given, and leaves only its own flag |
| HookLaws.LoopAfterMeaning | dep/metamod/metamod.h:319-360 | the status of a plugin loop is the highest flag of the hooks that ran, its override value the last one given with the wanted flag |
| HookLaws.SupercededMeaning | dep/metamod/metamod.h:212-288 | the real routine is skipped iff some running pre hook supercedes |
| HookLaws.TypedResult | dep/metamod/metamod.h:319-421 | with the real routine there, no pre hook overriding and no post hook superceding: the last superceding value, else the last overriding value of a post hook, else the real value |
| HookLaws.DocumentedResultIff | dep/metamod/meta_api.h:75-80 | what the comments on the flags promise holds iff no override is lost: lost to `ret_init` when only pre hooks override, to the real value when a post hook supercedes |
| HookLaws.PreOverrideIsLost | dep/metamod/metamod.h:319-352 | a concrete call in which a pre hook overrides with 5, the routine returns 3, and the caller gets neither |
| HookLaws.CallIsDeeper | dep/metamod/metamod.h:198-421 | every event of a call issued from inside another one is deeper than that one |
| HookLaws.PhaseRuns | dep/metamod/metamod.h:319-360 | a plugin loop runs, for its own call, exactly the hooks of running plugins that provide one, in list order |
| HookLaws.RealRunsOnce | dep/metamod/metamod.h:361-409 | calls that the real routine issues do not count as runs of the routine for its own call |
| HookLaws.RoutinesOfCall | dep/metamod/metamod.h:300-421 | whatever is nested, a call runs each pre hook once, the real routine once iff it is there and no pre hook supercedes, and each post hook once, in that order |
| HookLaws.PhaseOfActive | dep/metamod/metamod.h:322-330 | a loop over the plugin list is the loop over its running plugins that have the hook |
| HookLaws.IdlePluginsHaveNoEffect | dep/metamod/metamod.h:322-330 | removing plugins that do not run or lack the hook changes neither the value nor anything that any plugin sees or runs |
| HookViews.FinalMresMeaning | dep/metamod/metamod.h:215-228 | the flag of a hook is the last one that it has set itself, or MRES_UNSET |
| HookViews.PrevMeaning | dep/metamod/metamod.h:224-234 | before each slot prev_mres is the flag of the nearest earlier slot of the same loop whose plugin was called, or MRES_UNSET when there is none |
| HookViews.HighestMeaning | dep/metamod/metamod.h:319-348 | before each slot status is the highest of the flags so far and the one the loop began with, in the order unset, ignored, handled, override, supercede |
| HookViews.OverrideMeaning | dep/metamod/metamod.h:319-352 | before each slot the override value is that of the last plugin that left the wanted flag, or the initial one |
| HookViews.SeesOne | dep/metamod/metamod.h:319-360 | those answers leave nothing open: a hook that reads the globals can find one thing only |
| HookViews.CallSees | dep/metamod/metamod.h:197-421 | whatever is nested, the hooks that read the globals for a call find, in their order, exactly that: their own flag, the previous flag, the highest flag, `ret_init` before and the value of the routine after it as the original value, and the override value iff the status is the wanted flag |
| HookViews.ResultMeaning | dep/metamod/metamod.h:319-421 | the value of every typed call, also without a real routine: by the highest flag of the post loop, the last overriding value of a post hook, or else what the pre loop and the routine have left |
| HookViews.RealCalledMeaning | dep/metamod/metamod.h:242-288 | the routine runs iff it is there and no pre hook leaves MRES_SUPERCEDE |
| HookViews.IssuedCallsHappen | dep/metamod/metamod.h:197-421 | every call that a hook or the routine issues happens within the call, one level deeper, without a gap |
| Plugin.LoadOutcome | dep/metamod/mplugin.cpp:548-631 | a load leaves a plugin whose info is known wherever its status says so, keeps its index and path, and fills no empty slot |
| Plugin.UnloadOutcome | dep/metamod/mplugin.cpp:942-1033 | the same for an unload |
| Plugin.ReloadOutcome | dep/metamod/mplugin.cpp:1070-1111 | the same for a reload |
| Plugin.RetryOutcome | dep/metamod/mplugin.cpp:1157-1171 | the same for a retry |
| Plugin.RequestOutcome | dep/metamod/mplugin.cpp:136-179 | the same for plugin_unload, with no other request during it |
| Plugin.MPlugin.CheckInput | dep/metamod/mplugin.cpp:266-301 | passes iff status, file, filename and path are there; fills in a missing description |
| Plugin.MPlugin.Load | dep/metamod/mplugin.cpp:548-631 | fields, result, errno and DLL trace are those of `LoadOutcome` |
| Plugin.MPlugin.Query | dep/metamod/mplugin.cpp:644-795 | what opening and querying leave in handle, info and description, for each outcome |
| Plugin.MPlugin.Unload | dep/metamod/mplugin.cpp:942-1033 | fields, result, errno and trace are those of `UnloadOutcome`, and the trace says that what is registered for the plugin is disabled |
| Plugin.MPlugin.FinishUnload | dep/metamod/mplugin.cpp:1013-1031 | the end of an unload: the file is closed; the slot is emptied, or made Valid and marked for a load (the clear that follows refuses it) |
| Plugin.MPlugin.DetachFrom | dep/metamod/mplugin.cpp:1039-1063 | a plugin without an open file detaches without its DLL being called |
| Plugin.MPlugin.Reload | dep/metamod/mplugin.cpp:1070-1111 | fields, result, errno and DLL trace are those of `ReloadOutcome` |
| Plugin.MPlugin.Pause | dep/metamod/mplugin.cpp:1116-1136 | pauses only a running plugin whose own limit allows it; never looks at a missing info |
| Plugin.MPlugin.Unpause | dep/metamod/mplugin.cpp:1141-1152 | unpauses only a paused plugin |
| Plugin.MPlugin.Retry | dep/metamod/mplugin.cpp:1157-1171 | the pending action decides between load, unload and reload |
| Plugin.MPlugin.Clear | dep/metamod/mplugin.cpp:1177-1218 | refuses a Valid or running plugin; else closes the file, empties the slot and takes back is_unloader |
| PluginLaws.TimesInOrder | dep/metamod/plinfo.h:40-48 | the order of the load times, by name |
| PluginLaws.LoadMeaning | dep/metamod/mplugin.cpp:548-631 | field by field what a load leaves, from every state, told from the outcome of opening, querying and attaching: nothing at all when it cannot be tried, else refused, put off, failed or running; the DLL is told of the game only after startup and once that has begun |
| PluginLaws.LoadDescribes | dep/metamod/mplugin.cpp:266-301 | a description that stands for the name of the file gives way to the name in the info; any other stays |
| PluginLaws.UnloadRefusals | dep/metamod/mplugin.cpp:942-975 | when an unload does nothing, and with which error |
| PluginLaws.UnloadMeaning | dep/metamod/mplugin.cpp:942-1033 | field by field what an unload of a marked plugin leaves: put off, detach failed, or detached, disabled and closed, in that order, and the slot emptied or Valid and waiting for a load |
| PluginLaws.ReloadMeaning | dep/metamod/mplugin.cpp:1070-1111 | the same for a reload: put off when it could not be attached again, else the unload, and then the load of the new file |
| PluginLaws.RetryMeaning | dep/metamod/mplugin.cpp:1151-1171 | a retry loads, unloads or reloads by what is pending, with those outcomes, and is turned down when nothing is |
| PluginLaws.PauseMeaning | dep/metamod/mplugin.cpp:1116-1152 | a pause that succeeds leaves the plugin Paused, an unpause Running, and each undoes the other; one that fails changes at most the pending action |
| PluginLaws.ClearMeaning | dep/metamod/mplugin.cpp:1177-1218 | what a clear refuses, closes and leaves |
| PluginRuns.LoadKeeps | dep/metamod/mplugin.cpp:548-631 | a load uses the DLL legally and in time, and restores the agreement of handle, info and status wherever it gets as far as the file |
| PluginRuns.LoadKeepsExactIff | dep/metamod/mplugin.cpp:563-580 | a load breaks that agreement iff the query of a closed file is refused with ME_DLOPEN left in meta_errno |
| PluginRuns.UnloadAndLoadKeepsExactIff | dep/metamod/mplugin.cpp:1095-1110 | a reload that gets past its first check breaks it iff its unload succeeds and the query that follows is refused in that way |
| PluginRuns.StepKeepsExactIff | dep/metamod/mplugin.cpp:548-1218 | of all operations, in every state, exactly those break it: a load, reload or retry that queries the file and is refused in that way |
| PluginRuns.RunStaysExactIff | dep/metamod/mplugin.cpp:548-1218 | so over a run the agreement holds after each operation iff no query in it is refused in that way |
| PluginRuns.UntidyLoadLeaks | dep/metamod/mplugin.cpp:563-580 | and then the next load opens a file for a slot that still holds one |
| PluginRuns.UnloadKeeps | dep/metamod/mplugin.cpp:942-1033 | an unload uses the DLL legally and in time; the info dangles iff it was the first half of a reload |
| PluginRuns.ReloadKeeps | dep/metamod/mplugin.cpp:1070-1111 | a whole reload keeps the agreement, through the Valid state in its middle |
| PluginRuns.ClearKeeps | dep/metamod/mplugin.cpp:1177-1218 | so does a clear |
| PluginRuns.StepKnowsInfo | dep/metamod/mplugin.cpp:548-1218 | no operation, whatever the DLL does, leaves a status that promises an info without one |
| PluginRuns.StepKeeps | dep/metamod/mplugin.cpp:548-1218 | each operation keeps handle, info and status in agreement and extends a legal, timely DLL trace |
| PluginRuns.EveryRun | dep/metamod/mplugin.cpp:548-1218 | so does every run of load, unload, reload, retry, plugin_unload, pause, unpause and clear on one plugin; in particular every attach is in time, and every detach is in time or forced from the console |
| PluginRuns.HandlesAreConserved | dep/metamod/mplugin.cpp:563-580 | on a legal trace opens minus closes is what is held |
| PluginRuns.CloseBetweenAttaches | dep/metamod/mplugin.cpp:595-612 | on a legal trace there is a close between two successful attaches of one slot |
| PluginRuns.LateLoad | dep/metamod/mplugin.cpp:548-612 | too late to attach, whether the file was open or had to be queried first: nothing is attached, and the action stays pending iff the limit is later than startup; in time: attached unless the attach fails |
| PluginRuns.LateUnload | dep/metamod/mplugin.cpp:942-1031 | too late to detach, whatever was pending: the plugin stays as it is, and the action stays pending iff the limit is later than startup; no other failure withdraws it |
| PluginRuns.TimelyUnload | dep/metamod/mplugin.cpp:942-996 | a marked plugin that runs is unloaded iff it is in time, or forced, and its detach succeeds or is overridden |
| PluginRuns.LateReload | dep/metamod/mplugin.cpp:1070-1111 | the same for a reload that is too late to attach again, to detach, or to attach what it finds; in the first case nothing happens to the plugin |
| PluginRuns.EveryStepStopsForTime | dep/metamod/mplugin.cpp:548-1171 | the same for every load, unload, reload, retry and request in every state that a run can reach; plugin_unload puts back what was pending before |
| PluginRuns.PauseWithdrawsIff | dep/metamod/mplugin.cpp:1116-1136 | a pause changes what is pending iff the plugin runs and its limit forbids the pause; then whatever was delayed is forgotten |
| PluginListSpec.FindByPath | dep/metamod/mlist.cpp:121-140 | the first used slot with this path |
| PluginListSpec.FindByHandle | dep/metamod/mlist.cpp:69-85 | the first used slot with this handle |
| PluginListSpec.FindByInfo | dep/metamod/mlist.cpp:103-118 | the first used slot with this info |
| PluginListSpec.FindMatch | dep/metamod/mlist.cpp:223-238 | the first plugin that is the same but for its platform |
| PluginListSpec.FreeSlot | dep/metamod/mlist.cpp:308-316 | the least empty slot below endlist, else endlist |
| PluginListSpec.Swept | dep/metamod/mlist.cpp:652-708 | a sweep changes each slot by its own action only |
| PluginList.MPluginList.constructor | dep/metamod/mlist.cpp:53-63 | an empty list of 50 slots numbered from 1 |
| PluginList.MPluginList.FindPath | dep/metamod/mlist.cpp:121-140 | the scan finds what `FindByPath` says |
| PluginList.MPluginList.FindHandle | dep/metamod/mlist.cpp:69-85 | the scan finds what `FindByHandle` says |
| PluginList.MPluginList.FindInfo | dep/metamod/mlist.cpp:103-118 | the scan finds what `FindByInfo` says |
| PluginList.MPluginList.FindPlatform | dep/metamod/mlist.cpp:223-238 | the scan finds what `FindMatch` says |
| PluginList.MPluginList.FindPrefix | dep/metamod/mlist.cpp:164-219 | a plugin is found by prefix iff it is the only one that answers to it; none is reported iff none does |
| PluginList.MPluginList.AddEntry | dep/metamod/mlist.cpp:305-344 | add() in place refines `Add` |
| PluginList.MPluginList.IniStartup | dep/metamod/mlist.cpp:350-421 | reading plugins.ini into the slots refines `StartupLines` |
| PluginList.MPluginList.TakeStartupEntry | dep/metamod/mlist.cpp:378-414 | one line at startup, parsed straight into the slot at endlist |
| PluginList.MPluginList.IniRefresh | dep/metamod/mlist.cpp:426-537 | reading it again refines `MarkLines` |
| PluginList.MPluginList.TakeEntry | dep/metamod/mlist.cpp:455-528 | one line on a refresh |
| PluginList.MPluginList.RefreshFrom | dep/metamod/mlist.cpp:639-713 | refresh() in place refines `Refresh` |
| PluginList.MPluginList.AddAndLoad | dep/metamod/mlist.cpp:546-608 | cmd_addload() and plugin_addload() in place refine `AddLoad` |
| PluginList.MPluginList.PluginUnload | dep/metamod/mplugin.cpp:136-179 | plugin_unload() in place, with the requests that its detach leads to, refines `Serve` |
| PluginListLaws.AddTakesLeastEmpty | dep/metamod/mlist.cpp:305-344 | add() fails iff all 50 slots are in use; else it takes the least empty one, never one that holds a handle, and touches no other |
| PluginListLaws.AddKeeps | dep/metamod/mlist.cpp:305-344 | adding a path that is not there keeps indices, distinct paths and exact slots |
| PluginListLaws.StartupLineKeeps | dep/metamod/mlist.cpp:369-416 | so does a line at startup, also one that replaces a worse plugin or repeats a path |
| PluginListLaws.RefreshLineKeeps | dep/metamod/mlist.cpp:441-529 | so does a line on a refresh |
| PluginListLaws.RefreshKeeps | dep/metamod/mlist.cpp:639-713 | so does a whole refresh |
| PluginListLaws.AddLoadKeeps | dep/metamod/mlist.cpp:546-608 | so does adding and loading one more plugin |
| PluginListLaws.ListStepKeeps | dep/metamod/mlist.cpp:243-713 | endlist is at most 50, indices are positions, paths below endlist are distinct, no is_unloader is up and every slot is exact after any step, requests with all that is nested in them included |
| PluginListLaws.NestKeepsIff | dep/metamod/mplugin.cpp:136-179 | plugin_unload, or another unload, with the requests made during its detach keeps all that iff it strands no plugin |
| PluginListLaws.RequestIsGuarded | dep/metamod/mplugin.cpp:136-179 | in every list that a run can reach, the guard of plugin_unload holds as long as no plugin asks twice |
| PluginListLaws.ListRun | dep/metamod/mlist.cpp:243-713 | and after any interleaving of startup, refreshes, additions, operations on plugins and nests of requests |
| RefreshLaws.LineOnOtherSlot | dep/metamod/mlist.cpp:441-529 | a line changes a plugin that is not waiting to be loaded only if it names its path |
| RefreshLaws.MarkOfRunning | dep/metamod/mlist.cpp:441-529 | after any number of lines a running plugin is marked to be kept iff a line that was read names it and its file is there and not newer; nothing else of it changes but its description |
| RefreshLaws.SweepOfRunning | dep/metamod/mlist.cpp:652-708 | what the sweep makes of a running plugin, marked or not |
| RefreshLaws.MarkAndSweep | dep/metamod/mlist.cpp:639-713 | a running ini plugin with nothing pending and no newer file survives unchanged iff it is listed and its file is there, or its limit is at most startup and past; it is unloaded iff not kept, in time, and its detach succeeds; else its unload is pending |
| RefreshLaws.RefreshIsIdentity | dep/metamod/mlist.cpp:639-713 | when every slot runs and is listed, a refresh changes nothing but descriptions |
| RefreshLaws.ShortFileIsReadToItsEnd | dep/metamod/mlist.cpp:442-444 | with at most 50 lines, being listed means that some line names the path |
| RefreshLaws.RepeatedLinesHideAPlugin | dep/metamod/mlist.cpp:442-444 | repeated lines count each time: 50 lines for one plugin make a refresh unload another that is listed after them |
| RefreshLaws.LineConservesIff | dep/metamod/mlist.cpp:466-476 | a line loses an open file iff it makes room by zeroing a slot that holds one |
| RefreshLaws.MarkConservesIff | dep/metamod/mlist.cpp:441-529 | reading plugins.ini again opens and closes nothing, and conserves every open file iff no line does that |
| RefreshLaws.RefreshConserves | dep/metamod/mlist.cpp:639-713 | then a refresh leaves each slot holding what it opened |
| ConservationLaws.StepConserves | dep/metamod/mlist.cpp:243-713 | each step that zeroes no open file extends a legal DLL trace of every slot |
| ConservationLaws.EveryListRun | dep/metamod/mlist.cpp:243-713 | over any such run, nests of plugin_unload included, handle, info and status of every slot agree, its DLL is used legally and in time, and opens minus closes is what it holds |
| ConservationLaws.DelayedPluginIsForgotten | dep/metamod/mlist.cpp:470-476 | a list that a console command leads to from the empty one, and a line, for which an open file is lost |
| UnloadNest.Serve | dep/metamod/mplugin.cpp:136-179 | however deep the nest, the requests that were open are open again on return |
| UnloadNestLaws.ServeIsGuarded | dep/metamod/mplugin.cpp:136-179 | in any nest of plugin_unload calls, cycles of any length included, in which no plugin opens a second request while its first is open: no plugin with an open request is unloaded or changed, and every is_unloader flag is back on return |
| UnloadNestLaws.ServeUnloadIsGuarded | dep/metamod/mplugin.cpp:942-1033 | the same for the unload in the middle, with all the requests made during its detach |
| UnloadNestLaws.ServeAllIsGuarded | dep/metamod/mplugin.cpp:136-179 | the same for any list of requests |
| UnloadNestLaws.ServeRemembers | dep/metamod/mplugin.cpp:136-179 | a second request shows: from its close on the flags and the open requests have disagreed |
| UnloadNestLaws.FlagsAgreeIff | dep/metamod/mplugin.cpp:136-179 | whenever a request is closed is_unloader marks exactly the plugins with an open one, iff no plugin opened a second request while its first was open |
| UnloadNestLaws.ServeLeavesNoFlag | dep/metamod/mplugin.cpp:136-179 | with or without that, no flag is left up that was down before |
| UnloadNestLaws.SecondRequestBreaksTheGuard | dep/metamod/mplugin.cpp:156-169 | without the hypothesis a plugin is unloaded while its own first request is open (concrete nest of four requests, from a list that console commands can lead to) |
| UnloadNestStates.ServeFits | dep/metamod/mplugin.cpp:136-179 | in every nest each plugin agrees with what was decided about it, keeps its slot, and uses its DLL legally and in time |
| UnloadNestStates.ServeStaysExactIff | dep/metamod/mplugin.cpp:942-1033 | after any nest handle, info and status of a plugin agree iff its unload did not end after a nested request for the same plugin had been refused with ME_NOTALLOWED; else it runs on with its file closed |
| UnloadNestStates.StrandedMeaning | dep/metamod/mplugin.cpp:970-981 | what that says about the order of refusals, starts and ends of unloads |
| UnloadNestStates.UnloadStaysExactIff | dep/metamod/mplugin.cpp:942-1033 | the same for an unload from the console or a refresh |
| UnloadNestStates.ServeUsesDllsLegally | dep/metamod/mplugin.cpp:942-1063 | in every nest, stranding or not, each detach is in time or forced, each file is closed once, and opens minus closes is what is held |
| UnloadNestStates.LatePluginsStayExact | dep/metamod/mplugin.cpp:970-981 | no nest strands a plugin that may be unloaded later than at startup |
| UnloadNestStates.ForcedUnloadStrandsAPlugin | dep/metamod/mplugin.cpp:970-1031 | a concrete nest of two requests, by two plugins, that leaves a third one running with its file closed |
| UnloadNestStates.LoneRequestIsAStep | dep/metamod/mplugin.cpp:136-179 | a request with nothing nested in it is the step that the runs of one plugin take |
| PluginListLaws.LoadedIsReached | dep/metamod/mlist.cpp:546-577 | the lists of the two concrete nests are what loading three plugins from the console leaves in an empty list |
| ReloadNest.ServeFollows | dep/metamod/mplugin.cpp:136-179 | in every nest a plugin that is being reloaded is left alone until a request for it is decided, and is no longer marked for a reload from then on |
| ReloadNest.ServeUnloadDecides | dep/metamod/mplugin.cpp:942-1033 | a request for that very plugin is delayed, and leaves no trace, or takes the mark away |
| ReloadNest.ReloadEndsAttachedIff | dep/metamod/mplugin.cpp:1070-1111 | a running plugin is attached again iff there is time to attach and to detach it, its detach succeeds or is overridden, what is found then can be attached, and no request for it was decided during its detach; else, if one was, it ends up unloaded, or running with its file closed |
| ReloadNest.LoneReloadIsAStep | dep/metamod/mplugin.cpp:1070-1111 | with nothing nested in it a reload is the step that the runs of one plugin take |
| RequestLaws.TargetMeaning | dep/metamod/mlist.cpp:85-97 | a request by an index is about the used slot whose index field is that, one by a handle about the first used slot with that handle; if there is none it is about none |
| RequestLaws.AskerMeaning | dep/metamod/mplugin.cpp:141-144 | the plugin that asks is the first used one with that info |
| RequestLaws.RequestIsAbout | dep/metamod/mplugin.cpp:136-179 | in every nest: turned down as not found iff nothing is meant, as a bad request iff the asker is unknown, as asking for itself iff they are the same, and otherwise the first decision recorded is about the plugin that is meant |
| RequestLaws.LoneRequestMeaning | dep/metamod/mplugin.cpp:136-179 | with nothing nested: the plugin that is meant is gone, iff there is time or force and its detach succeeds or is overridden, or runs on with its marks and the error as said; every other slot is as it was |
| RequestLaws.ServedInOrder | dep/metamod/mplugin.cpp:136-179 | the requests that are made in one detach are served one after another |
| IniLaws.StemMeaning | dep/metamod/mplugin.cpp:518-530 | the part of a file name that counts: up to its last underscore when a platform follows, else up to its last dot |
| IniLaws.MatchMeaning | dep/metamod/mplugin.cpp:510-535 | an entry matches a plugin iff they have the same file, the same description in any case, or the same such part |
| IniLaws.StemExamples | dep/metamod/mplugin.cpp:510-535 | on some names: platforms differ, "_mm" is none |
| IniLaws.LineDecision | dep/metamod/mlist.cpp:380-411 | what one line does at startup: nothing when its path is there or the first plugin that it matches is as specific, else it comes into use, waiting to be loaded, and that plugin goes |
| IniLaws.OnlyLinesAreHeld | dep/metamod/mlist.cpp:350-421 | after startup every used slot holds the entry of a line, with action PA_LOAD, and nothing else |
| IniLaws.ShortFileIsRead | dep/metamod/mlist.cpp:370-372 | every line of a file of at most 50 is read |
| IniLaws.UnrivalledIsHeld | dep/metamod/mlist.cpp:350-421 | a line that is read, with a path that no earlier one has, and that no other path matches, is in the list in the end |
| IniChoice.BestAreHeld | dep/metamod/mlist.cpp:380-411 | when matching is transitive: of the lines for one plugin the list keeps the one with the highest pfspecific, the earliest on a tie, and no other |
| IniChoice.FullListStays | dep/metamod/mlist.cpp:370-372 | once 50 slots are used no line changes anything |
| IniChoice.HeldIsLoaded | dep/metamod/mplugin.cpp:548-631 | a load at startup attaches a plugin that was read iff its file can be opened and queried, it may be attached at startup, and that succeeds |
| IniChoice.OnlyTheFirstMakesRoom | dep/metamod/mlist.cpp:390-411 | when a line matches two plugins that do not match each other only the first makes room, however specific the line is |
| IniChoice.SuchLinesAreThere | dep/metamod/mplugin.cpp:510-535 | three such lines |
| SweepLaws.NewPathMeaning | dep/metamod/mlist.cpp:459-491 | a line with a new path on a refresh: skipped when the first plugin that it matches is as specific or is not waiting for a load, or when nothing is free; else in the least free slot, waiting to be loaded, and that plugin is gone |
| SweepLaws.KnownPathMeaning | dep/metamod/mlist.cpp:492-521 | a line with a known path: which description and mark its plugin gets, and when the line counts; no other plugin changes |
| SweepLaws.NewerFileIsReloaded | dep/metamod/mlist.cpp:639-713 | a running plugin whose file is newer is reloaded by a refresh, with every outcome; it runs the new file, with its handle and info, from now on, iff both its limits and the new one allow it, and detach, query and attach succeed |
| SweepLaws.PendingIsRetried | dep/metamod/mlist.cpp:639-713 | a plugin that was put off is unloaded or attached by the next sweep, if there is time then |
| SweepLaws.NewLineIsLoaded | dep/metamod/mlist.cpp:426-713 | a new line that nothing else is about gets a slot on a refresh, and runs in the end iff its file can be opened, queried and attached now |
| AddLaws.AnswersMeaning | dep/metamod/mlist.cpp:164-215 | what a prefix is looked for in: name, description, file with and without "mm_", and log tag, in any case |
| AddLaws.AddFills | dep/metamod/mlist.cpp:305-344 | which fields a new plugin gets |
| AddLaws.AddLoadMeaning | dep/metamod/mlist.cpp:546-608 | adding from the console or by a plugin: turned down when the path is there or nothing is free; else the least empty slot, filled and loaded as its file says, and empty again when it may never be loaded now; and the error for each |
| AddLaws.DescriptionOfRunning | dep/metamod/mlist.cpp:492-497 | after all lines are read a running plugin has the description of the last line for it that gives one, or its own |
| HandleContainer.ContainerWithHandles.constructor | src/utils/ContainerWithHandles.h:12-16 | no handle live, none free |
| HandleContainer.ContainerWithHandles.GetFreeHandle | src/utils/ContainerWithHandles.h:111-126 | a free handle if there is one; else the first one above size() that is not in use |
| HandleContainer.ContainerWithHandles.Add | src/utils/ContainerWithHandles.h:18-48 | the new handle is live nowhere, so no value is overwritten; with none free it is exactly size() + 1, so the probing loop does not iterate; live and free handles stay disjoint and together exactly 1..peak |
| HandleContainer.ContainerWithHandles.Remove | src/utils/ContainerWithHandles.h:50-59 | reports whether the handle was live; frees exactly it |
| HandleContainer.ContainerWithHandles.RemoveAt | src/utils/ContainerWithHandles.h:61-67 | frees exactly the handle it stands on |
| HandleContainer.ContainerWithHandles.Clear | src/utils/ContainerWithHandles.h:69-73 | nothing live, nothing free, numbering starts again |
| HandleContainer.AddedHandle | src/utils/ContainerWithHandles.h:111-126 | for every history: adding a free handle, or the next one when none is free, keeps the handles gapless up to the peak of simultaneously live ones |
| HandleContainer.NextFollowsLive | src/utils/ContainerWithHandles.h:113-122 | with nothing free, size() + 1 is not in use |
| HandleContainer.RecycledStaysBelowPeak | src/utils/ContainerWithHandles.h:114-118 | recycling never raises the peak |
| HttpLaws.SendKeepsRuleIff | src/EasyHttpModule.h:33-40 | sending with options that exist keeps "options valid as long as the request exists, and its own" iff no other request uses them |
| HttpLaws.DestroyKeepsRuleIff | src/module.cpp:162-170 | destroying options keeps that rule iff no request uses them |
| HttpLaws.CompletionKeepsRule | src/EasyHttpModule.cpp:60-66 | a completed request that takes its options along keeps the rule for all others |
| HttpLaws.SharedOptionsAreLost | src/EasyHttpModule.h:88-89 | when two requests share options the first completion breaks the rule for the second |
| HttpLaws.OpStepKeeps | src/EasyHttpModule.cpp:33-76 | whatever a plugin asks for, whichever handles are recycled: every engine keeps its one owner, every waiting closure its request, no request or ticket goes, no engine is called, and a slot is filled iff a request was sent on it |
| HttpLaws.CompleteKeeps | src/module.cpp:1195-1217 | whatever its callback does, a completion takes its own ticket and its own request, and no other; a forgotten request calls no one back |
| HttpLaws.CompletionTakesOwnOptions | src/EasyHttpModule.cpp:60-66 | of the options that its callback does not destroy, a completion takes exactly its own |
| HttpLaws.DrainKeeps | src/easy_http/EasyHttp.cpp:139-162 | while the destructor of an engine runs, only requests of that engine complete, and none is sent to it |
| ResetLaws.DestructionKeeps | src/easy_http/EasyHttp.cpp:139-162 | the destructor, with all the callbacks that it runs, keeps what is known of the queues dealt with and of those to come |
| ResetLaws.TurnsKeep | src/EasyHttpModule.cpp:79-112 | so does any number of turns of the loop, in any order of the queues |
| ResetLaws.ResetResult | src/EasyHttpModule.cpp:79-112 | a map change, whatever the callbacks of cancelled requests do: every terminating engine there was is cancelled once and destroyed, and its requests have completed; every forgettable one is forgotten once and listed once; no other engine there was is called, and its requests are still pending; no queue there was is left but the main one |
| ResetLaws.OnlyMainIsLeftIff | src/EasyHttpModule.cpp:79-112 | only queue 1 is left iff the walk over the table came to every queue that a callback made meanwhile |
| ResetLaws.UncancelledIff | src/EasyHttpModule.cpp:86-110 | when a queue of a user is erased, an engine goes with it without a cancel iff, while its own engine was destroyed, a callback has sent on this very queue |
| ResetLaws.DestroyedMeansCancelled | src/EasyHttpModule.cpp:86-110 | if no callback has sent on the queue of a user, every engine that was destroyed was cancelled exactly once |
| ResetCallbacks.ResetObeys | src/EasyHttpModule.cpp:79-112 | if the callbacks of the requests to be cancelled keep to a rule, so does all that is done during the map change |
| ResetCallbacks.OnlyMainIsLeft | src/EasyHttpModule.cpp:107-110 | if none of them makes a queue, only queue 1 is left |
| ResetCallbacks.EveryEndWasCancelled | src/EasyHttpModule.cpp:86-94 | if they send nothing, or with null options only, every engine that was destroyed was cancelled exactly once |
| ResetCallbacks.OnlyOldEnginesEnd | src/EasyHttpModule.cpp:79-112 | if they send nothing, exactly the engines there were are destroyed or forgotten, and the slots of queue 1 are in use iff they were |
| ResetFailures.MadeQueueIsLeft | src/EasyHttpModule.cpp:81-94 | a callback that makes a queue: it is still there after the map change (concrete run from the start) |
| ResetFailures.EngineEndsUncancelled | src/EasyHttpModule.cpp:86-108 | a callback that sends again on its own queue: the new engine is destroyed without a cancel (concrete run from the start) |
| HttpModule.EasyHttpModule.constructor | src/EasyHttpModule.cpp:6-12 | queue 1 is there, and nothing else |
| HttpModule.EasyHttpModule.CreateQueue | src/EasyHttpModule.cpp:162-165 | a new queue, under a handle not in use |
| HttpModule.EasyHttpModule.CreateOptions | src/EasyHttpModule.cpp:68-71 | new options, under a handle not in use |
| HttpModule.EasyHttpModule.DeleteOptions | src/EasyHttpModule.cpp:73-76 | removes exactly these options; the plugins have broken the rule iff a request was using them |
| HttpModule.EasyHttpModule.SetQueue | src/module.cpp:340-353 | only an existing queue can be chosen |
| HttpModule.EasyHttpModule.SetBehaviour | src/module.cpp:327-337 | only existing options can be changed |
| HttpModule.EasyHttpModule.GetEasyHttp | src/EasyHttpModule.cpp:142-160 | one engine for each queue and behaviour, made on first use, with 6 threads for the main queue |
| HttpModule.EasyHttpModule.SendRequest | src/EasyHttpModule.cpp:33-58 | throws, changing nothing, iff the options id is neither null nor live; else the request goes to the engine of its queue and behaviour (the main queue when its queue is gone), under a handle not in use |
| HttpModule.EasyHttpModule.DeleteRequest | src/EasyHttpModule.cpp:60-66 | removes exactly the request, and exactly its options when asked to; throws, changing nothing, iff it is asked to and the request is not there; the waiting closures still find their requests iff none waits for this one |
| HttpModule.EasyHttpModule.RunUserOp | src/module.cpp:1176-1230 | each native call is one step of a plugin |
| HttpModule.EasyHttpModule.RunCallback | src/module.cpp:1202-1213 | a callback is a run of such steps |
| HttpModule.EasyHttpModule.Complete | src/module.cpp:1195-1217 | the closure finds the very request it was made for, runs the callback and deletes the request with its options, in place, as `CompleteStep` says |
| HttpModule.EasyHttpModule.DestroyEngine | src/easy_http/EasyHttp.cpp:139-162 | the loop of the destructor ends, and leaves nothing pending on the engine |
| HttpModule.EasyHttpModule.CancelAndReplace | src/EasyHttpModule.cpp:88-93 | the terminating engine is cancelled once, its pending requests are marked and no others, and its slot is assigned |
| HttpModule.EasyHttpModule.CancelEngine | src/EasyHttpModule.cpp:86-94 | and then it is destroyed, and its requests complete with their callbacks, on the tables as they are then |
| HttpModule.EasyHttpModule.ForgetEngine | src/EasyHttpModule.cpp:96-104 | the forgettable engine is told once to forget, and moves behind the others; its pending requests are marked, no others |
| HttpModule.EasyHttpModule.EraseQueue | src/EasyHttpModule.cpp:107-108 | a queue of a user leaves the table, and an engine that a callback has put there meanwhile is destroyed |
| HttpModule.EasyHttpModule.ResetQueue | src/EasyHttpModule.cpp:81-111 | one turn of the loop refines `QueueStep` |
| HttpModule.EasyHttpModule.ResetMainAndRemoveUsersQueues | src/EasyHttpModule.cpp:79-112 | the loop, for every order of the queues and every walk over those that callbacks make, is a `ResetRun`; so `ResetResult` holds of it |
| HttpModule.EasyHttpModule.RunCleanupFrameForForgottenEasyHttp | src/EasyHttpModule.cpp:129-140 | erasing while iterating: exactly the forgotten engines without pending requests go, in their order, and the others keep theirs |
| HttpModule.OneMoreFrame | src/EasyHttpModule.cpp:129-140 | each engine runs its own frame once, and whether it stays is settled then |
| HttpModule.RemovedIsFineIff | src/EasyHttpModule.cpp:60-66 | deleting a request keeps the module in order iff no closure is waiting for it |
| SlotEngines.EnginesAreAsMade | src/EasyHttpModule.cpp:79-160 | after every run of natives, completions and map changes from the start: no two slots share an engine, and each has six threads for queue 1 and one for any other, and has never been cancelled or told to forget |
| SlotEngines.CalledAsMade | src/EasyHttpModule.cpp:86-105 | an engine that a map change cancels or tells to forget leaves its slot; queue 1 gets a new one |
| HttpModule.SortingKeepsOrder | src/EasyHttpModule.cpp:129-140 | the engines that stay, and those that go, keep their order, and none is doubled or lost |
| HttpModule.FrameMeaning | src/EasyHttpModule.cpp:129-140 | a frame takes exactly the requests of forgotten engines that were ready; a forgotten engine stays iff it has one that was not |
| SendLaws.SendMeaning | src/EasyHttpModule.cpp:33-58 | a send that does not throw puts the request on the forgettable engine of its queue iff the options say so, else on the terminating one; the queue is the one the options name, or queue 1 when that is gone; null options mean the terminating engine of queue 1; no other slot changes |
| SendLaws.OpMeaning | src/module.cpp:327-353 | what the other natives change in the tables |
| SendLaws.CompletionMeaning | src/module.cpp:1195-1217 | a completion: response stored, ticket gone, callback, then the request and its options; a forgotten one only loses its ticket |
| SendLaws.PendingIsForgottenOrCancelled | src/EasyHttpModule.cpp:79-112 | a map change forgets the pending requests of forgettable engines, which stay pending, and cancels and completes those of terminating ones |
| SendLaws.SentIsForgottenIff | src/EasyHttpModule.cpp:33-112 | from a send, over any run of natives and completions, to the next map change: a request still pending then is forgotten iff the options it was sent with said so |
| Registrations.ServingMeaning | dep/metamod/reg_support.cpp:130-170 | who serves a name: the plugin and function of a registration after which the name was neither registered again nor failed, and its plugin not unloaded |
| Registrations.UnloadedServesNothing | dep/metamod/mplugin.cpp:1001-1006 | after the unload of a plugin it serves no name, and every other plugin serves what it did |
| Registrations.EachNameIsToldOnce | dep/metamod/reg_support.cpp:144-158 | over any history the engine is told no name twice, in any case |
| Registrations.EveryNameIsTold | dep/metamod/reg_support.cpp:144-158 | and it is told exactly the names that were registered |
| Registrations.ServedIsTold | dep/metamod/reg_support.cpp:100-118 | a name that is served is in the list |
| Registrations.CaseDoesNotMatter | dep/metamod/mreg.cpp:117-124 | names that differ in case only are served alike |
| Unregistering.UnloadIsTold | dep/metamod/mplugin.cpp:999-1006 | an unload that succeeds disables what is registered for its index, once; one that fails does not |
| Unregistering.UnloadServesNothing | dep/metamod/mplugin.cpp:999-1006 | so after an unload the plugin serves no name, and every other plugin serves what it did |
| Unregistering.UnloadRegistered | dep/metamod/mplugin.cpp:942-1033 | after an unload no valid command or cvar belongs to the plugin, in both lists |
| Unregistering.ClearLeavesWhatIsServed | dep/metamod/mplugin.cpp:1177-1218 | a clear of a plugin that failed to attach closes its file, and what it has registered is still served |
| CommandRegistry.MRegCmdList.constructor | dep/metamod/mreg.cpp:101-110 | 32 entries, numbered from 1, none in use |
| CommandRegistry.MRegCmdList.Find | dep/metamod/mreg.cpp:117-124 | finds an entry iff the name is known in some case |
| CommandRegistry.MRegCmdList.Add | dep/metamod/mreg.cpp:131-167 | growing by 32 keeps every entry, its place and its index; the new one is next |
| CommandRegistry.MRegCmdList.AddServerCommand | dep/metamod/reg_support.cpp:130-170 | the engine is told the name iff it was not known; else the same entry serves again; the list agrees with the history |
| CommandRegistry.MRegCmdList.Disable | dep/metamod/mreg.cpp:170-176 | no valid command belongs to the plugin any more; no other command changes |
| CommandRegistry.MRegCmdList.HandleCommand | dep/metamod/reg_support.cpp:100-118 | the function called is the one that serves the name by the history, or none; the message is printed iff the name is known and nothing was called |
| CommandRegistry.RegisteringAgrees | dep/metamod/reg_support.cpp:159-169 | registering a known name again changes who serves it and nothing else |
| CommandRegistry.NewNameAgrees | dep/metamod/reg_support.cpp:146-158 | a new entry agrees with the history |
| CommandRegistry.DisablingAgrees | dep/metamod/mreg.cpp:170-176 | disabling by plugin index is the unload of the history, for all entries at once |
| CommandRegistry.FailingAgrees | dep/metamod/mreg.cpp:86-95 | a function that is gone is disabled |
| CvarRegistry.MRegCvarList.constructor | dep/metamod/mreg.cpp:268-278 | 64 entries, numbered from 1, none in use |
| CvarRegistry.MRegCvarList.Find | dep/metamod/mreg.cpp:332-339 | finds an entry iff the name is known in some case |
| CvarRegistry.MRegCvarList.Add | dep/metamod/mreg.cpp:284-326 | growing by 64 keeps every entry, its place and its index |
| CvarRegistry.MRegCvarList.CVarRegister | dep/metamod/reg_support.cpp:178-218 | the engine is given a cvar iff its name was not known; a cvar registered again keeps its value |
| CvarRegistry.MRegCvarList.Disable | dep/metamod/mreg.cpp:342-355 | a plugin's cvars lose their owner and keep their values; no other cvar changes |
| CvarRegistry.RegisteringAgrees | dep/metamod/reg_support.cpp:205-217 | registering a known name again changes its owner and nothing else |
| CvarRegistry.DisablingAgrees | dep/metamod/mreg.cpp:342-355 | disabling by plugin index is the unload of the history, for all entries at once |
| StringLaws.SameNameMeaning | dep/metamod/mreg.cpp:117-124 | names are the same iff they have the same letters in the same places, in any case |
| StringLaws.SomeNames | dep/metamod/mreg.cpp:117-124 | on some names, among them those with the characters next to the letters |
| StringLaws.HasPrefixMeaning | dep/metamod/mlist.cpp:164-215 | the same for the start of a name |
| Split.Find | src/utils/string_utils.cpp:16-17 | the first occurrence |
| Split.SplitInto | src/utils/string_utils.cpp:5-23 | the loop ends for a separator that is not empty, appends the tokens, and leaves earlier ones alone |
| Split.EmptySeparatorNeverEnds | src/utils/string_utils.cpp:13-22 | for an empty separator it goes on for ever: after n turns it has n empty tokens |
| Split.JoinUndoesSplit | src/utils/string_utils.cpp:5-23 | joining the tokens gives back the string |
| Split.NoTokenHoldsTheSeparator | src/utils/string_utils.cpp:5-23 | no token contains the separator |
| Split.SplitUndoesJoinIff | src/utils/string_utils.cpp:5-23 | splitting gives back a list that was joined iff every separator put in is the leftmost one from there on; so cuts are leftmost and the tokens unique |
| Split.SplitUndoesJoinOfPlainTokens | src/utils/string_utils.cpp:5-23 | for a separator of one character: every list of tokens without it |
| SteamId.Decimal | src/module.cpp:1168-1168 | printing a number and reading it gives it back |
| SteamId.AccountIsNumeral | src/module.cpp:1155-1158 | what strtol and its checks let pass: blanks, a sign and digits from 0 to LONG_MAX, and the empty string as 0 |
| SteamId.BlankMeaning | src/module.cpp:1155-1158 | which characters strtol skips |
| SteamId.SteamToSteam64 | src/module.cpp:1128-1174 | the steps of the native, with their early returns, give `Converted` |
| SteamId.AcceptedIff | src/module.cpp:1138-1158 | exactly the strings STEAM_X:Y:Z with Y 0 or 1 and such a Z, and no other colon, are converted |
| SteamId.OrAppends | src/module.cpp:1160-1166 | or after a shift loses no bit where none overlaps |
| SteamId.FieldsDoNotOverlap | src/module.cpp:1162-1166 | the four fields do not overlap: the result is 76561197960265728 plus the account |
| SteamId.YBitIsAppended | src/module.cpp:1160-1161 | the account is twice the number, cut to 32 bits, plus the Y bit |
| SteamId.ExactIff | src/module.cpp:1160-1166 | the result is 76561197960265728 + 2Z + Y iff Z < 2^31 |
| SteamId.RoundTrip | src/module.cpp:1138-1170 | printing STEAM_X:Y:Z and converting it gives exactly that number, for every X without a colon, both Y and every Z < 2^31 |
| SteamId.DecimalMeaning | src/module.cpp:1168-1168 | a number is written digit by digit |
| SteamId.SteamIdMeaning | src/module.cpp:1138-1170 | the same with the prefix, the colons and the offsets written out |
| SteamId.SteamIdExample | src/module.cpp:1138-1170 | STEAM_0:1:11101 is 76561197960287931 |
| SteamId.Injective | src/module.cpp:1138-1170 | two printed SteamIDs convert alike iff Y and Z are the same |
| ResolveSuffix.AppendingGetsOn | dep/metamod/mplugin.cpp:429-446 | each nested call has one of "_mm" and "_MM" less to add, so the recursion ends on every path |
| ResolveSuffix.Resolve | dep/metamod/mplugin.cpp:424-478 | finds the first candidate, in their order, that is a regular file; finds nothing iff none is |
| ResolveSuffix.TryEndings | dep/metamod/mplugin.cpp:448-475 | the six endings of one path, in order |
| ResolveSuffix.PlainPath | dep/metamod/mplugin.cpp:415-478 | for a path without "_mm" and "_MM": the 30 candidates, longer names first |
| ResolveSuffix.EndingsInOrder | dep/metamod/mplugin.cpp:448-475 | the six endings, written out: ".so" first, then i386, i486, i586, i686 and amd64 |
| ResolveSuffix.PlainNames | dep/metamod/mplugin.cpp:415-478 | those 30 written out: which stem and which ending stands at which place |
| ResolveSuffix.PathWithMm | dep/metamod/mplugin.cpp:429-446 | for a path with "_mm" anywhere in it: 12 candidates |
| ResolveSuffix.PathWithMM | dep/metamod/mplugin.cpp:429-446 | for a path with "_MM" anywhere in it: 12 candidates |
| ResolveSuffix.PathWithBoth | dep/metamod/mplugin.cpp:429-446 | for a path with both: 6 candidates |
| ResolveSuffix.EveryCandidateIsLonger | dep/metamod/mplugin.cpp:415-423 | every candidate is the path and more, ending in ".so"; so, unlike its comment says, the path itself and "path_mm" are never probed |

## Left out

- The API function tables, and attaching as the filling of them: an attach is an outcome, and one table lookup is one slot of `ApiCall`.
- Hooks that change the plugin list while a dispatch walks it: each slot is given as the loop finds it on arriving there.
- PluginRuns.EveryRun: a run of one plugin on its own; requests that arrive while it is being detached are in PluginListLaws.ListRun.
- PluginListLaws.ListRun: requests can nest in plugin_unload and in an unload from the console; those made during the detach of a reload (ReloadNest says what becomes of the plugin itself) or of the sweep of a refresh are no steps of the run, and what a plugin's routines do to the list while it is loaded and attached is not modelled.
- PluginList.MPluginList.RefreshFrom: the same for what the plugins' routines do to the list during the sweep.
- A DLCLOSE that fails, and malloc, strdup and realloc that fail: they are assumed to succeed.
- source_plugin_index and the console listings that use it: display only.
- PluginList.MPluginList.IniStartup: a line of plugins.ini is given as parsed; what a malformed line leaves in a slot, and the parsing of the line itself, are not modelled. Runs read it into the empty list only, as the program does.
- PluginList.MPluginList.IniRefresh: the same; nor is a plugins.ini that cannot be opened, which changes nothing.
- find(int), which looks beyond endlist: indices are those below it.
- PluginList.MPluginList.AddAndLoad: the name that cmd_addload and plugin_addload are given comes as a resolved entry, and the plugin that asks as one that was found.
- UnloadNest.Serve: a plugin that is named by text comes as the index that the text resolves to.
- HttpModule.EasyHttpModule.ResetMainAndRemoveUsersQueues: an insertion that makes the table of queues grow invalidates the iterator of the loop, which C++ leaves undefined; the model goes on as if the nodes were walked.
- RunFrameEasyHttp, and the frames that ServerDeactivate runs first: completions as in `Complete`, for the engines of all queues.
- A request that a plugin cancels on its own: a mark that its engine looks at.
- HttpModule.EasyHttpModule.RunCleanupFrameForForgottenEasyHttp: which requests had completed is a parameter; nothing is claimed about when they do.
- The entry of a forgotten request stays in the table of requests for ever, in the code as in the model; it is counted as a user of its options.
- GetActiveRequestCount, and the destructor of the module: a sum over the engines, and the same reset and cleanup again.
- Worker threads, sessions, FTP and HTTP transfers, request methods, bodies and responses: an engine has an identity and counts of calls.
- AMXX natives that copy parameters, string conversion, path validation, JSON and the automatic update: foreign calls and finite cases.
- Integer widths other than those of the SteamID: handles, serials and counts are unbounded.
- SteamId.SteamToSteam64: the copy of the result into a buffer of limited length is not modelled; strings hold no NUL.
- ResolveSuffix.Resolve: names that are too long for their buffers are not modelled, nor are the suffixes of other systems.
- Cvar values that the engine or the console changes later: the list keeps what was registered, and re-registration does not touch it.
- CommandRegistry.MRegCmdList.HandleCommand: the call itself is the function's identity; what the function does is not modelled.
- Logging, console output, `str_*` functions, MPlayerList, MConfig and the parts that are compiled under UNFINISHED only.
