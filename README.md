# FenneX scene switcher, modelled in Dafny

FenneX's `SceneSwitcher` is the coordinator that serializes requests to replace
the displayed scene of a cocos2d-x application:

- A "PlanSceneSwitch" event either becomes the pending target or overwrites the one
  queued slot.
- The once-per-tick `trySceneSwitch` holds a new target for one frame (`frameDelay`),
  then calls `replaceScene`.
- `replaceScene` resolves a cancellation and tears down the outgoing scene. It creates
  and installs the new scene, takes the queued request and announces "SceneSwitched".

The repository contains two versions, and both are modelled:

- `Classes/FenneX/Core/Scenes/SceneSwitcher.cpp` is the current version. It adds
  `allowReload`, the keyboard lock, the release pool and texture unbinding, and holds
  its parameters as values.
- `projects/Classes/FenneX/Core/Scenes/SceneSwitcher.cpp` is the older version. Its
  dictionaries are reference-counted pointers that may be NULL.

Layout:

- `scenes.dfy` (module `Scenes`): the scene names, parameter dictionaries, requests
  and nullable pointers shared by both versions.
- `switcher.dfy` (module `Switcher`): the current version. The coordinator's fields
  form a value `State`. Each operation is a function returning the new state and the
  calls it makes into collaborators (`Effect`s, in order). The class `SceneSwitcher`
  holds the same fields and updates them step by step, as the C++ does (with the
  corrected commit test, see "## Findings"). Each of its
  methods is proved to end in exactly the state and call log of the matching
  function.
- `switcher_properties.dfy` (module `SwitcherProperties`): what the current version
  guarantees. It covers:
  - one tick creates at most one scene;
  - the two-tick frame delay;
  - the latest request winning the queued slot;
  - cancellation;
  - the one-shot reload;
  - over any run, "SceneSwitched" announcing exactly the scenes created.
- `legacy_switcher.dfy` and `legacy_properties.dfy` (modules `LegacySwitcher` and
  `LegacyProperties`): the older version, written the same way. One property is
  proved over any run: no scene is created for None, and no creation rebuilds the
  scene current at that point.
- `variants.dfy` (module `Variants`): the two versions side by side. When `allowReload`
  is never called, they create the same scenes, in the same order, for every run of
  requests, ticks and cancellations.

Some behaviours of the code worth knowing:

- Requests A, B, C arriving before a tick commit A and then C, not C alone. A is
  adopted as the target and C overwrites B in the queue
  (`SwitcherProperties.ThreeRequestsCommitFirstAndLast`).
- After a cancellation, a different queued request is committed within the same
  `replaceScene` call, not at a later tick (`SwitcherProperties.CancelCommitsQueued`).
- A request for None is not rejected. It is adopted or queued like any other request,
  and a tick then drains it.
- `planSceneSwitch` takes the keyboard lock (`InputLabel::preventKeyboardOpen`). The
  end of the tick releases it.
- `isSwitching()` is already false after the first tick, while the target is still
  pending (`SwitcherProperties.TickArmsDelay`).

Calls into code outside the coordinator are not executed. They appear as follows:

- A call made for its side effect is logged as an `Effect`: director, scene objects,
  event dispatch, texture cache, keyboard lock, release pool.
- A value such a call returns is a parameter:
  - `engineRunning` is whether the director has a running scene;
  - `lockToken` is what `preventKeyboardOpen` returns.
- A scene object that `createScene` returns is a `Handle`. Its `serial` is the number
  of scenes created before it, which stands for the object's identity.

## Model

| member | source | states |
|---|---|---|
| Switcher.Initial | Classes/FenneX/Core/Scenes/SceneSwitcher.cpp:54-65 | after init, no scene exists or is current, nothing is queued or pending, no cancellation or reload is set, the keyboard lock is not held, and the invariant holds |
| Switcher.SceneSwitcher.Init | Classes/FenneX/Core/Scenes/SceneSwitcher.cpp:54-65 | the fields are those of `Initial`, and the calls made are setting the notification node and adding the "PlanSceneSwitch" listener |
| Switcher.TakeQueued | Classes/FenneX/Core/Scenes/SceneSwitcher.cpp:134-155 | the queue is left empty. A queued scene different from the target becomes the target, with its parameters and the frame delay off. Otherwise nothing stays pending. No other field changes |
| Switcher.SceneSwitcher.TakeQueuedScene | Classes/FenneX/Core/Scenes/SceneSwitcher.cpp:134-155 | the fields end as `TakeQueued` of the old fields, and no collaborator is called |
| Switcher.Plan | Classes/FenneX/Core/Scenes/SceneSwitcher.cpp:157-182 | when idle, the request becomes the target with its dictionary, the frame delay off, processing on and the lock token held, and the calls are unbindAllImageAsync then preventKeyboardOpen. Otherwise only the queued slot is overwritten and nothing is called. Either way the invariant is kept and nothing is created |
| Switcher.SceneSwitcher.PlanSceneSwitch | Classes/FenneX/Core/Scenes/SceneSwitcher.cpp:157-182 | the fields and the calls are those of `Plan`, and the invariant is kept |
| Switcher.Cancel | Classes/FenneX/Core/Scenes/SceneSwitcher.cpp:184-190 | the cancellation flag is raised and nothing else changes |
| Switcher.SceneSwitcher.CancelSceneSwitch | Classes/FenneX/Core/Scenes/SceneSwitcher.cpp:184-190 | the fields become `Cancel` of the old ones, with no calls, and the invariant is kept |
| Switcher.SceneSwitcher.IsSwitching | Classes/FenneX/Core/Scenes/SceneSwitcher.cpp:192-195 | the result is processingSwitch or isEventFired. On any state that keeps the invariant it is processingSwitch |
| Switcher.WithReload | Classes/FenneX/Core/Scenes/SceneSwitcher.cpp:197-200 | the reload override is set and nothing else changes |
| Switcher.SceneSwitcher.AllowReload | Classes/FenneX/Core/Scenes/SceneSwitcher.cpp:197-200 | the fields become `WithReload` of the old ones, with no calls, and the invariant is kept |
| Switcher.ResolveCancel | Classes/FenneX/Core/Scenes/SceneSwitcher.cpp:211-218 | without a cancellation the state is unchanged. With one, the queue is taken and the flag is cleared |
| Switcher.SceneSwitcher.ResolveCancelledScene | Classes/FenneX/Core/Scenes/SceneSwitcher.cpp:211-218 | the fields become `ResolveCancel` of the old ones, with no calls |
| Switcher.AfterTeardown | Classes/FenneX/Core/Scenes/SceneSwitcher.cpp:221-232 | the scene object is dropped exactly when a scene name is current, and nothing else changes |
| Switcher.SceneSwitcher.ReleaseCurrentScene | Classes/FenneX/Core/Scenes/SceneSwitcher.cpp:221-232 | the fields become `AfterTeardown` of the old ones. The calls are: release pool and stop for a current scene, or stop for a leftover object |
| SwitcherProperties.TeardownIsQuiet | Classes/FenneX/Core/Scenes/SceneSwitcher.cpp:221-232 | the teardown neither creates nor announces a scene |
| Switcher.Installed | Classes/FenneX/Core/Scenes/SceneSwitcher.cpp:234-244 | the new scene object is current under the target's name, one more scene has been created, the target's parameters are cleared, and nothing else changes |
| Switcher.SceneSwitcher.InstallScene | Classes/FenneX/Core/Scenes/SceneSwitcher.cpp:234-244 | the fields become `Installed` of the old ones. The calls are createScene for the target and its parameters, then runWithScene or replaceScene as the engine is running or not |
| Switcher.Commit | Classes/FenneX/Core/Scenes/SceneSwitcher.cpp:219-248 | the target becomes current through a fresh scene object made from its name and parameters. The queue is drained into the target, and the cancellation flag is untouched |
| Switcher.SceneSwitcher.CommitScene | Classes/FenneX/Core/Scenes/SceneSwitcher.cpp:219-248 | the fields and calls are those of `Commit` |
| SwitcherProperties.CommitFacts | Classes/FenneX/Core/Scenes/SceneSwitcher.cpp:219-248 | a commit creates exactly the target and announces exactly the target |
| SwitcherProperties.CallsFacts | Classes/FenneX/Core/Scenes/SceneSwitcher.cpp:219-247 | the calls of a commit create and announce exactly the target |
| SwitcherProperties.CommitTearsDownFirst | Classes/FenneX/Core/Scenes/SceneSwitcher.cpp:221-227 | an outgoing scene goes to the release pool and is stopped before any other call of the commit |
| Switcher.ReplaceAsWritten | Classes/FenneX/Core/Scenes/SceneSwitcher.cpp:202-255 | replaceScene with the commit test as written. It ends without delay, reload or cancellation flags |
| Switcher.Replace | Classes/FenneX/Core/Scenes/SceneSwitcher.cpp:202-255 | replaceScene with the corrected commit test. It keeps the invariant and ends without delay, reload or cancellation flags |
| Switcher.SceneSwitcher.ReplaceScene | Classes/FenneX/Core/Scenes/SceneSwitcher.cpp:202-255 | the fields and calls are those of `Replace`, and the invariant is kept |
| SwitcherProperties.ReplaceFacts | Classes/FenneX/Core/Scenes/SceneSwitcher.cpp:202-255 | after the cancellation is resolved, a passing test creates and announces exactly the target. The target becomes current, one scene is created, the queue is drained into the target and the cancellation is cleared. A failing test makes no call and only clears the delay and reload flags |
| Switcher.Advance | Classes/FenneX/Core/Scenes/SceneSwitcher.cpp:80-125 | the branches of a tick keep the invariant |
| Switcher.SceneSwitcher.AdvanceScene | Classes/FenneX/Core/Scenes/SceneSwitcher.cpp:80-125 | the fields and calls are those of `Advance`, and the invariant is kept |
| SwitcherProperties.AdvanceFacts | Classes/FenneX/Core/Scenes/SceneSwitcher.cpp:80-125 | the branches of a tick create at most one scene, announce exactly what they create, and change the current scene only by creating it, never for None |
| Switcher.Try | Classes/FenneX/Core/Scenes/SceneSwitcher.cpp:78-132 | a tick keeps the invariant, ends with processing over and isSwitching() false, and leaves the keyboard lock released. Its calls are those of the branches, followed by releaseAllKeyboardLocks exactly when a lock was held |
| Switcher.SceneSwitcher.TrySceneSwitch | Classes/FenneX/Core/Scenes/SceneSwitcher.cpp:78-132 | the fields and calls are those of `Try`, and the invariant is kept |
| SwitcherProperties.TryFacts | Classes/FenneX/Core/Scenes/SceneSwitcher.cpp:78-132 | one tick creates at most one scene and announces exactly what it creates. Without a creation the current scene is unchanged. With one, the created scene is the new current one, not None, and the counter grows by one |
| SwitcherProperties.TickArmsDelay | Classes/FenneX/Core/Scenes/SceneSwitcher.cpp:86-99 | the first tick on a new target, a reload target included, only sets frameDelay and ends the tick: the outcome is exactly that state, processing over and a held keyboard lock released, with releaseAllKeyboardLocks as the only possible call. Nothing is created, and isSwitching() is false |
| SwitcherProperties.TickCommits | Classes/FenneX/Core/Scenes/SceneSwitcher.cpp:100-103 | the next tick commits the target, hands over to a different queued request with the frame delay off, and clears the queue, the reload and the cancellation |
| SwitcherProperties.TwoTicksCommit | Classes/FenneX/Core/Scenes/SceneSwitcher.cpp:86-103 | a target that changes the scene is not created by the first tick and is committed by the second |
| SwitcherProperties.SameSceneIsSkipped | Classes/FenneX/Core/Scenes/SceneSwitcher.cpp:105-124 | a target that is None, or names the current scene without reload, only has the queue drained into it (target, parameters and frame delay as `TakeQueued` gives them) before the tick ends; the only possible call is releaseAllKeyboardLocks, so no scene is created, stopped, run or replaced |
| SwitcherProperties.ReloadRebuildsOnce | Classes/FenneX/Core/Scenes/SceneSwitcher.cpp:86-103 | with reload allowed, a target naming the current scene is rebuilt through a new scene object, and the override is used up |
| SwitcherProperties.CancelDropsTarget | Classes/FenneX/Core/Scenes/SceneSwitcher.cpp:211-218 | a cancelled target with nothing queued is dropped. Nothing is created and nothing stays pending |
| SwitcherProperties.CancelCommitsQueued | Classes/FenneX/Core/Scenes/SceneSwitcher.cpp:211-245 | a cancelled target is replaced by a different queued request, which is committed in the same call |
| Switcher.Bootstrap | Classes/FenneX/Core/Scenes/SceneSwitcher.cpp:67-76 | initWithScene keeps the invariant and ends with isSwitching() false |
| Switcher.SceneSwitcher.InitWithScene | Classes/FenneX/Core/Scenes/SceneSwitcher.cpp:67-76 | the fields and calls are those of `Bootstrap`, and the invariant is kept |
| SwitcherProperties.BootstrapCommits | Classes/FenneX/Core/Scenes/SceneSwitcher.cpp:67-76 | without a pending cancellation, initWithScene creates exactly its scene, which becomes current with the given parameters |
| SwitcherProperties.LatestRequestWins | Classes/FenneX/Core/Scenes/SceneSwitcher.cpp:174-181 | while a switch is under way, any number of requests only leave the last one, with its dictionary, in the queued slot. Nothing else changes and nothing is called |
| SwitcherProperties.ThreeRequestsQueueLast | Classes/FenneX/Core/Scenes/SceneSwitcher.cpp:157-182 | three requests from idle leave the first as the target and the third queued, and only the first makes calls |
| SwitcherProperties.ThreeRequestsCommitFirstAndLast | Classes/FenneX/Core/Scenes/SceneSwitcher.cpp:157-182 | after requests A, B, C, two ticks commit A and two more commit C. B is never created and nothing is left pending |
| Switcher.Run | Classes/FenneX/Core/Scenes/SceneSwitcher.cpp:192-195 | every run of operations keeps the invariant, so on every state the coordinator reaches, isSwitching() is processingSwitch |
| SwitcherProperties.ApplyFacts | Classes/FenneX/Core/Scenes/SceneSwitcher.cpp:78-200 | every operation creates at most one scene, announces exactly what it creates, and changes the current scene only by creating it |
| SwitcherProperties.RunAnnouncesCommits | Classes/FenneX/Core/Scenes/SceneSwitcher.cpp:244-247 | over any run, the "SceneSwitched" events name exactly the scenes created, in order |
| SwitcherProperties.RunEndsOnLastCommit | Classes/FenneX/Core/Scenes/SceneSwitcher.cpp:233-244 | over any run, no scene is created for None, and the current scene at the end is the last one created (or the scene current at the start, when none was created) |
| SwitcherProperties.ReloadThenCancelReaches | Classes/FenneX/Core/Scenes/SceneSwitcher.cpp:157-219 | allowReload, a request, a tick and a cancellation reach a state where the target is pending with the delay armed, reload on, the cancellation raised and nothing queued |
| SwitcherProperties.AsWrittenCommitsNone | Classes/FenneX/Core/Scenes/SceneSwitcher.cpp:219-233 | from that state, the test as written passes with target None. A scene is created for None and the invariant breaks, while the corrected test creates nothing |
| SwitcherProperties.ReplaceNeverCommitsNone | Classes/FenneX/Core/Scenes/SceneSwitcher.cpp:219-233 | with the corrected test, replaceScene never creates a scene for None |
| LegacySwitcher.Initial | projects/Classes/FenneX/Core/Scenes/SceneSwitcher.cpp:51-61 | after init, no scene exists or is current, nothing is queued or pending, the target's dictionary is NULL, and the invariant holds |
| LegacySwitcher.SceneSwitcher.Init | projects/Classes/FenneX/Core/Scenes/SceneSwitcher.cpp:51-61 | the fields are those of `Initial`, and the setup calls are made |
| LegacySwitcher.TakeQueued | projects/Classes/FenneX/Core/Scenes/SceneSwitcher.cpp:132-159 | the queue is left empty with a NULL dictionary. A different queued scene becomes the target with the delay off, but its dictionary replaces the target's only when it is not NULL. Otherwise nothing stays pending |
| LegacySwitcher.SceneSwitcher.TakeQueuedScene | projects/Classes/FenneX/Core/Scenes/SceneSwitcher.cpp:132-159 | the fields end as `TakeQueued` of the old fields, with no calls |
| LegacySwitcher.Plan | projects/Classes/FenneX/Core/Scenes/SceneSwitcher.cpp:161-185 | when idle, the request becomes the target with a copy of its dictionary and processing starts. Otherwise only the queued slot is overwritten. The invariant is kept |
| LegacySwitcher.SceneSwitcher.PlanSceneSwitch | projects/Classes/FenneX/Core/Scenes/SceneSwitcher.cpp:161-185 | the fields become `Plan` of the old ones, with no calls |
| LegacySwitcher.Cancel | projects/Classes/FenneX/Core/Scenes/SceneSwitcher.cpp:187-193 | the cancellation flag is raised and nothing else changes |
| LegacySwitcher.SceneSwitcher.CancelSceneSwitch | projects/Classes/FenneX/Core/Scenes/SceneSwitcher.cpp:187-193 | the fields become `Cancel` of the old ones, with no calls |
| LegacySwitcher.ResolveCancel | projects/Classes/FenneX/Core/Scenes/SceneSwitcher.cpp:204-211 | without a cancellation the state is unchanged. With one, the queue is taken and the flag is cleared |
| LegacySwitcher.AfterTeardown | projects/Classes/FenneX/Core/Scenes/SceneSwitcher.cpp:214-224 | the scene object is dropped exactly when a scene name is current |
| LegacySwitcher.SceneSwitcher.ReleaseCurrentScene | projects/Classes/FenneX/Core/Scenes/SceneSwitcher.cpp:214-224 | the fields become `AfterTeardown` of the old ones, and the outgoing or leftover scene object is stopped |
| LegacySwitcher.Installed | projects/Classes/FenneX/Core/Scenes/SceneSwitcher.cpp:226-240 | the new scene object is current under the target's name, and the target's dictionary pointer is NULL |
| LegacySwitcher.SceneSwitcher.InstallScene | projects/Classes/FenneX/Core/Scenes/SceneSwitcher.cpp:226-240 | the fields become `Installed` of the old ones. The calls are createScene, then runWithScene or replaceScene |
| LegacySwitcher.Commit | projects/Classes/FenneX/Core/Scenes/SceneSwitcher.cpp:212-243 | the target becomes current through a fresh scene object made from its name and dictionary, and the queue is drained into the target |
| LegacySwitcher.SceneSwitcher.CommitScene | projects/Classes/FenneX/Core/Scenes/SceneSwitcher.cpp:212-243 | the fields and calls are those of `Commit` |
| LegacyProperties.CommitFacts | projects/Classes/FenneX/Core/Scenes/SceneSwitcher.cpp:212-243 | a commit creates exactly the target and posts exactly one "SceneSwitched" notification, naming the target |
| LegacyProperties.CommitTearsDownFirst | projects/Classes/FenneX/Core/Scenes/SceneSwitcher.cpp:214-226 | when a scene is current, the first call of a commit stops it and the second creates the new scene |
| LegacySwitcher.Replace | projects/Classes/FenneX/Core/Scenes/SceneSwitcher.cpp:195-255 | replaceScene keeps the invariant and ends without delay or cancellation flags |
| LegacySwitcher.SceneSwitcher.ReplaceScene | projects/Classes/FenneX/Core/Scenes/SceneSwitcher.cpp:195-255 | the fields and calls are those of `Replace`, and the invariant is kept |
| LegacyProperties.ReplaceFacts | projects/Classes/FenneX/Core/Scenes/SceneSwitcher.cpp:195-255 | after the cancellation is resolved, a passing test creates exactly the target, which differs from the current scene and becomes current. A passing test also announces exactly the target. A failing test makes no call |
| LegacySwitcher.Advance | projects/Classes/FenneX/Core/Scenes/SceneSwitcher.cpp:84-128 | the branches of a tick keep the invariant |
| LegacySwitcher.SceneSwitcher.AdvanceScene | projects/Classes/FenneX/Core/Scenes/SceneSwitcher.cpp:84-128 | the fields and calls are those of `Advance` |
| LegacySwitcher.Try | projects/Classes/FenneX/Core/Scenes/SceneSwitcher.cpp:82-130 | a tick keeps the invariant and ends with processing over |
| LegacySwitcher.SceneSwitcher.TrySceneSwitch | projects/Classes/FenneX/Core/Scenes/SceneSwitcher.cpp:82-130 | the fields and calls are those of `Try` |
| LegacyProperties.TryFacts | projects/Classes/FenneX/Core/Scenes/SceneSwitcher.cpp:82-130 | one tick creates at most one scene, never None and never the scene that was current. Without one, the current scene is unchanged |
| LegacyProperties.TickArmsDelay | projects/Classes/FenneX/Core/Scenes/SceneSwitcher.cpp:99-102 | the first tick on a target that would change the scene only sets frameDelay and ends processing; nothing is called |
| LegacyProperties.SameSceneIsSkipped | projects/Classes/FenneX/Core/Scenes/SceneSwitcher.cpp:108-128 | a target that is None or names the current scene only has the queue drained into it; nothing is called |
| LegacySwitcher.BootParams | projects/Classes/FenneX/Core/Scenes/SceneSwitcher.cpp:69-77 | the target's dictionary is never NULL: a NULL argument gives an empty one, and a given one is kept |
| LegacySwitcher.Bootstrap | projects/Classes/FenneX/Core/Scenes/SceneSwitcher.cpp:63-80 | initWithScene keeps the invariant and ends with processing over |
| LegacySwitcher.SceneSwitcher.InitWithScene | projects/Classes/FenneX/Core/Scenes/SceneSwitcher.cpp:63-80 | the fields and calls are those of `Bootstrap` |
| LegacyProperties.BootstrapCommits | projects/Classes/FenneX/Core/Scenes/SceneSwitcher.cpp:63-80 | without a pending cancellation, initWithScene creates its scene within the call, with an empty dictionary for NULL or the one given |
| LegacyProperties.LatestRequestWins | projects/Classes/FenneX/Core/Scenes/SceneSwitcher.cpp:176-184 | while a switch is under way, requests only leave the last one, with a copy of its dictionary, in the queued slot |
| LegacySwitcher.Apply | projects/Classes/FenneX/Core/Scenes/SceneSwitcher.cpp:82-193 | every operation keeps the invariant |
| LegacySwitcher.Run | projects/Classes/FenneX/Core/Scenes/SceneSwitcher.cpp:82-193 | every run of operations keeps the invariant |
| LegacyProperties.ApplyFacts | projects/Classes/FenneX/Core/Scenes/SceneSwitcher.cpp:82-193 | every operation creates at most one scene, never None and never the current one |
| LegacyProperties.RunNeverRebuilds | projects/Classes/FenneX/Core/Scenes/SceneSwitcher.cpp:212-240 | over any run, no scene is created for None, no creation rebuilds the scene current at that point, and the last creation is the final current scene |
| Variants.InitialAgree | Classes/FenneX/Core/Scenes/SceneSwitcher.cpp:54-65 | both versions start alike, having created nothing |
| Variants.TakeQueuedAgrees | Classes/FenneX/Core/Scenes/SceneSwitcher.cpp:134-155 | taking the queue makes the two versions alike, whatever the target's dictionaries were |
| Variants.ResolveCancelAgrees | Classes/FenneX/Core/Scenes/SceneSwitcher.cpp:211-218 | resolving a cancellation keeps the versions alike |
| Variants.CommitAgrees | Classes/FenneX/Core/Scenes/SceneSwitcher.cpp:219-248 | a commit keeps the versions alike, and both create the same scene |
| Variants.ReplaceCommitAgrees | Classes/FenneX/Core/Scenes/SceneSwitcher.cpp:219-248 | the committing branch of replaceScene keeps the versions alike, and both create the same scenes |
| Variants.ReplaceAgrees | Classes/FenneX/Core/Scenes/SceneSwitcher.cpp:202-255 | replaceScene keeps the versions alike, and both create the same scenes |
| Variants.AdvanceAgrees | Classes/FenneX/Core/Scenes/SceneSwitcher.cpp:80-125 | the tick's branches keep the versions alike |
| Variants.TryAgrees | Classes/FenneX/Core/Scenes/SceneSwitcher.cpp:78-132 | a tick keeps the versions alike, and the keyboard-lock release creates nothing |
| Variants.ApplyAgrees | Classes/FenneX/Core/Scenes/SceneSwitcher.cpp:157-190 | every operation both versions have keeps them alike and creates the same scenes in both |
| Variants.RunAgrees | Classes/FenneX/Core/Scenes/SceneSwitcher.cpp:78-255 | over any run without allowReload, the versions end alike and create the same scenes in the same order |
| Variants.SameCommitsFromStart | Classes/FenneX/Core/Scenes/SceneSwitcher.cpp:54-255 | from init, any run without allowReload creates the same scenes in both versions |

## Left out

- The timed delay is not modelled: `delayReplace`, the `isEventFired` countdown
  branch and `deltaTime`.
  - The configured delay is the constant 0 (`sceneSwitchDelay`), so the branch that
    sets `isEventFired` is dead code.
  - The invariant `Inv` includes `!isEventFired`. It holds initially and every
    operation keeps it, so the countdown branch of `trySceneSwitch` is never taken.
  - The float arithmetic of the countdown would need floating point, which the model
    does not have.
- Switcher.Try: requires the invariant, so the countdown branch (lines 110-121) is
  outside its domain. No reachable state takes that branch.
- Switcher.SceneSwitcher.TrySceneSwitch: requires `Valid()`, for the same reason.
- LegacySwitcher.Try: requires the invariant, for the same reason (lines 113-124 of
  the older version).
- LegacySwitcher.SceneSwitcher.TrySceneSwitch: requires `Valid()`, for the same
  reason.
- The scene named in a request is taken as already decoded. The C++ reads a
  `SceneName` from the dictionary's "Scene" entry by an integer cast. The enumeration
  itself is defined elsewhere, so `SceneName` is `None` or a numbered scene.
- These have no scheduling content and are not modelled:
  - the singleton accessor `sharedSwitcher`;
  - the destructor and the removal of the event listener or observer;
  - all logging, including `FileLogger` and the performance timing.
- The reference counting of the older version is not modelled: `retain`, `release`
  and `new CCDictionary`. Dictionaries are values, so leaks and double releases are
  not visible.
- The collaborators are not modelled; their calls are logged and their results are
  parameters:
  - the director, `Scene`, the event dispatcher or notification centre, the texture
    cache, `InputLabel`, `SynchronousReleaser`.
  - The model does not state what those calls do.
- `Director::getRunningScene()` enters as the parameter `engineRunning`. The lock
  token returned by `InputLabel::preventKeyboardOpen()` enters as `lockToken`.
- The C++ `init` does not set several fields:
  - in both versions, `nextScene`, `queuedScene`, `processingSwitch` and `frameDelay`;
  - in the current version, also `reloadAllowed`;
  - in the older version, also `queuedParam`.

  They are taken to start as None, false or NULL.
- The `CCAssert`s are modelled as follows:
  - Those of `initWithScene` are the preconditions of `InitWithScene` and
    `Bootstrap`.
  - "currentScene is nil while not being None" is part of the invariant, proved
    always to hold.
  - "cannot go to scene None" is the finding below.
- Calls that collaborators make back into the coordinator are not modelled. A run of
  `Op`s interleaves only whole operations. In the C++, a listener of "SceneSwitched"
  (dispatched before `reloadAllowed` and `processingSwitch` are reset), or code inside
  `Scene::createScene`, may call `planSceneSwitch` or `allowReload` in the middle of a
  tick. Such a request lands in the queued slot rather than being adopted, and such an
  `allowReload` is erased at the end of `replaceScene`. The model does not capture
  these nested calls.
- The effect log records the order of collaborator calls among themselves. It does
  not record when each call happens relative to the field updates.

## Findings

| source | as written | input that shows it | evidently intended | confidence | as-written member | corrected member |
|---|---|---|---|---|---|---|
| Classes/FenneX/Core/Scenes/SceneSwitcher.cpp:219 | replaceScene commits when `(currentSceneName != nextScene && nextScene != None) \|\| reloadAllowed`, so reloadAllowed alone lets it commit | allowReload, then a request for a scene, a tick, cancelSceneSwitch with nothing queued, and a tick: the cancellation empties the target, the reload override still passes the test, and a scene is created for None, against the assertion on line 233 and leaving a scene object with no current name | commit only to a real target: `nextScene != None && (currentSceneName != nextScene \|\| reloadAllowed)` | not executed | SwitcherProperties.AsWrittenCommitsNone | SwitcherProperties.ReplaceNeverCommitsNone |

The class `Switcher.SceneSwitcher` and all properties use the corrected test
(`Switcher.Replace`). `Switcher.ReplaceAsWritten` keeps the test as written, and
`SwitcherProperties.ReloadThenCancelReaches` shows that the bad state is reachable
from an idle coordinator.
