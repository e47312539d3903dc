/** The current scene-switch coordinator (Classes/FenneX/Core/Scenes/SceneSwitcher.cpp).

    The coordinator's fields are gathered in the value `State`; each operation of the
    source is a function from the old state to the new state plus the calls it makes
    into the engine (`Effect`s, in order). The class `SceneSwitcher` at the end holds the
    same fields and updates them step by step, as the source does; each of its methods
    is proved to produce exactly what the matching function describes. */
module Switcher {
  import opened Scenes

  /** An engine scene object returned by `Scene::createScene`. `serial` stands for the
      identity of the fresh object: the number of scenes created before it. */
  datatype Handle = Handle(serial: nat, name: SceneName, params: ValueMap)

  /** A call into a collaborator that the model does not contain. */
  datatype Effect =
    | SetNotificationNode                 // Director::setNotificationNode(Node::create())
    | AddPlanListener                     // listener for the "PlanSceneSwitch" event
    | UnbindAllImageAsync                 // TextureCache::unbindAllImageAsync()
    | PreventKeyboardOpen(token: int)     // InputLabel::preventKeyboardOpen(), which returned token
    | ReleaseAllKeyboardLocks             // InputLabel::releaseAllKeyboardLocks()
    | AddToReleasePool(h: Handle)         // SynchronousReleaser::addObjectToReleasePool
    | Stop(h: Handle)                     // Scene::stop()
    | CreateScene(name: SceneName, params: ValueMap, made: Handle)
    | RunWithScene(h: Handle)             // Director::runWithScene
    | ReplaceRunningScene(h: Handle)      // Director::replaceScene
    | SceneSwitched(name: SceneName)      // dispatch of the "SceneSwitched" event

  /** The coordinator's fields. `created` counts the scenes created so far. */
  datatype State = State(
    currentScene: Nullable<Handle>,
    currentSceneName: SceneName,
    nextScene: SceneName,
    nextSceneParam: ValueMap,
    queuedScene: SceneName,
    queuedParam: ValueMap,
    processingSwitch: bool,
    frameDelay: bool,
    isEventFired: bool,
    sceneSwitchCancelled: bool,
    reloadAllowed: bool,
    keyboardLock: int,
    created: nat)
  {
    /** isSwitching() */
    predicate IsSwitching() {
      processingSwitch || isEventFired
    }
  }

  /** A new state and the collaborator calls made on the way, in order. */
  datatype Outcome = Outcome(state: State, effects: seq<Effect>)

  /** The invariant every operation keeps. The timed delay is never armed (the
      configured delay is the constant 0), and a scene object exists exactly when a
      scene name is current, was made for that name, and was made earlier. */
  predicate Inv(s: State) {
    && !s.isEventFired
    && (s.currentScene.Some? <==> s.currentSceneName != None)
    && (s.currentScene.Some? ==>
          s.currentScene.value.name == s.currentSceneName && s.currentScene.value.serial < s.created)
  }

  /** Nothing pending and no switch being processed: a request is adopted. */
  predicate Idle(s: State) {
    !s.processingSwitch && s.nextScene == None
  }

  /** The scene an effect creates, if any. */
  function CreatedBy(e: Effect): seq<SceneName> {
    if e.CreateScene? then [e.name] else []
  }

  /** The scene an effect announces as switched to, if any. */
  function AnnouncedBy(e: Effect): seq<SceneName> {
    if e.SceneSwitched? then [e.name] else []
  }

  /** The scenes created in a list of effects, in order. (`LegacySwitcher` has its own
      copy of this and of `CommitsAppend`, over its own `Effect` type.) */
  function Commits(effects: seq<Effect>): (names: seq<SceneName>)
    ensures |names| <= |effects|
  {
    if effects == [] then [] else CreatedBy(effects[0]) + Commits(effects[1..])
  }

  /** The scenes announced by "SceneSwitched" events in a list of effects, in order. */
  function Announced(effects: seq<Effect>): (names: seq<SceneName>)
    ensures |names| <= |effects|
  {
    if effects == [] then [] else AnnouncedBy(effects[0]) + Announced(effects[1..])
  }

  /** The collaborator calls `init` makes. */
  const INIT_EFFECTS: seq<Effect> := [SetNotificationNode, AddPlanListener]

  /** The state `init` leaves. `init` sets the active scene, its name, the parameters,
      the cancellation and delay flags and the keyboard lock; the other fields are not
      set in the source and are taken to start as None, empty or false. */
  function Initial(): (s: State)
    ensures Inv(s) && Idle(s) && !s.IsSwitching()
    ensures s.currentSceneName == None && s.currentScene == Null && s.queuedScene == None
    ensures !s.sceneSwitchCancelled && !s.reloadAllowed && s.keyboardLock < 0
  {
    State(Null, None, None, map[], None, map[], false, false, false, false, false, -1, 0)
  }

  /** takeQueuedScene: the queued request replaces the target, unless it names the
      target already, in which case nothing is left pending. The queue is emptied
      either way, and nothing but the target and the queue changes. */
  function TakeQueued(s: State): (r: State)
    ensures r.queuedScene == None && r.queuedParam == map[]
    ensures r.nextScene != None ==> r.nextScene == s.queuedScene && r.nextScene != s.nextScene
    ensures s.queuedScene != s.nextScene ==>
              r.nextScene == s.queuedScene && !r.frameDelay && r.nextSceneParam == s.queuedParam
    ensures s.queuedScene == s.nextScene ==>
              r.nextScene == None && r.frameDelay == s.frameDelay && r.nextSceneParam == s.nextSceneParam
    ensures r.currentScene == s.currentScene && r.currentSceneName == s.currentSceneName && r.created == s.created
    ensures r.processingSwitch == s.processingSwitch && r.isEventFired == s.isEventFired
    ensures r.sceneSwitchCancelled == s.sceneSwitchCancelled && r.reloadAllowed == s.reloadAllowed
    ensures r.keyboardLock == s.keyboardLock
  {
    var adopt := s.nextScene != s.queuedScene;
    s.(nextScene := if adopt then s.queuedScene else None,
       frameDelay := if adopt then false else s.frameDelay,
       nextSceneParam := if adopt then s.queuedParam else s.nextSceneParam,
       queuedScene := None,
       queuedParam := map[])
  }

  /** planSceneSwitch: when idle the request becomes the target, held one tick
      (frameDelay off), processing starts and the keyboard is locked; otherwise the
      request only overwrites the queued slot, so the latest request wins. The scene
      None is not rejected. */
  function Plan(s: State, req: Request, lockToken: int): (r: Outcome)
    ensures Idle(s) ==>
              && r.state == s.(nextScene := req.scene, nextSceneParam := req.infos, frameDelay := false,
                               processingSwitch := true, isEventFired := false, keyboardLock := lockToken)
              && r.effects == [UnbindAllImageAsync, PreventKeyboardOpen(lockToken)]
    ensures !Idle(s) ==>
              r.state == s.(queuedScene := req.scene, queuedParam := req.infos) && r.effects == []
    ensures Inv(s) ==> Inv(r.state)
    ensures Commits(r.effects) == []
  {
    if !s.processingSwitch && s.nextScene == None then
      Outcome(s.(nextScene := req.scene, frameDelay := false, nextSceneParam := req.infos,
                 processingSwitch := true, isEventFired := false, keyboardLock := lockToken),
              [UnbindAllImageAsync, PreventKeyboardOpen(lockToken)])
    else
      Outcome(s.(queuedScene := req.scene, queuedParam := req.infos), [])
  }

  /** cancelSceneSwitch: only raises the flag; it is acted on by the next replaceScene. */
  function Cancel(s: State): (r: State)
    ensures r.sceneSwitchCancelled && r.(sceneSwitchCancelled := s.sceneSwitchCancelled) == s
  {
    s.(sceneSwitchCancelled := true)
  }

  /** allowReload: the next commit may rebuild the current scene. */
  function WithReload(s: State): (r: State)
    ensures r.reloadAllowed && r.(reloadAllowed := s.reloadAllowed) == s
  {
    s.(reloadAllowed := true)
  }

  /** The first step of replaceScene: a cancelled target is dropped in favour of the
      queued request, and the flag is cleared. */
  function ResolveCancel(s: State): (r: State)
    ensures !r.sceneSwitchCancelled
    ensures !s.sceneSwitchCancelled ==> r == s
    ensures s.sceneSwitchCancelled ==> r == TakeQueued(s).(sceneSwitchCancelled := false)
  {
    if s.sceneSwitchCancelled then TakeQueued(s).(sceneSwitchCancelled := false) else s
  }

  /** The commit test of replaceScene as the source writes it. */
  predicate CommitGuardAsWritten(s: State) {
    (s.currentSceneName != s.nextScene && s.nextScene != None) || s.reloadAllowed
  }

  /** The commit test with the source's own assertion (a commit never targets None)
      made part of it. */
  predicate CommitGuard(s: State) {
    s.nextScene != None && (s.currentSceneName != s.nextScene || s.reloadAllowed)
  }

  /** The outgoing scene's teardown: into the release pool, then stopped. */
  function Teardown(s: State): seq<Effect>
    requires s.currentSceneName != None ==> s.currentScene.Some?
  {
    if s.currentSceneName != None then [AddToReleasePool(s.currentScene.value), Stop(s.currentScene.value)]
    else []
  }

  /** The defensive second stop of a scene object left over while no name is current. */
  function Restop(s: State): seq<Effect> {
    if s.currentSceneName == None && s.currentScene.Some? then [Stop(s.currentScene.value)] else []
  }

  /** The state after the teardown: a current scene is released. */
  function AfterTeardown(s: State): (r: State)
    ensures r.currentScene == (if s.currentSceneName != None then Null else s.currentScene)
    ensures r.(currentScene := s.currentScene) == s
  {
    if s.currentSceneName != None then s.(currentScene := Null) else s
  }

  /** The scene object createScene makes for the target. */
  function NewHandle(s: State): Handle {
    Handle(s.created, s.nextScene, s.nextSceneParam)
  }

  /** Installing a scene: run when nothing is running yet, replace otherwise. */
  function Install(h: Handle, engineRunning: bool): Effect {
    if engineRunning then ReplaceRunningScene(h) else RunWithScene(h)
  }

  /** The commit branch of replaceScene: teardown of the outgoing scene, creation and
      installation of the new one, the target becomes current, the queue is drained,
      and "SceneSwitched" names the new current scene. */
  function Commit(s: State, engineRunning: bool): (r: Outcome)
    requires s.currentSceneName != None ==> s.currentScene.Some?
    ensures r.state.currentSceneName == s.nextScene && r.state.created == s.created + 1
    ensures r.state.currentScene == Some(Handle(s.created, s.nextScene, s.nextSceneParam))
    ensures r.state.nextScene == (if s.queuedScene != s.nextScene then s.queuedScene else None)
    ensures r.state.queuedScene == None && r.state.sceneSwitchCancelled == s.sceneSwitchCancelled
  {
    Outcome(TakeQueued(Installed(AfterTeardown(s))), CommitCalls(s, engineRunning))
  }

  /** The state once the new scene is created and installed: it is the current scene,
      under the target's name, and the target's parameters are cleared. */
  function Installed(s: State): (r: State)
    ensures r.currentScene == Some(NewHandle(s)) && r.currentSceneName == s.nextScene
    ensures r.created == s.created + 1 && r.nextSceneParam == map[]
    ensures r.(currentScene := s.currentScene, currentSceneName := s.currentSceneName,
               created := s.created, nextSceneParam := s.nextSceneParam) == s
  {
    s.(currentScene := Some(NewHandle(s)), created := s.created + 1,
       nextSceneParam := map[], currentSceneName := s.nextScene)
  }

  /** The calls of a commit: teardown, creation and installation of the new scene, and
      the "SceneSwitched" event, which names the new current scene, that is, the target. */
  function CommitCalls(s: State, engineRunning: bool): seq<Effect>
    requires s.currentSceneName != None ==> s.currentScene.Some?
  {
    var h := NewHandle(s);
    Teardown(s) + Restop(s) + [CreateScene(s.nextScene, s.nextSceneParam, h), Install(h, engineRunning)]
    + [SceneSwitched(s.nextScene)]
  }

  /** replaceScene, with the outcome of the commit test supplied by the caller. */
  function ReplaceBy(s: State, engineRunning: bool, commit: bool): Outcome
    requires s.currentSceneName != None ==> s.currentScene.Some?
  {
    var c := ResolveCancel(s);
    var o := if commit then Commit(c, engineRunning) else Outcome(c, []);
    Outcome(o.state.(isEventFired := false, reloadAllowed := false), o.effects)
  }

  /** replaceScene exactly as written: its commit test can hold with target None. */
  function ReplaceAsWritten(s: State, engineRunning: bool): (r: Outcome)
    requires s.currentSceneName != None ==> s.currentScene.Some?
    ensures !r.state.isEventFired && !r.state.reloadAllowed && !r.state.sceneSwitchCancelled
  {
    ReplaceBy(s, engineRunning, CommitGuardAsWritten(ResolveCancel(s)))
  }

  /** replaceScene with the corrected commit test. It keeps the invariant and always
      ends with the delay flag, the reload override and the cancellation cleared. */
  function Replace(s: State, engineRunning: bool): (r: Outcome)
    requires Inv(s)
    ensures Inv(r.state)
    ensures !r.state.isEventFired && !r.state.reloadAllowed && !r.state.sceneSwitchCancelled
  {
    ReplaceBy(s, engineRunning, CommitGuard(ResolveCancel(s)))
  }

  /** The last steps of trySceneSwitch: processing ends, and a keyboard lock that is
      held is released. */
  function EndTick(o: Outcome): Outcome {
    var held := o.state.keyboardLock >= 0;
    Outcome(o.state.(processingSwitch := false, keyboardLock := if held then -1 else o.state.keyboardLock),
            o.effects + if held then [ReleaseAllKeyboardLocks] else [])
  }

  /** The branches of trySceneSwitch before processing ends, without the delayed
      branch (Inv rules out isEventFired): a target that would change the scene is
      held for one tick and then committed by replaceScene; any other target is
      dropped in favour of the queued request. */
  function Advance(s: State, engineRunning: bool): (r: Outcome)
    requires Inv(s)
    ensures Inv(r.state)
  {
    if s.nextScene != None && (s.nextScene != s.currentSceneName || s.reloadAllowed) then
      if !s.frameDelay then Outcome(s.(frameDelay := true), [])
      else Replace(s, engineRunning)
    else Outcome(TakeQueued(s), [])
  }

  /** trySceneSwitch, the once-per-tick step. It keeps the invariant, and every call
      ends with processing over, so isSwitching() is false, and with the keyboard lock
      not held. */
  function Try(s: State, engineRunning: bool): (r: Outcome)
    requires Inv(s)
    ensures Inv(r.state) && !r.state.processingSwitch && !r.state.IsSwitching()
    ensures r.state.keyboardLock == (if s.keyboardLock >= 0 then -1 else s.keyboardLock)
    ensures r.effects == Advance(s, engineRunning).effects
                         + (if s.keyboardLock >= 0 then [ReleaseAllKeyboardLocks] else [])
  {
    EndTick(Advance(s, engineRunning))
  }

  /** initWithScene: the bootstrap path. The source asserts that no scene exists yet
      and that the target is a scene. Because frameDelay is set before the tick, the
      target is committed within this same call unless a cancellation is pending. */
  function Bootstrap(s: State, nextSceneType: SceneName, param: ValueMap, engineRunning: bool): (r: Outcome)
    requires Inv(s) && s.currentSceneName == None && nextSceneType != None
    ensures Inv(r.state) && !r.state.IsSwitching()
  {
    Try(s.(nextScene := nextSceneType, frameDelay := true, nextSceneParam := param, processingSwitch := true),
        engineRunning)
  }

  lemma {:induction false} CommitsAppend(a: seq<Effect>, b: seq<Effect>)
    ensures Commits(a + b) == Commits(a) + Commits(b)
  {
    if a == [] {
      assert a + b == b;
    } else {
      assert (a + b)[0] == a[0] && (a + b)[1..] == a[1..] + b;
      CommitsAppend(a[1..], b);
      calc {
        Commits(a + b);
        CreatedBy(a[0]) + Commits(a[1..] + b);
        CreatedBy(a[0]) + (Commits(a[1..]) + Commits(b));
        (CreatedBy(a[0]) + Commits(a[1..])) + Commits(b);
      }
    }
  }

  lemma {:induction false} AnnouncedAppend(a: seq<Effect>, b: seq<Effect>)
    ensures Announced(a + b) == Announced(a) + Announced(b)
  {
    if a == [] {
      assert a + b == b;
    } else {
      assert (a + b)[0] == a[0] && (a + b)[1..] == a[1..] + b;
      AnnouncedAppend(a[1..], b);
      calc {
        Announced(a + b);
        AnnouncedBy(a[0]) + Announced(a[1..] + b);
        AnnouncedBy(a[0]) + (Announced(a[1..]) + Announced(b));
        (AnnouncedBy(a[0]) + Announced(a[1..])) + Announced(b);
      }
    }
  }

  /** One thing that can happen to the coordinator: a "PlanSceneSwitch" event, a
      scheduler tick, cancelSceneSwitch or allowReload. */
  datatype Op =
    | PlanOp(req: Request, lockToken: int)
    | TickOp(engineRunning: bool)
    | CancelOp
    | AllowReloadOp

  function Apply(s: State, op: Op): (r: Outcome)
    requires Inv(s)
    ensures Inv(r.state)
  {
    match op
    case PlanOp(req, token) => Plan(s, req, token)
    case TickOp(running) => Try(s, running)
    case CancelOp => Outcome(Cancel(s), [])
    case AllowReloadOp => Outcome(WithReload(s), [])
  }

  /** A run of operations from `s`: the final state and all effects, in order.
      The invariant holds throughout, so on every reachable state isSwitching()
      is the same as processingSwitch. */
  function Run(s: State, ops: seq<Op>): (r: Outcome)
    requires Inv(s)
    ensures Inv(r.state) && r.state.IsSwitching() == r.state.processingSwitch
    decreases |ops|
  {
    if ops == [] then Outcome(s, [])
    else
      var first := Apply(s, ops[0]);
      var rest := Run(first.state, ops[1..]);
      Outcome(rest.state, first.effects + rest.effects)
  }

  /** The coordinator object. Its fields are the C++ fields; `created` stands for the
      identity of the scene objects it creates, and `effects` logs the calls into
      collaborators. */
  class SceneSwitcher {
    var currentScene: Nullable<Handle>
    var currentSceneName: SceneName
    var nextScene: SceneName
    var nextSceneParam: ValueMap
    var queuedScene: SceneName
    var queuedParam: ValueMap
    var processingSwitch: bool
    var frameDelay: bool
    var isEventFired: bool
    var sceneSwitchCancelled: bool
    var reloadAllowed: bool
    var keyboardLock: int
    var created: nat
    ghost var effects: seq<Effect>

    ghost function Model(): State
      reads this
    {
      State(currentScene, currentSceneName, nextScene, nextSceneParam, queuedScene, queuedParam,
            processingSwitch, frameDelay, isEventFired, sceneSwitchCancelled, reloadAllowed,
            keyboardLock, created)
    }

    ghost predicate Valid()
      reads this
    {
      Inv(Model())
    }

    /** init */
    constructor Init()
      ensures Valid() && Model() == Initial() && effects == INIT_EFFECTS
    {
      currentScene := Null;
      sceneSwitchCancelled := false;
      currentSceneName := None;
      nextSceneParam := map[];
      isEventFired := false;
      keyboardLock := -1;
      // not set by init in the source
      nextScene := None;
      queuedScene := None;
      queuedParam := map[];
      processingSwitch := false;
      frameDelay := false;
      reloadAllowed := false;
      created := 0;
      effects := INIT_EFFECTS;
    }

    method InitWithScene(nextSceneType: SceneName, param: ValueMap, engineRunning: bool)
      requires Valid() && currentSceneName == None && nextSceneType != None
      modifies this
      ensures Valid()
      ensures Model() == Bootstrap(old(Model()), nextSceneType, param, engineRunning).state
      ensures effects == old(effects) + Bootstrap(old(Model()), nextSceneType, param, engineRunning).effects
    {
      nextScene := nextSceneType;
      frameDelay := true;
      nextSceneParam := param;
      processingSwitch := true;
      TrySceneSwitch(engineRunning);
    }

    method TrySceneSwitch(engineRunning: bool)
      requires Valid()
      modifies this
      ensures Valid()
      ensures Model() == Try(old(Model()), engineRunning).state
      ensures effects == old(effects) + Try(old(Model()), engineRunning).effects
    {
      AdvanceScene(engineRunning);
      processingSwitch := false;
      if keyboardLock >= 0 {
        effects := effects + [ReleaseAllKeyboardLocks];
        keyboardLock := -1;
      }
    }

    /** The branches of trySceneSwitch (lines 80-125 of the source); the delayed
        branch needs isEventFired, which Valid() rules out. */
    method AdvanceScene(engineRunning: bool)
      requires Valid()
      modifies this
      ensures Valid()
      ensures Model() == Advance(old(Model()), engineRunning).state
      ensures effects == old(effects) + Advance(old(Model()), engineRunning).effects
    {
      if nextScene != None && (nextScene != currentSceneName || reloadAllowed) {
        if !frameDelay {
          frameDelay := true;
        } else {
          ReplaceScene(engineRunning);
        }
      } else {
        TakeQueuedScene();
      }
    }

    method TakeQueuedScene()
      modifies this
      ensures Model() == TakeQueued(old(Model())) && effects == old(effects)
    {
      if nextScene != queuedScene {
        nextScene := queuedScene;
        frameDelay := false;
        nextSceneParam := queuedParam;
      } else {
        nextScene := None;
        queuedParam := map[];
      }
      queuedScene := None;
      queuedParam := map[];
    }

    method PlanSceneSwitch(req: Request, lockToken: int)
      requires Valid()
      modifies this
      ensures Valid()
      ensures Model() == Plan(old(Model()), req, lockToken).state
      ensures effects == old(effects) + Plan(old(Model()), req, lockToken).effects
    {
      if !processingSwitch && nextScene == None {
        nextScene := req.scene;
        frameDelay := false;
        nextSceneParam := req.infos;
        processingSwitch := true;
        isEventFired := false;
        keyboardLock := lockToken;
        // unbindAllImageAsync first, then preventKeyboardOpen, which returned lockToken
        effects := effects + [UnbindAllImageAsync, PreventKeyboardOpen(lockToken)];
      } else {
        queuedScene := req.scene;
        queuedParam := req.infos;
      }
    }

    method CancelSceneSwitch()
      requires Valid()
      modifies this
      ensures Valid() && Model() == Cancel(old(Model())) && effects == old(effects)
    {
      sceneSwitchCancelled := true;
    }

    /** isSwitching(); on every state the coordinator reaches it is processingSwitch. */
    method IsSwitching() returns (r: bool)
      ensures r == Model().IsSwitching()
      ensures Valid() ==> r == processingSwitch
    {
      r := processingSwitch || isEventFired;
    }

    method AllowReload()
      requires Valid()
      modifies this
      ensures Valid() && Model() == WithReload(old(Model())) && effects == old(effects)
    {
      reloadAllowed := true;
    }

    method ReplaceScene(engineRunning: bool)
      requires Valid()
      modifies this
      ensures Valid()
      ensures Model() == Replace(old(Model()), engineRunning).state
      ensures effects == old(effects) + Replace(old(Model()), engineRunning).effects
    {
      ResolveCancelledScene();
      ghost var c := Model();
      ghost var e := effects;
      if nextScene != None && (currentSceneName != nextScene || reloadAllowed) {
        CommitScene(engineRunning);
      }
      ghost var o := if CommitGuard(c) then Commit(c, engineRunning) else Outcome(c, []);
      assert Model() == o.state && effects == e + o.effects;
      isEventFired := false;
      reloadAllowed := false;
    }

    /** The first step of replaceScene (lines 211-218 of the source). */
    method ResolveCancelledScene()
      modifies this
      ensures Model() == ResolveCancel(old(Model())) && effects == old(effects)
    {
      if sceneSwitchCancelled {
        TakeQueuedScene();
        sceneSwitchCancelled := false;
      }
    }

    /** The commit branch of replaceScene (lines 219-247 of the source). */
    method CommitScene(engineRunning: bool)
      requires currentSceneName != None ==> currentScene.Some?
      modifies this
      ensures Model() == Commit(old(Model()), engineRunning).state
      ensures effects == old(effects) + Commit(old(Model()), engineRunning).effects
    {
      ReleaseCurrentScene();
      InstallScene(engineRunning);
      TakeQueuedScene();
      effects := effects + [SceneSwitched(currentSceneName)];
    }

    /** The creation and installation of the new scene (lines 234-244 of the source). */
    method InstallScene(engineRunning: bool)
      modifies this
      ensures Model() == Installed(old(Model()))
      ensures effects == old(effects) + [CreateScene(old(nextScene), old(nextSceneParam), NewHandle(old(Model()))),
                                         Install(NewHandle(old(Model())), engineRunning)]
    {
      var h := Handle(created, nextScene, nextSceneParam);
      // createScene, then runWithScene or replaceScene on the director
      effects := effects + [CreateScene(nextScene, nextSceneParam, h), Install(h, engineRunning)];
      currentScene := Some(h);
      created := created + 1;
      nextSceneParam := map[];
      currentSceneName := nextScene;
    }

    /** The teardown of the outgoing scene (lines 221-232 of the source). */
    method ReleaseCurrentScene()
      requires currentSceneName != None ==> currentScene.Some?
      modifies this
      ensures Model() == AfterTeardown(old(Model()))
      ensures effects == old(effects) + (Teardown(old(Model())) + Restop(old(Model())))
    {
      if currentSceneName != None {
        effects := effects + [AddToReleasePool(currentScene.value), Stop(currentScene.value)];
        currentScene := Null;
      }
      if currentScene.Some? {
        effects := effects + [Stop(currentScene.value)];
      }
    }
  }
}
