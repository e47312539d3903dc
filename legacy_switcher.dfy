/** The older scene-switch coordinator (projects/Classes/FenneX/Core/Scenes/SceneSwitcher.cpp).

    It has the same scheduling as the current one, but no reload override, no keyboard
    lock, no release pool and no texture unbinding, and its parameter dictionaries are
    pointers that may be NULL. The shape of the model is the same as in `Switcher`:
    functions on a value `State`, and a class whose methods are proved to match them. */
module LegacySwitcher {
  import opened Scenes

  /** An engine scene object returned by `Scene::createScene`; `serial` stands for its
      identity, the number of scenes created before it. */
  datatype Handle = Handle(serial: nat, name: SceneName, params: Nullable<ValueMap>)

  /** A call into a collaborator that the model does not contain. */
  datatype Effect =
    | SetNotificationNode                 // CCDirector::setNotificationNode(CCNode::create())
    | AddPlanObserver                     // observer for the "PlanSceneSwitch" notification
    | Stop(h: Handle)                     // Scene::stop()
    | CreateScene(name: SceneName, params: Nullable<ValueMap>, made: Handle)
    | RunWithScene(h: Handle)             // CCDirector::runWithScene
    | ReplaceRunningScene(h: Handle)      // CCDirector::replaceScene
    | SceneSwitched(name: SceneName)      // the "SceneSwitched" notification

  /** The coordinator's fields. `created` counts the scenes created so far. */
  datatype State = State(
    currentScene: Nullable<Handle>,
    currentSceneName: SceneName,
    nextScene: SceneName,
    nextSceneParam: Nullable<ValueMap>,
    queuedScene: SceneName,
    queuedParam: Nullable<ValueMap>,
    processingSwitch: bool,
    frameDelay: bool,
    isEventFired: bool,
    sceneSwitchCancelled: bool,
    created: nat)

  /** A new state and the collaborator calls made on the way, in order. */
  datatype Outcome = Outcome(state: State, effects: seq<Effect>)

  /** The invariant every operation keeps: the timed delay is never armed, a scene
      object exists exactly when a scene name is current and was made for it earlier,
      and a pending or queued scene always has a parameter dictionary. */
  predicate Inv(s: State) {
    && !s.isEventFired
    && (s.currentScene.Some? <==> s.currentSceneName != None)
    && (s.currentScene.Some? ==>
          s.currentScene.value.name == s.currentSceneName && s.currentScene.value.serial < s.created)
    && (s.nextScene != None ==> s.nextSceneParam.Some?)
    && (s.queuedScene != None ==> s.queuedParam.Some?)
  }

  /** Nothing pending and no switch being processed: a request is adopted. */
  predicate Idle(s: State) {
    !s.processingSwitch && s.nextScene == None
  }

  /** The scene an effect creates, if any. */
  function CreatedBy(e: Effect): seq<SceneName> {
    if e.CreateScene? then [e.name] else []
  }

  /** The scenes created in a list of effects, in order: the same definition as in
      `Switcher`, over the older version's `Effect` type, as are `Announced` and the
      two append lemmas. */
  function Commits(effects: seq<Effect>): (names: seq<SceneName>)
    ensures |names| <= |effects|
  {
    if effects == [] then [] else CreatedBy(effects[0]) + Commits(effects[1..])
  }

  /** The scene an effect announces as switched to, if any. */
  function AnnouncedBy(e: Effect): seq<SceneName> {
    if e.SceneSwitched? then [e.name] else []
  }

  /** The scenes announced by "SceneSwitched" notifications in a list of effects, in order. */
  function Announced(effects: seq<Effect>): (names: seq<SceneName>)
    ensures |names| <= |effects|
  {
    if effects == [] then [] else AnnouncedBy(effects[0]) + Announced(effects[1..])
  }

  lemma {:induction false} AnnouncedAppend(a: seq<Effect>, b: seq<Effect>)
    ensures Announced(a + b) == Announced(a) + Announced(b)
  {
    if a == [] {
      assert a + b == b;
    } else {
      assert (a + b)[0] == a[0] && (a + b)[1..] == a[1..] + b;
      AnnouncedAppend(a[1..], b);
      calc {
        Announced(a + b);
        AnnouncedBy(a[0]) + Announced(a[1..] + b);
        AnnouncedBy(a[0]) + (Announced(a[1..]) + Announced(b));
        (AnnouncedBy(a[0]) + Announced(a[1..])) + Announced(b);
      }
    }
  }

  lemma {:induction false} CommitsAppend(a: seq<Effect>, b: seq<Effect>)
    ensures Commits(a + b) == Commits(a) + Commits(b)
  {
    if a == [] {
      assert a + b == b;
    } else {
      assert (a + b)[0] == a[0] && (a + b)[1..] == a[1..] + b;
      CommitsAppend(a[1..], b);
      calc {
        Commits(a + b);
        CreatedBy(a[0]) + Commits(a[1..] + b);
        CreatedBy(a[0]) + (Commits(a[1..]) + Commits(b));
        (CreatedBy(a[0]) + Commits(a[1..])) + Commits(b);
      }
    }
  }

  /** The collaborator calls `init` makes. */
  const INIT_EFFECTS: seq<Effect> := [SetNotificationNode, AddPlanObserver]

  /** The state `init` leaves. The fields `init` does not set are taken to start as
      None, NULL or false. */
  function Initial(): (s: State)
    ensures Inv(s) && Idle(s)
    ensures s.currentSceneName == None && s.currentScene == Null && s.queuedScene == None
    ensures s.nextSceneParam == Null && !s.sceneSwitchCancelled
  {
    State(Null, None, None, Null, None, Null, false, false, false, false, 0)
  }

  /** takeQueuedScene: the queued request replaces the target, unless it names the
      target already, in which case nothing is left pending. The target's parameters
      are replaced only by a queued dictionary that is not NULL. The queue is emptied
      either way. */
  function TakeQueued(s: State): (r: State)
    ensures r.queuedScene == None && r.queuedParam == Null
    ensures s.queuedScene != s.nextScene ==>
              && r.nextScene == s.queuedScene && !r.frameDelay
              && r.nextSceneParam == (if s.queuedParam.Some? then s.queuedParam else s.nextSceneParam)
    ensures s.queuedScene == s.nextScene ==>
              r.nextScene == None && r.frameDelay == s.frameDelay && r.nextSceneParam == s.nextSceneParam
    ensures r.currentScene == s.currentScene && r.currentSceneName == s.currentSceneName && r.created == s.created
    ensures r.processingSwitch == s.processingSwitch && r.isEventFired == s.isEventFired
    ensures r.sceneSwitchCancelled == s.sceneSwitchCancelled
  {
    var adopt := s.nextScene != s.queuedScene;
    s.(nextScene := if adopt then s.queuedScene else None,
       frameDelay := if adopt then false else s.frameDelay,
       nextSceneParam := if adopt && s.queuedParam.Some? then s.queuedParam else s.nextSceneParam,
       queuedScene := None,
       queuedParam := Null)
  }

  /** planSceneSwitch: when idle, the request becomes the target, held one tick, with a
      copy of the notification's dictionary as parameters, and processing starts;
      otherwise the request only overwrites the queued slot. */
  function Plan(s: State, req: Request): (r: State)
    ensures Idle(s) ==>
              r == s.(nextScene := req.scene, nextSceneParam := Some(req.infos), frameDelay := false,
                      processingSwitch := true, isEventFired := false)
    ensures !Idle(s) ==> r == s.(queuedScene := req.scene, queuedParam := Some(req.infos))
    ensures Inv(s) ==> Inv(r)
  {
    if !s.processingSwitch && s.nextScene == None then
      s.(nextScene := req.scene, frameDelay := false, nextSceneParam := Some(req.infos),
         processingSwitch := true, isEventFired := false)
    else
      s.(queuedScene := req.scene, queuedParam := Some(req.infos))
  }

  /** cancelSceneSwitch: only raises the flag. */
  function Cancel(s: State): (r: State)
    ensures r.sceneSwitchCancelled && r.(sceneSwitchCancelled := s.sceneSwitchCancelled) == s
  {
    s.(sceneSwitchCancelled := true)
  }

  /** The first step of replaceScene: a cancelled target is dropped in favour of the
      queued request, and the flag is cleared. */
  function ResolveCancel(s: State): (r: State)
    ensures !r.sceneSwitchCancelled
    ensures !s.sceneSwitchCancelled ==> r == s
    ensures s.sceneSwitchCancelled ==> r == TakeQueued(s).(sceneSwitchCancelled := false)
  {
    if s.sceneSwitchCancelled then TakeQueued(s).(sceneSwitchCancelled := false) else s
  }

  /** The commit test of replaceScene: the target is a scene and not the current one.
      It implies the source's assertion that a commit never targets None. */
  predicate CommitGuard(s: State) {
    s.currentSceneName != s.nextScene && s.nextScene != None
  }

  /** The outgoing scene is stopped, and a scene object left over while no name is
      current is stopped too. */
  function Teardown(s: State): seq<Effect>
    requires s.currentSceneName != None ==> s.currentScene.Some?
  {
    if s.currentSceneName != None then [Stop(s.currentScene.value)]
    else if s.currentScene.Some? then [Stop(s.currentScene.value)]
    else []
  }

  /** The state after the teardown: a current scene is released. */
  function AfterTeardown(s: State): (r: State)
    ensures r.currentScene == (if s.currentSceneName != None then Null else s.currentScene)
    ensures r.(currentScene := s.currentScene) == s
  {
    if s.currentSceneName != None then s.(currentScene := Null) else s
  }

  /** The scene object createScene makes for the target. */
  function NewHandle(s: State): Handle {
    Handle(s.created, s.nextScene, s.nextSceneParam)
  }

  /** The state once the new scene is created and installed: it is the current scene,
      under the target's name, and the target's dictionary pointer is cleared. */
  function Installed(s: State): (r: State)
    ensures r.currentScene == Some(NewHandle(s)) && r.currentSceneName == s.nextScene
    ensures r.created == s.created + 1 && r.nextSceneParam == Null
    ensures r.(currentScene := s.currentScene, currentSceneName := s.currentSceneName,
               created := s.created, nextSceneParam := s.nextSceneParam) == s
  {
    s.(currentScene := Some(NewHandle(s)), created := s.created + 1,
       nextSceneParam := Null, currentSceneName := s.nextScene)
  }

  /** Installing a scene: run when nothing is running yet, replace otherwise. */
  function Install(h: Handle, engineRunning: bool): Effect {
    if engineRunning then ReplaceRunningScene(h) else RunWithScene(h)
  }

  /** The calls of a commit: teardown, creation and installation of the new scene, and
      the "SceneSwitched" notification, which names the target. */
  function CommitCalls(s: State, engineRunning: bool): seq<Effect>
    requires s.currentSceneName != None ==> s.currentScene.Some?
  {
    var h := NewHandle(s);
    Teardown(s) + [CreateScene(s.nextScene, s.nextSceneParam, h), Install(h, engineRunning)]
    + [SceneSwitched(s.nextScene)]
  }

  /** The commit branch of replaceScene: the target becomes current through a fresh
      scene object, its parameters are released, and the queue is drained. */
  function Commit(s: State, engineRunning: bool): (r: Outcome)
    requires s.currentSceneName != None ==> s.currentScene.Some?
    ensures r.state.currentSceneName == s.nextScene && r.state.created == s.created + 1
    ensures r.state.currentScene == Some(Handle(s.created, s.nextScene, s.nextSceneParam))
    ensures r.state.nextScene == (if s.queuedScene != s.nextScene then s.queuedScene else None)
    ensures r.state.queuedScene == None && r.state.sceneSwitchCancelled == s.sceneSwitchCancelled
  {
    Outcome(TakeQueued(Installed(AfterTeardown(s))), CommitCalls(s, engineRunning))
  }

  /** replaceScene. It keeps the invariant and always ends with the delay flag and the
      cancellation cleared. */
  function Replace(s: State, engineRunning: bool): (r: Outcome)
    requires Inv(s)
    ensures Inv(r.state) && !r.state.isEventFired && !r.state.sceneSwitchCancelled
  {
    var c := ResolveCancel(s);
    var o := if CommitGuard(c) then Commit(c, engineRunning) else Outcome(c, []);
    Outcome(o.state.(isEventFired := false), o.effects)
  }

  /** The branches of trySceneSwitch before processing ends, without the delayed
      branch (Inv rules out isEventFired). */
  function Advance(s: State, engineRunning: bool): (r: Outcome)
    requires Inv(s)
    ensures Inv(r.state)
  {
    if s.nextScene != None && s.nextScene != s.currentSceneName then
      if !s.frameDelay then Outcome(s.(frameDelay := true), [])
      else Replace(s, engineRunning)
    else Outcome(TakeQueued(s), [])
  }

  /** trySceneSwitch: it keeps the invariant and ends with processing over. */
  function Try(s: State, engineRunning: bool): (r: Outcome)
    requires Inv(s)
    ensures Inv(r.state) && !r.state.processingSwitch
  {
    var o := Advance(s, engineRunning);
    Outcome(o.state.(processingSwitch := false), o.effects)
  }

  /** The target parameters initWithScene installs: an empty dictionary for NULL. */
  function BootParams(param: Nullable<ValueMap>): (p: Nullable<ValueMap>)
    ensures p.Some? && (param.Some? ==> p == param)
    ensures param == Null ==> p == Some(map[])
  {
    if param == Null then Some(map[]) else param
  }

  /** initWithScene: the bootstrap path, under the source's assertions that no scene
      exists yet and that the target is a scene. */
  function Bootstrap(s: State, nextSceneType: SceneName, param: Nullable<ValueMap>, engineRunning: bool): (r: Outcome)
    requires Inv(s) && s.currentSceneName == None && nextSceneType != None
    ensures Inv(r.state) && !r.state.processingSwitch
  {
    Try(s.(nextScene := nextSceneType, frameDelay := true, nextSceneParam := BootParams(param),
           processingSwitch := true),
        engineRunning)
  }

  /** One thing that can happen to the coordinator: a "PlanSceneSwitch" notification,
      a scheduler tick, or cancelSceneSwitch. */
  datatype Op =
    | PlanOp(req: Request)
    | TickOp(engineRunning: bool)
    | CancelOp

  function Apply(s: State, op: Op): (r: Outcome)
    requires Inv(s)
    ensures Inv(r.state)
  {
    match op
    case PlanOp(req) => Outcome(Plan(s, req), [])
    case TickOp(running) => Try(s, running)
    case CancelOp => Outcome(Cancel(s), [])
  }

  /** A run of operations from `s`: the final state and all effects, in order. */
  function Run(s: State, ops: seq<Op>): (r: Outcome)
    requires Inv(s)
    ensures Inv(r.state)
    decreases |ops|
  {
    if ops == [] then Outcome(s, [])
    else
      var first := Apply(s, ops[0]);
      var rest := Run(first.state, ops[1..]);
      Outcome(rest.state, first.effects + rest.effects)
  }

  /** The coordinator object, with the C++ fields; `created` stands for the identity
      of the scene objects it creates, and `effects` logs the calls into collaborators. */
  class SceneSwitcher {
    var currentScene: Nullable<Handle>
    var currentSceneName: SceneName
    var nextScene: SceneName
    var nextSceneParam: Nullable<ValueMap>
    var queuedScene: SceneName
    var queuedParam: Nullable<ValueMap>
    var processingSwitch: bool
    var frameDelay: bool
    var isEventFired: bool
    var sceneSwitchCancelled: bool
    var created: nat
    ghost var effects: seq<Effect>

    ghost function Model(): State
      reads this
    {
      State(currentScene, currentSceneName, nextScene, nextSceneParam, queuedScene, queuedParam,
            processingSwitch, frameDelay, isEventFired, sceneSwitchCancelled, created)
    }

    ghost predicate Valid()
      reads this
    {
      Inv(Model())
    }

    /** init */
    constructor Init()
      ensures Valid() && Model() == Initial() && effects == INIT_EFFECTS
    {
      currentScene := Null;
      sceneSwitchCancelled := false;
      currentSceneName := None;
      nextSceneParam := Null;
      isEventFired := false;
      // not set by init in the source
      nextScene := None;
      queuedScene := None;
      queuedParam := Null;
      processingSwitch := false;
      frameDelay := false;
      created := 0;
      effects := INIT_EFFECTS;
    }

    method InitWithScene(nextSceneType: SceneName, param: Nullable<ValueMap>, engineRunning: bool)
      requires Valid() && currentSceneName == None && nextSceneType != None
      modifies this
      ensures Valid()
      ensures Model() == Bootstrap(old(Model()), nextSceneType, param, engineRunning).state
      ensures effects == old(effects) + Bootstrap(old(Model()), nextSceneType, param, engineRunning).effects
    {
      nextScene := nextSceneType;
      frameDelay := true;
      if param == Null {
        nextSceneParam := Some(map[]);
      } else {
        nextSceneParam := param;
      }
      processingSwitch := true;
      TrySceneSwitch(engineRunning);
    }

    method TrySceneSwitch(engineRunning: bool)
      requires Valid()
      modifies this
      ensures Valid()
      ensures Model() == Try(old(Model()), engineRunning).state
      ensures effects == old(effects) + Try(old(Model()), engineRunning).effects
    {
      AdvanceScene(engineRunning);
      processingSwitch := false;
    }

    /** The branches of trySceneSwitch (lines 84-128 of the source); the delayed
        branch needs isEventFired, which Valid() rules out. */
    method AdvanceScene(engineRunning: bool)
      requires Valid()
      modifies this
      ensures Valid()
      ensures Model() == Advance(old(Model()), engineRunning).state
      ensures effects == old(effects) + Advance(old(Model()), engineRunning).effects
    {
      if nextScene != None && nextScene != currentSceneName {
        if !frameDelay {
          frameDelay := true;
        } else {
          ReplaceScene(engineRunning);
        }
      } else {
        TakeQueuedScene();
      }
    }

    method TakeQueuedScene()
      modifies this
      ensures Model() == TakeQueued(old(Model())) && effects == old(effects)
    {
      if nextScene != queuedScene {
        nextScene := queuedScene;
        frameDelay := false;
        if queuedParam != Null {
          nextSceneParam := queuedParam;
        }
      } else {
        nextScene := None;
      }
      queuedScene := None;
      queuedParam := Null;
    }

    method PlanSceneSwitch(req: Request)
      requires Valid()
      modifies this
      ensures Valid() && Model() == Plan(old(Model()), req) && effects == old(effects)
    {
      if !processingSwitch && nextScene == None {
        nextScene := req.scene;
        frameDelay := false;
        nextSceneParam := Some(req.infos);
        processingSwitch := true;
        isEventFired := false;
      } else {
        queuedScene := req.scene;
        queuedParam := Some(req.infos);
      }
    }

    method CancelSceneSwitch()
      requires Valid()
      modifies this
      ensures Valid() && Model() == Cancel(old(Model())) && effects == old(effects)
    {
      sceneSwitchCancelled := true;
    }

    method ReplaceScene(engineRunning: bool)
      requires Valid()
      modifies this
      ensures Valid()
      ensures Model() == Replace(old(Model()), engineRunning).state
      ensures effects == old(effects) + Replace(old(Model()), engineRunning).effects
    {
      ghost var s := Model();
      if sceneSwitchCancelled {
        TakeQueuedScene();
        sceneSwitchCancelled := false;
      }
      assert Model() == ResolveCancel(s);
      if currentSceneName != nextScene && nextScene != None {
        CommitScene(engineRunning);
      }
      isEventFired := false;
    }

    /** The commit branch of replaceScene (lines 214-242 of the source). */
    method CommitScene(engineRunning: bool)
      requires currentSceneName != None ==> currentScene.Some?
      modifies this
      ensures Model() == Commit(old(Model()), engineRunning).state
      ensures effects == old(effects) + Commit(old(Model()), engineRunning).effects
    {
      ReleaseCurrentScene();
      InstallScene(engineRunning);
      TakeQueuedScene();
      effects := effects + [SceneSwitched(currentSceneName)];
    }

    /** The teardown of the outgoing scene (lines 214-224 of the source). */
    method ReleaseCurrentScene()
      requires currentSceneName != None ==> currentScene.Some?
      modifies this
      ensures Model() == AfterTeardown(old(Model()))
      ensures effects == old(effects) + Teardown(old(Model()))
    {
      if currentSceneName != None {
        effects := effects + [Stop(currentScene.value)];
        currentScene := Null;
      }
      if currentScene.Some? {
        effects := effects + [Stop(currentScene.value)];
      }
    }

    /** The creation and installation of the new scene (lines 226-240 of the source). */
    method InstallScene(engineRunning: bool)
      modifies this
      ensures Model() == Installed(old(Model()))
      ensures effects == old(effects) + [CreateScene(old(nextScene), old(nextSceneParam), NewHandle(old(Model()))),
                                         Install(NewHandle(old(Model())), engineRunning)]
    {
      var h := Handle(created, nextScene, nextSceneParam);
      // createScene, then runWithScene or replaceScene on the director
      effects := effects + [CreateScene(nextScene, nextSceneParam, h), Install(h, engineRunning)];
      currentScene := Some(h);
      created := created + 1;
      nextSceneParam := Null;
      currentSceneName := nextScene;
    }
  }
}
