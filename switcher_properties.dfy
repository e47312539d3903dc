/** What the current coordinator guarantees, proved about the functions of `Switcher`:
    what a commit does, what one tick can do, the frame delay, the latest request
    winning, cancellation, the one-shot reload, and runs of operations. */
module SwitcherProperties {
  import opened Scenes
  import opened Switcher

  /** The scene the queue hands over when the target `next` is done with. */
  function AfterQueue(next: SceneName, queued: SceneName): SceneName {
    if queued != next then queued else None
  }

  /** The scenes created and announced by three consecutive calls. */
  lemma CommitsOfThree(a: Effect, b: Effect, c: Effect)
    ensures Commits([a, b, c]) == CreatedBy(a) + CreatedBy(b) + CreatedBy(c)
    ensures Announced([a, b, c]) == AnnouncedBy(a) + AnnouncedBy(b) + AnnouncedBy(c)
  {
    assert [a, b, c][1..] == [b, c] && [b, c][1..] == [c] && [c][1..] == [];
    CreatedOfThree(a, b, c);
    AnnouncedOfThree(a, b, c);
  }

  lemma CreatedOfThree(a: Effect, b: Effect, c: Effect)
    requires [a, b, c][1..] == [b, c] && [b, c][1..] == [c] && [c][1..] == []
    ensures Commits([a, b, c]) == CreatedBy(a) + CreatedBy(b) + CreatedBy(c)
  {
    assert Commits([c]) == CreatedBy(c) + Commits([]);
    assert Commits([b, c]) == CreatedBy(b) + Commits([c]);
  }

  lemma AnnouncedOfThree(a: Effect, b: Effect, c: Effect)
    requires [a, b, c][1..] == [b, c] && [b, c][1..] == [c] && [c][1..] == []
    ensures Announced([a, b, c]) == AnnouncedBy(a) + AnnouncedBy(b) + AnnouncedBy(c)
  {
    assert Announced([c]) == AnnouncedBy(c) + Announced([]);
    assert Announced([b, c]) == AnnouncedBy(b) + Announced([c]);
  }

  /** Calls that are neither a creation nor a "SceneSwitched" event. */
  predicate Quiet(effects: seq<Effect>) {
    forall i :: 0 <= i < |effects| ==> !effects[i].CreateScene? && !effects[i].SceneSwitched?
  }

  /** Quiet calls create and announce nothing. */
  lemma {:induction false} QuietEffects(effects: seq<Effect>)
    requires Quiet(effects)
    ensures Commits(effects) == [] && Announced(effects) == []
    decreases |effects|
  {
    if effects != [] {
      QuietEffects(effects[1..]);
    }
  }

  /** The teardown of the outgoing scene neither creates nor announces a scene. */
  lemma TeardownIsQuiet(s: State)
    requires s.currentSceneName != None ==> s.currentScene.Some?
    ensures Commits(Teardown(s) + Restop(s)) == [] && Announced(Teardown(s) + Restop(s)) == []
  {
    QuietEffects(Teardown(s) + Restop(s));
  }

  /** A commit creates exactly the target, and announces exactly the target. */
  lemma CommitFacts(s: State, engineRunning: bool)
    requires s.currentSceneName != None ==> s.currentScene.Some?
    ensures var r := Commit(s, engineRunning);
            Commits(r.effects) == [s.nextScene] && Announced(r.effects) == [s.nextScene]
  {
    CallsFacts(s, engineRunning);
  }

  lemma CallsFacts(s: State, engineRunning: bool)
    requires s.currentSceneName != None ==> s.currentScene.Some?
    ensures Commits(CommitCalls(s, engineRunning)) == [s.nextScene]
    ensures Announced(CommitCalls(s, engineRunning)) == [s.nextScene]
  {
    var h := NewHandle(s);
    var tail := [CreateScene(s.nextScene, s.nextSceneParam, h), Install(h, engineRunning),
                 SceneSwitched(s.nextScene)];
    assert CommitCalls(s, engineRunning) == (Teardown(s) + Restop(s)) + tail;
    TeardownIsQuiet(s);
    CommitsOfThree(tail[0], tail[1], tail[2]);
    CallsSplit(Teardown(s) + Restop(s), tail);
  }

  /** Creations and announcements of calls that begin with quiet ones. */
  lemma CallsSplit(a: seq<Effect>, b: seq<Effect>)
    requires Commits(a) == [] && Announced(a) == []
    ensures Commits(a + b) == Commits(b) && Announced(a + b) == Announced(b)
  {
    CommitsAppend(a, b);
    AnnouncedAppend(a, b);
  }

  /** An outgoing scene is put in the release pool and stopped before any other call
      of the commit. */
  lemma CommitTearsDownFirst(s: State, engineRunning: bool)
    requires s.currentSceneName != None && s.currentScene.Some?
    ensures var r := Commit(s, engineRunning);
            |r.effects| > 2 && r.effects[0] == AddToReleasePool(s.currentScene.value)
            && r.effects[1] == Stop(s.currentScene.value)
  {
    var r := Commit(s, engineRunning);
    assert r.effects == Teardown(s) + (Restop(s) + r.effects[|Teardown(s) + Restop(s)|..]);
  }

  /** replaceScene commits exactly when the corrected commit test holds after a pending
      cancellation is resolved; otherwise it makes no calls and only clears the flags. */
  lemma ReplaceFacts(s: State, engineRunning: bool)
    requires Inv(s)
    ensures var c := ResolveCancel(s); var r := Replace(s, engineRunning);
            && (CommitGuard(c) ==>
                  && Commits(r.effects) == [c.nextScene] && Announced(r.effects) == [c.nextScene]
                  && r.state.currentSceneName == c.nextScene && r.state.created == s.created + 1
                  && r.state.nextScene == AfterQueue(c.nextScene, c.queuedScene)
                  && r.state.queuedScene == None && !r.state.sceneSwitchCancelled)
            && (!CommitGuard(c) ==>
                  r.effects == [] && r.state == c.(isEventFired := false, reloadAllowed := false))
  {
    var c := ResolveCancel(s);
    if CommitGuard(c) {
      CommitFacts(c, engineRunning);
    }
  }

  /** The branches of a tick create at most one scene, announce exactly the scenes they
      create, and change the current scene only by such a creation. */
  lemma AdvanceFacts(s: State, engineRunning: bool)
    requires Inv(s)
    ensures var r := Advance(s, engineRunning);
            && |Commits(r.effects)| <= 1
            && Commits(r.effects) == Announced(r.effects)
            && (Commits(r.effects) == [] ==>
                  && r.state.currentScene == s.currentScene && r.state.currentSceneName == s.currentSceneName
                  && r.state.created == s.created)
            && (Commits(r.effects) != [] ==>
                  && Commits(r.effects) == [r.state.currentSceneName] && r.state.currentSceneName != None
                  && r.state.created == s.created + 1)
  {
    if s.nextScene != None && (s.nextScene != s.currentSceneName || s.reloadAllowed) && s.frameDelay {
      ReplaceFacts(s, engineRunning);
    }
  }

  /** One tick creates at most one scene, announces exactly the scenes it creates, and
      changes the current scene only by such a creation, which never targets None. */
  lemma TryFacts(s: State, engineRunning: bool)
    requires Inv(s)
    ensures var r := Try(s, engineRunning);
            && |Commits(r.effects)| <= 1
            && Commits(r.effects) == Announced(r.effects)
            && (Commits(r.effects) == [] ==>
                  && r.state.currentScene == s.currentScene && r.state.currentSceneName == s.currentSceneName
                  && r.state.created == s.created)
            && (Commits(r.effects) != [] ==>
                  && Commits(r.effects) == [r.state.currentSceneName] && r.state.currentSceneName != None
                  && r.state.created == s.created + 1)
  {
    var a := Advance(s, engineRunning);
    AdvanceFacts(s, engineRunning);
    var released := if a.state.keyboardLock >= 0 then [ReleaseAllKeyboardLocks] else [];
    assert Commits(released) == [] && Announced(released) == [] by {
      if released != [] {
        assert released[1..] == [];
      }
    }
    CommitsAppend(a.effects, released);
    AnnouncedAppend(a.effects, released);
  }

  /** The first tick after a request is adopted, a reload target included, only arms
      the frame delay and ends processing (releasing a held keyboard lock): nothing is
      created, and the target stays pending, although isSwitching() is already false. */
  lemma TickArmsDelay(s: State, engineRunning: bool)
    requires Inv(s) && s.nextScene != None && (s.nextScene != s.currentSceneName || s.reloadAllowed)
    requires !s.frameDelay
    ensures Try(s, engineRunning) == EndTick(Outcome(s.(frameDelay := true), []))
    ensures var r := Try(s, engineRunning);
            && r.state.nextScene == s.nextScene && r.state.frameDelay
            && r.state.currentSceneName == s.currentSceneName && r.state.queuedScene == s.queuedScene
            && r.state.sceneSwitchCancelled == s.sceneSwitchCancelled
            && r.state.reloadAllowed == s.reloadAllowed
            && Commits(r.effects) == [] && !r.state.IsSwitching()
  {
    TryFacts(s, engineRunning);
  }

  /** The tick after that commits the target, then hands over to the queued request
      with the frame delay off again. */
  lemma TickCommits(s: State, engineRunning: bool)
    requires Inv(s) && s.nextScene != None && s.nextScene != s.currentSceneName && s.frameDelay
    requires !s.sceneSwitchCancelled
    ensures var r := Try(s, engineRunning);
            && Commits(r.effects) == [s.nextScene]
            && r.state.currentSceneName == s.nextScene
            && r.state.nextScene == AfterQueue(s.nextScene, s.queuedScene)
            && (r.state.nextScene != None ==> !r.state.frameDelay)
            && r.state.queuedScene == None
            && !r.state.reloadAllowed && !r.state.sceneSwitchCancelled
  {
    ReplaceFacts(s, engineRunning);
    TryFacts(s, engineRunning);
  }

  /** A target that is None, or names the current scene without the reload override,
      is never built: the tick only drains the queue into the target and ends
      processing, so the only possible call is the release of a held keyboard lock. */
  lemma SameSceneIsSkipped(s: State, engineRunning: bool)
    requires Inv(s) && (s.nextScene == None || (s.nextScene == s.currentSceneName && !s.reloadAllowed))
    ensures Try(s, engineRunning) == EndTick(Outcome(TakeQueued(s), []))
    ensures var r := Try(s, engineRunning);
            && Commits(r.effects) == []
            && r.state.currentScene == s.currentScene
            && r.state.nextScene == AfterQueue(s.nextScene, s.queuedScene)
            && r.state.queuedScene == None
  {
    TryFacts(s, engineRunning);
  }

  /** With the reload override, a target naming the current scene is rebuilt once:
      a new scene object is created for it and the override is used up. */
  lemma ReloadRebuildsOnce(s: State, engineRunning: bool)
    requires Inv(s) && s.nextScene != None && s.nextScene == s.currentSceneName
    requires s.reloadAllowed && s.frameDelay && !s.sceneSwitchCancelled
    ensures var r := Try(s, engineRunning);
            && Commits(r.effects) == [s.nextScene]
            && r.state.currentSceneName == s.currentSceneName
            && r.state.currentScene != s.currentScene
            && !r.state.reloadAllowed
  {
    ReplaceFacts(s, engineRunning);
    CommitFacts(ResolveCancel(s), engineRunning);
    TryFacts(s, engineRunning);
  }

  /** A cancelled target with nothing queued is dropped: nothing is created and
      nothing is left pending. */
  lemma CancelDropsTarget(s: State, engineRunning: bool)
    requires Inv(s) && s.nextScene != None && (s.nextScene != s.currentSceneName || s.reloadAllowed)
    requires s.frameDelay && s.sceneSwitchCancelled && s.queuedScene == None
    ensures var r := Try(s, engineRunning);
            && Commits(r.effects) == []
            && r.state.currentScene == s.currentScene && r.state.currentSceneName == s.currentSceneName
            && r.state.nextScene == None && !r.state.sceneSwitchCancelled
  {
    ReplaceFacts(s, engineRunning);
    TryFacts(s, engineRunning);
  }

  /** A cancelled target with a different request queued is replaced by that request,
      which is committed in the same replaceScene call. */
  lemma CancelCommitsQueued(s: State, engineRunning: bool)
    requires Inv(s) && s.nextScene != None && (s.nextScene != s.currentSceneName || s.reloadAllowed)
    requires s.frameDelay && s.sceneSwitchCancelled
    requires s.queuedScene != None && s.queuedScene != s.nextScene && s.queuedScene != s.currentSceneName
    ensures var r := Try(s, engineRunning);
            && Commits(r.effects) == [s.queuedScene]
            && r.state.currentSceneName == s.queuedScene
            && r.state.nextScene == None && r.state.queuedScene == None
  {
    ReplaceFacts(s, engineRunning);
    TryFacts(s, engineRunning);
  }

  /** initWithScene commits its scene within the call when no cancellation is pending. */
  lemma BootstrapCommits(s: State, nextSceneType: SceneName, param: ValueMap, engineRunning: bool)
    requires Inv(s) && s.currentSceneName == None && nextSceneType != None && !s.sceneSwitchCancelled
    ensures var r := Bootstrap(s, nextSceneType, param, engineRunning);
            && Commits(r.effects) == [nextSceneType]
            && r.state.currentSceneName == nextSceneType
            && r.state.currentScene.Some? && r.state.currentScene.value.params == param
  {
    var b := s.(nextScene := nextSceneType, frameDelay := true, nextSceneParam := param, processingSwitch := true);
    CommitFacts(b, engineRunning);
    TickCommits(b, engineRunning);
  }

  /** While a switch is under way, requests only overwrite the queued slot: after any
      number of them the slot holds the last one, and nothing else has happened. */
  lemma {:induction false} LatestRequestWins(s: State, reqs: seq<Request>, lockToken: int)
    requires Inv(s) && !Idle(s) && reqs != []
    ensures Run(s, PlanAll(reqs, lockToken)) ==
            Outcome(s.(queuedScene := reqs[|reqs| - 1].scene, queuedParam := reqs[|reqs| - 1].infos), [])
    decreases |reqs|
  {
    var ops := PlanAll(reqs, lockToken);
    var first := Apply(s, ops[0]);
    assert first == Outcome(s.(queuedScene := reqs[0].scene, queuedParam := reqs[0].infos), []);
    assert ops[1..] == PlanAll(reqs[1..], lockToken);
    if |reqs| > 1 {
      LatestRequestWins(first.state, reqs[1..], lockToken);
    }
  }

  /** The requests `reqs` as "PlanSceneSwitch" events. */
  function PlanAll(reqs: seq<Request>, lockToken: int): (ops: seq<Op>)
    ensures |ops| == |reqs|
    ensures forall i :: 0 <= i < |reqs| ==> ops[i] == PlanOp(reqs[i], lockToken)
  {
    if reqs == [] then [] else [PlanOp(reqs[0], lockToken)] + PlanAll(reqs[1..], lockToken)
  }

  /** One step, then the rest of the run. */
  lemma RunCons(s: State, op: Op, rest: seq<Op>)
    requires Inv(s)
    ensures var first := Apply(s, op); var tail := Run(first.state, rest);
            Run(s, [op] + rest) == Outcome(tail.state, first.effects + tail.effects)
  {
    assert ([op] + rest)[0] == op && ([op] + rest)[1..] == rest;
  }

  /** Every operation creates at most one scene, announces exactly the scenes it
      creates, and changes the current scene only by such a creation. */
  lemma ApplyFacts(s: State, op: Op)
    requires Inv(s)
    ensures var r := Apply(s, op);
            && |Commits(r.effects)| <= 1
            && Commits(r.effects) == Announced(r.effects)
            && (Commits(r.effects) == [] ==>
                  r.state.currentSceneName == s.currentSceneName && r.state.created == s.created)
            && (Commits(r.effects) != [] ==>
                  && Commits(r.effects) == [r.state.currentSceneName] && r.state.currentSceneName != None
                  && r.state.created == s.created + 1)
  {
    if op.TickOp? {
      TryFacts(s, op.engineRunning);
    }
  }

  /** Over any run, the scenes announced by "SceneSwitched" are exactly the scenes
      created, in the same order. */
  lemma {:induction false} RunAnnouncesCommits(s: State, ops: seq<Op>)
    requires Inv(s)
    ensures Commits(Run(s, ops).effects) == Announced(Run(s, ops).effects)
    decreases |ops|
  {
    if ops != [] {
      var first := Apply(s, ops[0]);
      var rest := Run(first.state, ops[1..]);
      RunAnnouncesCommits(first.state, ops[1..]);
      ApplyFacts(s, ops[0]);
      CommitsAppend(first.effects, rest.effects);
      AnnouncedAppend(first.effects, rest.effects);
    }
  }

  /** Over any run, no creation targets None, and the current scene at the end is the
      last one created (or the one at the start, when nothing was created). */
  lemma {:induction false} RunEndsOnLastCommit(s: State, ops: seq<Op>)
    requires Inv(s)
    ensures var c := Commits(Run(s, ops).effects);
            && None !in c
            && (c == [] ==> Run(s, ops).state.currentSceneName == s.currentSceneName)
            && (c != [] ==> Run(s, ops).state.currentSceneName == c[|c| - 1])
    decreases |ops|
  {
    if ops != [] {
      var first := Apply(s, ops[0]);
      var rest := Run(first.state, ops[1..]);
      RunEndsOnLastCommit(first.state, ops[1..]);
      ApplyFacts(s, ops[0]);
      CommitsAppend(first.effects, rest.effects);
    }
  }

  /** A target that changes the scene is committed by the second tick after it is
      adopted, and not by the first. */
  lemma TwoTicksCommit(s: State, engineRunning: bool)
    requires Inv(s) && s.nextScene != None && s.nextScene != s.currentSceneName && !s.frameDelay
    requires !s.sceneSwitchCancelled
    ensures Commits(Run(s, [TickOp(engineRunning)]).effects) == []
    ensures var r := Run(s, [TickOp(engineRunning), TickOp(engineRunning)]);
            && Commits(r.effects) == [s.nextScene]
            && r.state.currentSceneName == s.nextScene
            && r.state.nextScene == AfterQueue(s.nextScene, s.queuedScene)
            && (r.state.nextScene != None ==> !r.state.frameDelay)
            && r.state.queuedScene == None && !r.state.sceneSwitchCancelled
  {
    var t1 := Try(s, engineRunning);
    TickArmsDelay(s, engineRunning);
    TickCommits(t1.state, engineRunning);
    var t2 := Try(t1.state, engineRunning);
    RunCons(s, TickOp(engineRunning), []);
    RunCons(t1.state, TickOp(engineRunning), []);
    RunCons(s, TickOp(engineRunning), [TickOp(engineRunning)]);
    assert t1.effects + [] == t1.effects && t2.effects + [] == t2.effects;
    assert [TickOp(engineRunning)] + [TickOp(engineRunning)] == [TickOp(engineRunning), TickOp(engineRunning)];
    assert Run(s, [TickOp(engineRunning), TickOp(engineRunning)]).effects == t1.effects + t2.effects;
    CommitsAppend(t1.effects, t2.effects);
  }

  /** The state after requests `a`, then `b`, then `c` reach an idle coordinator. */
  function QueuedAfterThree(s: State, a: Request, c: Request, lockToken: int): State {
    s.(nextScene := a.scene, nextSceneParam := a.infos, frameDelay := false,
       processingSwitch := true, isEventFired := false, keyboardLock := lockToken,
       queuedScene := c.scene, queuedParam := c.infos)
  }

  /** Three requests in a row from an idle coordinator: the first is adopted as the
      target, the third overwrites the second in the queue, and nothing is created. */
  lemma ThreeRequestsQueueLast(s: State, a: Request, b: Request, c: Request, lockToken: int, rest: seq<Op>)
    requires Inv(s) && Idle(s)
    ensures var p := QueuedAfterThree(s, a, c, lockToken);
            var r := Run(p, rest);
            Run(s, [PlanOp(a, lockToken), PlanOp(b, lockToken), PlanOp(c, lockToken)] + rest)
              == Outcome(r.state, [UnbindAllImageAsync, PreventKeyboardOpen(lockToken)] + r.effects)
  {
    var p := QueuedAfterThree(s, a, c, lockToken);
    var ops := [PlanOp(a, lockToken), PlanOp(b, lockToken), PlanOp(c, lockToken)] + rest;
    var s1 := Plan(s, a, lockToken).state;
    var s2 := Plan(s1, b, lockToken).state;
    var s3 := Plan(s2, c, lockToken).state;
    assert Plan(s1, b, lockToken).effects == [] && Plan(s2, c, lockToken).effects == [];
    assert s3 == p by {
      assert s2 == s1.(queuedScene := b.scene, queuedParam := b.infos);
      assert s3 == s2.(queuedScene := c.scene, queuedParam := c.infos);
    }
    var r := Run(p, rest);
    assert ops[1..] == [PlanOp(b, lockToken), PlanOp(c, lockToken)] + rest;
    assert ops[1..][1..] == [PlanOp(c, lockToken)] + rest;
    RunCons(s2, ops[2], rest);
    assert Run(s2, ops[1..][1..]) == r by {
      assert [] + r.effects == r.effects;
    }
    RunCons(s1, ops[1], ops[1..][1..]);
    assert Run(s1, ops[1..]) == r;
    RunCons(s, ops[0], ops[1..]);
  }

  /** Three requests in a row from an idle coordinator, then two ticks, then two more:
      the first request is committed by the first pair of ticks, the third by the
      second pair, and the second, overwritten in the queue, is never created. */
  lemma ThreeRequestsCommitFirstAndLast(s: State, a: Request, b: Request, c: Request, lockToken: int,
                                        engineRunning: bool)
    requires Inv(s) && Idle(s) && !s.sceneSwitchCancelled
    requires a.scene != None && a.scene != s.currentSceneName
    requires c.scene != None && c.scene != a.scene
    ensures var tick := TickOp(engineRunning);
            var p := Run(s, [PlanOp(a, lockToken), PlanOp(b, lockToken), PlanOp(c, lockToken)]);
            var r1 := Run(p.state, [tick, tick]);
            var r2 := Run(r1.state, [tick, tick]);
            && Commits(p.effects) == []
            && Commits(r1.effects) == [a.scene] && r1.state.currentSceneName == a.scene
            && Commits(r2.effects) == [c.scene] && r2.state.currentSceneName == c.scene
            && r2.state.nextScene == None && r2.state.queuedScene == None
  {
    var tick := TickOp(engineRunning);
    var plans := [PlanOp(a, lockToken), PlanOp(b, lockToken), PlanOp(c, lockToken)];
    ThreeRequestsQueueLast(s, a, b, c, lockToken, []);
    assert plans + [] == plans;
    var q := QueuedAfterThree(s, a, c, lockToken);
    var p := Run(s, plans);
    assert p.state == q;
    assert Commits(p.effects) == [] by {
      assert p.effects == [UnbindAllImageAsync, PreventKeyboardOpen(lockToken)];
      assert p.effects[1..][1..] == [];
    }
    TwoTicksCommit(q, engineRunning);
    TwoTicksCommit(Run(q, [tick, tick]).state, engineRunning);
  }

  /** The path to the finding: allowReload, a request, a tick and a cancellation leave
      a pending target that the next tick hands to replaceScene with the reload
      override on, the cancellation raised and nothing queued. */
  lemma ReloadThenCancelReaches(s: State, req: Request, lockToken: int, engineRunning: bool)
    requires Inv(s) && Idle(s) && s.queuedScene == None && req.scene != None
    ensures var t := Run(s, [AllowReloadOp, PlanOp(req, lockToken), TickOp(engineRunning), CancelOp]).state;
            && t.nextScene == req.scene && t.frameDelay
            && t.reloadAllowed && t.sceneSwitchCancelled && t.queuedScene == None
  {
    var ops := [AllowReloadOp, PlanOp(req, lockToken), TickOp(engineRunning), CancelOp];
    var s1 := WithReload(s);
    var s2 := Plan(s1, req, lockToken).state;
    var s3 := Try(s2, engineRunning).state;
    RunCons(s, ops[0], ops[1..]);
    RunCons(s1, ops[1], ops[2..]);
    RunCons(s2, ops[2], ops[3..]);
    RunCons(s3, ops[3], []);
    assert ops[1..][1..] == ops[2..] && ops[2..][1..] == ops[3..] && ops[3..] == [CancelOp];
  }

  /** The finding, as written: from that state replaceScene's commit test passes with
      the target None, a scene is created for None, and the invariant is broken (a
      scene object exists while no scene name is current). The corrected test creates
      nothing. */
  lemma AsWrittenCommitsNone(s: State, engineRunning: bool)
    requires Inv(s) && s.nextScene != None && s.reloadAllowed && s.sceneSwitchCancelled
    requires s.queuedScene == None
    ensures CommitGuardAsWritten(ResolveCancel(s)) && ResolveCancel(s).nextScene == None
    ensures Commits(ReplaceAsWritten(s, engineRunning).effects) == [None]
    ensures !Inv(ReplaceAsWritten(s, engineRunning).state)
    ensures Replace(s, engineRunning).effects == []
  {
    CommitFacts(ResolveCancel(s), engineRunning);
  }

  /** With the corrected test replaceScene never creates a scene for None. */
  lemma ReplaceNeverCommitsNone(s: State, engineRunning: bool)
    requires Inv(s)
    ensures None !in Commits(Replace(s, engineRunning).effects)
  {
    ReplaceFacts(s, engineRunning);
  }
}
