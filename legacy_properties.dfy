/** What the older coordinator guarantees, proved about the functions of
    `LegacySwitcher`: what a commit and a tick do, that no scene is ever created for
    None, that the current scene is never rebuilt, the latest request winning, and the
    bootstrap with a NULL dictionary. */
module LegacyProperties {
  import opened Scenes
  import opened LegacySwitcher

  /** A commit creates exactly the target, and posts exactly one "SceneSwitched"
      notification, naming the target. */
  lemma CommitFacts(s: State, engineRunning: bool)
    requires s.currentSceneName != None ==> s.currentScene.Some?
    ensures Commits(Commit(s, engineRunning).effects) == [s.nextScene]
    ensures Announced(Commit(s, engineRunning).effects) == [s.nextScene]
  {
    var h := NewHandle(s);
    var tail := [CreateScene(s.nextScene, s.nextSceneParam, h), Install(h, engineRunning),
                 SceneSwitched(s.nextScene)];
    var t := Teardown(s);
    assert CommitCalls(s, engineRunning) == t + tail;
    assert Commits(t) == [] && Announced(t) == [] by {
      if t != [] {
        assert t[1..] == [];
      }
    }
    assert tail[1..] == [tail[1], tail[2]] && tail[1..][1..] == [tail[2]] && tail[1..][1..][1..] == [];
    assert Commits(tail) == [s.nextScene] by {
      assert Commits([tail[2]]) == CreatedBy(tail[2]) + Commits([]);
      assert Commits(tail[1..]) == CreatedBy(tail[1]) + Commits([tail[2]]);
    }
    assert Announced(tail) == [s.nextScene] by {
      assert Announced([tail[2]]) == AnnouncedBy(tail[2]) + Announced([]);
      assert Announced(tail[1..]) == AnnouncedBy(tail[1]) + Announced([tail[2]]);
    }
    CommitsAppend(t, tail);
    AnnouncedAppend(t, tail);
  }

  /** The outgoing scene is stopped first, before the new scene is created. */
  lemma CommitTearsDownFirst(s: State, engineRunning: bool)
    requires s.currentSceneName != None && s.currentScene.Some?
    ensures var r := Commit(s, engineRunning);
            |r.effects| > 1 && r.effects[0] == Stop(s.currentScene.value)
            && r.effects[1] == CreateScene(s.nextScene, s.nextSceneParam, NewHandle(s))
  {
    var r := Commit(s, engineRunning);
    assert r.effects == [Stop(s.currentScene.value)] + r.effects[1..];
  }

  /** The first tick on a target that would change the scene only arms the frame
      delay: nothing is called and nothing else changes but the end of processing. */
  lemma TickArmsDelay(s: State, engineRunning: bool)
    requires Inv(s) && s.nextScene != None && s.nextScene != s.currentSceneName && !s.frameDelay
    ensures Try(s, engineRunning) == Outcome(s.(frameDelay := true, processingSwitch := false), [])
  {
  }

  /** A target that is None or names the current scene is never built: the tick only
      drains the queue into the target, and calls nothing. */
  lemma SameSceneIsSkipped(s: State, engineRunning: bool)
    requires Inv(s) && (s.nextScene == None || s.nextScene == s.currentSceneName)
    ensures Try(s, engineRunning) == Outcome(TakeQueued(s).(processingSwitch := false), [])
  {
  }

  /** replaceScene commits exactly when the commit test holds after a pending
      cancellation is resolved, and then moves away from the current scene; otherwise
      it makes no calls. */
  lemma ReplaceFacts(s: State, engineRunning: bool)
    requires Inv(s)
    ensures var c := ResolveCancel(s); var r := Replace(s, engineRunning);
            && (CommitGuard(c) ==>
                  && Commits(r.effects) == [c.nextScene] && Announced(r.effects) == [c.nextScene]
                  && r.state.currentSceneName == c.nextScene && c.nextScene != s.currentSceneName
                  && r.state.created == s.created + 1)
            && (!CommitGuard(c) ==> r.effects == [] && r.state == c.(isEventFired := false))
  {
    var c := ResolveCancel(s);
    if CommitGuard(c) {
      CommitFacts(c, engineRunning);
    }
  }

  /** One tick creates at most one scene; a creation never targets None nor the scene
      that was current, and without one the current scene is unchanged. */
  lemma TryFacts(s: State, engineRunning: bool)
    requires Inv(s)
    ensures var r := Try(s, engineRunning);
            && |Commits(r.effects)| <= 1
            && (Commits(r.effects) == [] ==>
                  && r.state.currentScene == s.currentScene && r.state.currentSceneName == s.currentSceneName
                  && r.state.created == s.created)
            && (Commits(r.effects) != [] ==>
                  && Commits(r.effects) == [r.state.currentSceneName] && r.state.currentSceneName != None
                  && r.state.currentSceneName != s.currentSceneName && r.state.created == s.created + 1)
  {
    if s.nextScene != None && s.nextScene != s.currentSceneName && s.frameDelay {
      ReplaceFacts(s, engineRunning);
    }
  }

  /** Every operation creates at most one scene, never for None nor for the scene that
      was current. */
  lemma ApplyFacts(s: State, op: Op)
    requires Inv(s)
    ensures var r := Apply(s, op);
            && |Commits(r.effects)| <= 1
            && (Commits(r.effects) == [] ==>
                  r.state.currentSceneName == s.currentSceneName && r.state.created == s.created)
            && (Commits(r.effects) != [] ==>
                  && Commits(r.effects) == [r.state.currentSceneName] && r.state.currentSceneName != None
                  && r.state.currentSceneName != s.currentSceneName && r.state.created == s.created + 1)
  {
    if op.TickOp? {
      TryFacts(s, op.engineRunning);
    }
  }

  /** The scenes of `names` follow each other without a repetition, starting away
      from `start`. */
  predicate Alternates(start: SceneName, names: seq<SceneName>) {
    && (names != [] ==> names[0] != start)
    && forall i :: 0 < i < |names| ==> names[i] != names[i - 1]
  }

  /** `names` is a history of creations leading from the current scene `start` to the
      current scene `end`: none is for None, none rebuilds the scene current at that
      point, and `end` is the last one (or `start`, when there is none). */
  predicate Leads(start: SceneName, names: seq<SceneName>, end: SceneName) {
    && None !in names
    && Alternates(start, names)
    && end == (if names == [] then start else names[|names| - 1])
  }

  /** Two histories chain into one. */
  lemma LeadsAppend(start: SceneName, a: seq<SceneName>, mid: SceneName, b: seq<SceneName>, end: SceneName)
    requires Leads(start, a, mid) && Leads(mid, b, end)
    ensures Leads(start, a + b, end)
  {
    if a == [] {
      assert a + b == b;
    } else if b == [] {
      assert a + b == a;
    } else {
      forall i | 0 < i < |a + b|
        ensures (a + b)[i] != (a + b)[i - 1]
      {
        if i < |a| {
          assert (a + b)[i] == a[i] && (a + b)[i - 1] == a[i - 1];
        } else if i == |a| {
          assert (a + b)[i] == b[0] && (a + b)[i - 1] == a[|a| - 1];
        } else {
          assert (a + b)[i] == b[i - |a|] && (a + b)[i - 1] == b[i - |a| - 1];
        }
      }
    }
  }

  /** Over any run, no scene is created for None, no creation rebuilds the scene that
      is current at that point, and the current scene at the end is the last one
      created (or the one at the start, when nothing was created). */
  lemma {:induction false} RunNeverRebuilds(s: State, ops: seq<Op>)
    requires Inv(s)
    ensures Leads(s.currentSceneName, Commits(Run(s, ops).effects), Run(s, ops).state.currentSceneName)
    decreases |ops|
  {
    if ops != [] {
      var first := Apply(s, ops[0]);
      var rest := Run(first.state, ops[1..]);
      assert Run(s, ops) == Outcome(rest.state, first.effects + rest.effects);
      RunNeverRebuilds(first.state, ops[1..]);
      ApplyFacts(s, ops[0]);
      CommitsAppend(first.effects, rest.effects);
      LeadsAppend(s.currentSceneName, Commits(first.effects), first.state.currentSceneName,
                  Commits(rest.effects), rest.state.currentSceneName);
    }
  }

  /** While a switch is under way, requests only overwrite the queued slot: after any
      number of them the slot holds the last one, with its dictionary. */
  lemma {:induction false} LatestRequestWins(s: State, reqs: seq<Request>)
    requires Inv(s) && !Idle(s) && reqs != []
    ensures Run(s, PlanAll(reqs)) ==
            Outcome(s.(queuedScene := reqs[|reqs| - 1].scene, queuedParam := Some(reqs[|reqs| - 1].infos)), [])
    decreases |reqs|
  {
    var ops := PlanAll(reqs);
    var first := Apply(s, ops[0]);
    assert first == Outcome(s.(queuedScene := reqs[0].scene, queuedParam := Some(reqs[0].infos)), []);
    assert ops[1..] == PlanAll(reqs[1..]);
    if |reqs| > 1 {
      LatestRequestWins(first.state, reqs[1..]);
    }
  }

  /** The requests `reqs` as "PlanSceneSwitch" notifications. */
  function PlanAll(reqs: seq<Request>): (ops: seq<Op>)
    ensures |ops| == |reqs|
    ensures forall i :: 0 <= i < |reqs| ==> ops[i] == PlanOp(reqs[i])
  {
    if reqs == [] then [] else [PlanOp(reqs[0])] + PlanAll(reqs[1..])
  }

  /** initWithScene commits its scene within the call when no cancellation is pending;
      given NULL, the scene is created with an empty dictionary, otherwise with the
      one given. */
  lemma BootstrapCommits(s: State, nextSceneType: SceneName, param: Nullable<ValueMap>, engineRunning: bool)
    requires Inv(s) && s.currentSceneName == None && nextSceneType != None && !s.sceneSwitchCancelled
    ensures var r := Bootstrap(s, nextSceneType, param, engineRunning);
            && Commits(r.effects) == [nextSceneType]
            && r.state.currentSceneName == nextSceneType
            && r.state.currentScene.Some?
            && r.state.currentScene.value.params == (if param == Null then Some(map[]) else param)
  {
    var b := s.(nextScene := nextSceneType, frameDelay := true, nextSceneParam := BootParams(param),
                processingSwitch := true);
    ReplaceFacts(b, engineRunning);
    CommitFacts(b, engineRunning);
  }
}
