/** The two versions of the coordinator side by side: as long as allowReload is never
    called, the current version creates exactly the scenes the older one creates, in
    the same order, for the same requests, ticks and cancellations. The extra calls of
    the current version (texture unbinding, keyboard lock, release pool) do not change
    what is scheduled. */
module Variants {
  import opened Scenes
  import S = Switcher
  import L = LegacySwitcher
  import SP = SwitcherProperties
  import LP = LegacyProperties

  /** A state of the current version and a state of the older one that schedule alike:
      the same scenes and flags, no reload override, the same scene objects, and the
      older version's dictionary pointers holding the current version's dictionaries
      wherever a scene is pending or queued. */
  predicate Agree(n: S.State, o: L.State) {
    && AgreeOnSchedule(n, o)
    && (n.nextScene != None ==> o.nextSceneParam == Some(n.nextSceneParam))
  }

  /** `Agree` without the target's dictionary, which a commit releases before the
      queue is taken. */
  predicate AgreeOnSchedule(n: S.State, o: L.State) {
    && n.currentSceneName == o.currentSceneName
    && n.nextScene == o.nextScene
    && n.queuedScene == o.queuedScene
    && n.processingSwitch == o.processingSwitch
    && n.frameDelay == o.frameDelay
    && n.isEventFired == o.isEventFired
    && n.sceneSwitchCancelled == o.sceneSwitchCancelled
    && n.created == o.created
    && !n.reloadAllowed
    && (n.currentScene.Some? <==> o.currentScene.Some?)
    && (n.currentScene.Some? ==> SameHandle(n.currentScene.value, o.currentScene.value))
    && (n.queuedScene != None ==> o.queuedParam == Some(n.queuedParam))
  }

  /** The same scene object in the two versions. */
  predicate SameHandle(h: S.Handle, g: L.Handle) {
    g == L.Handle(h.serial, h.name, Some(h.params))
  }

  /** Both versions start out alike. */
  lemma InitialAgree()
    ensures Agree(S.Initial(), L.Initial())
    ensures S.Commits(S.INIT_EFFECTS) == L.Commits(L.INIT_EFFECTS) == []
  {
    assert S.INIT_EFFECTS[1..][1..] == [] && L.INIT_EFFECTS[1..][1..] == [];
  }

  /** An operation of the current version that the older one also has. */
  predicate Shared(op: S.Op) {
    !op.AllowReloadOp?
  }

  /** The same operation in the older version; the older version has no keyboard
      lock, so the lock token is dropped. */
  function Legacy(op: S.Op): (r: L.Op)
    requires Shared(op)
    ensures op.PlanOp? <==> r.PlanOp?
    ensures op.TickOp? <==> r.TickOp?
  {
    match op
    case PlanOp(req, _) => L.PlanOp(req)
    case TickOp(running) => L.TickOp(running)
    case CancelOp => L.CancelOp
  }

  /** A run of the current version in the older version's terms. */
  function LegacyRun(ops: seq<S.Op>): (r: seq<L.Op>)
    requires forall i :: 0 <= i < |ops| ==> Shared(ops[i])
    ensures |r| == |ops|
    ensures forall i :: 0 <= i < |ops| ==> r[i] == Legacy(ops[i])
  {
    if ops == [] then [] else [Legacy(ops[0])] + LegacyRun(ops[1..])
  }

  /** takeQueuedScene makes the two versions alike again, whatever the target's
      dictionaries were: the target either becomes the queued scene, with the queued
      dictionary, or None. */
  lemma TakeQueuedAgrees(n: S.State, o: L.State)
    requires AgreeOnSchedule(n, o)
    ensures Agree(S.TakeQueued(n), L.TakeQueued(o))
  {
  }

  /** A commit keeps the two versions alike, and both create the same scene. */
  lemma CommitAgrees(c: S.State, d: L.State, engineRunning: bool)
    requires Agree(c, d) && c.nextScene != None
    requires c.currentSceneName != None ==> c.currentScene.Some?
    requires d.currentSceneName != None ==> d.currentScene.Some?
    ensures Agree(S.Commit(c, engineRunning).state, L.Commit(d, engineRunning).state)
    ensures S.Commits(S.Commit(c, engineRunning).effects) == L.Commits(L.Commit(d, engineRunning).effects)
  {
    var m := c.(currentScene := Some(S.NewHandle(c)), created := c.created + 1,
                nextSceneParam := map[], currentSceneName := c.nextScene);
    var p := d.(currentScene := Some(L.NewHandle(d)), created := d.created + 1,
                nextSceneParam := Null, currentSceneName := d.nextScene);
    assert AgreeOnSchedule(m, p);
    TakeQueuedAgrees(m, p);
    SP.CommitFacts(c, engineRunning);
    LP.CommitFacts(d, engineRunning);
  }

  /** Resolving a pending cancellation keeps the two versions alike. */
  lemma ResolveCancelAgrees(n: S.State, o: L.State)
    requires S.Inv(n) && L.Inv(o) && Agree(n, o)
    ensures Agree(S.ResolveCancel(n), L.ResolveCancel(o))
    ensures S.ResolveCancel(n).currentSceneName != None ==> S.ResolveCancel(n).currentScene.Some?
    ensures L.ResolveCancel(o).currentSceneName != None ==> L.ResolveCancel(o).currentScene.Some?
  {
    if n.sceneSwitchCancelled {
      TakeQueuedAgrees(n, o);
    }
  }

  /** replaceScene keeps the two versions alike, and both create the same scenes. */
  lemma ReplaceAgrees(n: S.State, o: L.State, engineRunning: bool)
    requires S.Inv(n) && L.Inv(o) && Agree(n, o)
    ensures Agree(S.Replace(n, engineRunning).state, L.Replace(o, engineRunning).state)
    ensures S.Commits(S.Replace(n, engineRunning).effects) == L.Commits(L.Replace(o, engineRunning).effects)
  {
    ResolveCancelAgrees(n, o);
    if S.CommitGuard(S.ResolveCancel(n)) {
      ReplaceCommitAgrees(n, o, engineRunning);
    }
  }

  /** The committing branch of replaceScene. */
  lemma ReplaceCommitAgrees(n: S.State, o: L.State, engineRunning: bool)
    requires S.Inv(n) && L.Inv(o) && Agree(n, o) && S.CommitGuard(S.ResolveCancel(n))
    ensures Agree(S.Replace(n, engineRunning).state, L.Replace(o, engineRunning).state)
    ensures S.Commits(S.Replace(n, engineRunning).effects) == L.Commits(L.Replace(o, engineRunning).effects)
  {
    var c := S.ResolveCancel(n);
    var d := L.ResolveCancel(o);
    ResolveCancelAgrees(n, o);
    CommitAgrees(c, d, engineRunning);
  }

  /** The branches of a tick keep the two versions alike, and both create the same
      scenes. */
  lemma AdvanceAgrees(n: S.State, o: L.State, engineRunning: bool)
    requires S.Inv(n) && L.Inv(o) && Agree(n, o)
    ensures Agree(S.Advance(n, engineRunning).state, L.Advance(o, engineRunning).state)
    ensures S.Commits(S.Advance(n, engineRunning).effects) == L.Commits(L.Advance(o, engineRunning).effects)
  {
    if n.nextScene != None && n.nextScene != n.currentSceneName {
      if n.frameDelay {
        ReplaceAgrees(n, o, engineRunning);
      }
    } else {
      TakeQueuedAgrees(n, o);
    }
  }

  /** A tick keeps the two versions alike, and both create the same scenes; the
      keyboard lock release of the current version creates nothing. */
  lemma TryAgrees(n: S.State, o: L.State, engineRunning: bool)
    requires S.Inv(n) && L.Inv(o) && Agree(n, o)
    ensures Agree(S.Try(n, engineRunning).state, L.Try(o, engineRunning).state)
    ensures S.Commits(S.Try(n, engineRunning).effects) == L.Commits(L.Try(o, engineRunning).effects)
  {
    AdvanceAgrees(n, o, engineRunning);
    var a := S.Advance(n, engineRunning);
    var released := if a.state.keyboardLock >= 0 then [S.ReleaseAllKeyboardLocks] else [];
    assert S.Commits(released) == [] by {
      if released != [] {
        assert released[1..] == [];
      }
    }
    S.CommitsAppend(a.effects, released);
  }

  /** Every shared operation keeps the two versions alike, and both create the same
      scenes. */
  lemma ApplyAgrees(n: S.State, o: L.State, op: S.Op)
    requires S.Inv(n) && L.Inv(o) && Agree(n, o) && Shared(op)
    ensures Agree(S.Apply(n, op).state, L.Apply(o, Legacy(op)).state)
    ensures S.Commits(S.Apply(n, op).effects) == L.Commits(L.Apply(o, Legacy(op)).effects)
  {
    match op
    case PlanOp(req, token) =>
    case TickOp(running) => TryAgrees(n, o, running);
    case CancelOp =>
  }

  /** Over any run without allowReload, the two versions end alike and create the same
      scenes in the same order. */
  lemma {:induction false} RunAgrees(n: S.State, o: L.State, ops: seq<S.Op>)
    requires S.Inv(n) && L.Inv(o) && Agree(n, o)
    requires forall i :: 0 <= i < |ops| ==> Shared(ops[i])
    ensures Agree(S.Run(n, ops).state, L.Run(o, LegacyRun(ops)).state)
    ensures S.Commits(S.Run(n, ops).effects) == L.Commits(L.Run(o, LegacyRun(ops)).effects)
    decreases |ops|
  {
    if ops != [] {
      var lops := LegacyRun(ops);
      var a := S.Apply(n, ops[0]);
      var b := L.Apply(o, lops[0]);
      ApplyAgrees(n, o, ops[0]);
      assert lops[1..] == LegacyRun(ops[1..]);
      RunAgrees(a.state, b.state, ops[1..]);
      S.CommitsAppend(a.effects, S.Run(a.state, ops[1..]).effects);
      L.CommitsAppend(b.effects, L.Run(b.state, lops[1..]).effects);
    }
  }

  /** Consequently, from the start, any run without allowReload creates the same
      scenes in both versions. */
  lemma SameCommitsFromStart(ops: seq<S.Op>)
    requires forall i :: 0 <= i < |ops| ==> Shared(ops[i])
    ensures S.Commits(S.Run(S.Initial(), ops).effects) == L.Commits(L.Run(L.Initial(), LegacyRun(ops)).effects)
  {
    InitialAgree();
    RunAgrees(S.Initial(), L.Initial(), ops);
  }
}
