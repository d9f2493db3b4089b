/** A session of the demo: any interleaving of touch/key events, update ticks and
    origin-change notifications, each handled to completion before the next. */
module Session {
  import opened SceneTypes
  import opened RayCast
  import opened Controller

  /** One callback invocation with the results of the external calls it makes. */
  datatype Input =
    | Start(event: InputEvent, hits: seq<Hit>, toDevice: Option<Pose>)
    | End(event: InputEvent, toBoxScene: Option<Pose>)
    | Update(tick: Tick)
    | OriginChange(boxSceneLocal: Pose)

  /** The ray casts an input carries name boxes among the first `n` and are sorted. */
  predicate Admissible(i: Input, n: nat) {
    match i
    case Start(_, hits, _) => IsRayCast(hits, n)
    case Update(t) => IsRayCast(t.hits, n)
    case _ => true
  }

  /** Whether an input is a tick that anchors the box group: its user pose is known
      and the conversion to FIXED succeeds. */
  predicate AnchorsBoxScene(i: Input) {
    i.Update? && IsKnown(i.tick.status) && i.tick.toFixed.Some?
  }

  function Step(s: State, i: Input): (r: State)
    requires Valid(s) && Admissible(i, |s.objects|)
    ensures Valid(r) && |r.objects| == |s.objects|
    ensures r.boxInit == (s.boxInit || AnchorsBoxScene(i))
    ensures forall k :: 0 <= k < |s.objects| ==> UnhighlightedColour(r, k) == UnhighlightedColour(s, k)
  {
    match i
    case Start(e, hits, toDevice) => TouchStartStep(s, e, hits, toDevice).state
    case End(e, toBoxScene) => TouchEndStep(s, e, toBoxScene).state
    case Update(t) => UpdateStep(s, t)
    case OriginChange(pose) => OriginChangeStep(s, pose)
  }

  /** The state after handling `inputs` in order. Every handler keeps the
      invariant, so after any session every box is in exactly one of the two
      groups and SELECTED, if set, names a carried box. */
  function Run(s: State, inputs: seq<Input>): (r: State)
    requires Valid(s) && forall j :: 0 <= j < |inputs| ==> Admissible(inputs[j], |s.objects|)
    ensures Valid(r) && |r.objects| == |s.objects|
    ensures s.boxInit ==> r.boxInit
    decreases |inputs|
  {
    if inputs == [] then s else Run(Step(s, inputs[0]), inputs[1..])
  }

  /** The init latch: after a session boxInit holds exactly when it held at the
      start or some tick of the session anchored the box group. */
  lemma {:induction false} InitLatch(s: State, inputs: seq<Input>)
    requires Valid(s) && forall j :: 0 <= j < |inputs| ==> Admissible(inputs[j], |s.objects|)
    ensures Run(s, inputs).boxInit <==> s.boxInit || exists j :: 0 <= j < |inputs| && AnchorsBoxScene(inputs[j])
    decreases |inputs|
  {
    if inputs != [] {
      var next := Step(s, inputs[0]);
      InitLatch(next, inputs[1..]);
      assert forall j :: 1 <= j < |inputs| ==> inputs[1..][j - 1] == inputs[j];
    }
  }

  /** Once the box group is anchored, no later input re-runs the anchoring: the
      entity `boxSceneEntity` stays as it was for the rest of the session. */
  lemma {:induction false} AnchorSetOnce(s: State, inputs: seq<Input>)
    requires Valid(s) && s.boxInit && forall j :: 0 <= j < |inputs| ==> Admissible(inputs[j], |s.objects|)
    ensures Run(s, inputs).boxSceneEntity == s.boxSceneEntity
    decreases |inputs|
  {
    if inputs != [] {
      var next := Step(s, inputs[0]);
      assert next.boxSceneEntity == s.boxSceneEntity;
      AnchorSetOnce(next, inputs[1..]);
    }
  }

  /** Highlighting is reversible: over any session the colour each box shows when
      it is not highlighted never changes. */
  lemma {:induction false} ColoursSurvive(s: State, inputs: seq<Input>, k: nat)
    requires Valid(s) && forall j :: 0 <= j < |inputs| ==> Admissible(inputs[j], |s.objects|)
    requires k < |s.objects|
    ensures UnhighlightedColour(Run(s, inputs), k) == UnhighlightedColour(s, k)
    decreases |inputs|
  {
    if inputs != [] {
      ColoursSurvive(Step(s, inputs[0]), inputs[1..], k);
    }
  }

  /** Only touch events move boxes between groups: a session of ticks and
      origin changes leaves every box in its group and SELECTED as it was. */
  lemma {:induction false} TicksKeepGroups(s: State, inputs: seq<Input>)
    requires Valid(s) && forall j :: 0 <= j < |inputs| ==> Admissible(inputs[j], |s.objects|)
    requires forall j :: 0 <= j < |inputs| ==> inputs[j].Update? || inputs[j].OriginChange?
    ensures var r := Run(s, inputs);
      r.selected == s.selected && forall k :: 0 <= k < |s.objects| ==> r.objects[k].parent == s.objects[k].parent
    decreases |inputs|
  {
    if inputs != [] {
      TicksKeepGroups(Step(s, inputs[0]), inputs[1..]);
    }
  }
}
