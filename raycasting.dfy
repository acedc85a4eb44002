/**
 * The pointing-selection hook. On every landmark frame it reads the index
 * fingertip, asks an intersector which bulb the horizontally mirrored
 * fingertip ray meets, publishes the hit, and keeps a newly hit bulb
 * "held" for a fixed window so that a ray that briefly slips off the bulb
 * still reports it.
 *
 * The pure part (HoldState and the Step functions) states what each event
 * does; the class SelectionTracker performs the same updates in place and is
 * proved against it.
 */
module Raycasting {
  import opened Common

  /** How long a newly hit bulb stays held without a live intersection, in milliseconds. */
  const SelectionHoldDuration: int := 3000

  /** Position of the index-finger tip among the hand landmarks. */
  const FingerTipIndex: nat := 8

  /** Scene objects that the hook only passes on to the intersector. */
  datatype Camera = Camera(handle: nat)
  datatype Hitbox = Hitbox(handle: nat)

  /** The nearest bulb the ray meets, as the intersector reports it. */
  datatype Intersection = Intersection(bulbId: int, point: Point3, distance: real)

  /** The published hit record: an intersection and the fingertip that produced it. */
  datatype HitInfo = HitInfo(bulbId: int, point: Point3, distance: real, fingerPosition: Point3)

  /**
   * The nearest-bulb search, given the camera, the screen point (x already
   * mirrored) and the hitboxes; its geometry is outside this model.
   */
  type Intersector = (Camera, real, real, seq<Hitbox>) -> Option<Intersection>

  /** The arguments one frame hands to the intersector, and the fingertip they came from. */
  datatype RayQuery = RayQuery(camera: Camera, x: real, y: real, meshes: seq<Hitbox>, fingerTip: Point3)

  /** What a frame amounts to once the intersector has answered. */
  datatype FrameInput =
    | NoInput
    | Miss(fingerTip: Point3)
    | Hit(hit: Intersection, fingerTip: Point3)

  /** A scheduled hold-expiry callback: its due time and the `pointing` value its closure captured. */
  datatype PendingExpiry = PendingExpiry(due: int, pointingAtArm: bool)

  /**
   * The hook's state: the published cells `hitInfo` and `pointing`, the refs
   * `lastHitId`, `selectionHold` and `holdTimeout` (a timer handle), and the
   * runtime's scheduled expiry callbacks keyed by handle.
   */
  datatype HoldState = HoldState(
    hitInfo: Option<HitInfo>,
    pointing: bool,
    lastHitId: Option<int>,
    selectionHold: Option<HitInfo>,
    holdTimeout: Option<nat>,
    pendingTimers: map<nat, PendingExpiry>,
    nextTimerId: nat)

  /** The state when the hook mounts. */
  function Initial(): HoldState {
    HoldState(None, false, None, None, None, map[], 0)
  }

  /** The handles a timer ref holds. */
  function Handles(ref: Option<nat>): set<nat> {
    if ref.Some? then {ref.value} else {}
  }

  /**
   * What every reachable state satisfies: the only scheduled expiry is the
   * one the ref holds (no timer leaks), handles are fresh, a pending timer
   * always has a held record, and a remembered hit names the held bulb.
   */
  ghost predicate Invariant(s: HoldState) {
    && s.pendingTimers.Keys == Handles(s.holdTimeout)
    && (forall id :: id in s.pendingTimers ==> id < s.nextTimerId)
    && (s.holdTimeout.Some? ==> s.selectionHold.Some?)
    && (s.selectionHold.Some? && s.lastHitId.Some? ==> s.lastHitId.value == s.selectionHold.value.bulbId)
  }

  /** The held record and the hold timer are present together (true until unmount). */
  ghost predicate HoldInStep(s: HoldState) {
    s.selectionHold.Some? <==> s.holdTimeout.Some?
  }

  lemma InitialInvariant()
    ensures Invariant(Initial()) && HoldInStep(Initial())
  {
  }

  // ---------------------------------------------------------------------------
  // Reading the frame

  /** Landmark 8, or nothing when the landmarks are absent or too short to have it. */
  function FingerTip(landmarks: Option<seq<Point3>>): Option<Point3> {
    if landmarks.Some? && FingerTipIndex < |landmarks.value| then Some(landmarks.value[FingerTipIndex])
    else None
  }

  /**
   * The hitboxes of the bulb refs that carry one, in order; an entry is None
   * when the ref is unset or has no hitbox.
   */
  function Hitboxes(bulbRefs: seq<Option<Hitbox>>): (meshes: seq<Hitbox>)
    ensures |meshes| <= |bulbRefs|
    ensures forall h :: h in meshes <==> Some(h) in bulbRefs
    ensures meshes == [] <==> forall r :: r in bulbRefs ==> r.None?
    ensures |meshes| == |bulbRefs| <==> forall r :: r in bulbRefs ==> r.Some?
  {
    if bulbRefs == [] then []
    else if bulbRefs[0].Some? then [bulbRefs[0].value] + Hitboxes(bulbRefs[1..])
    else Hitboxes(bulbRefs[1..])
  }

  /**
   * Keeping hitboxes commutes with concatenation, so the result keeps the
   * refs' order and multiplicity.
   */
  lemma {:induction false} HitboxesAppend(a: seq<Option<Hitbox>>, b: seq<Option<Hitbox>>)
    ensures Hitboxes(a + b) == Hitboxes(a) + Hitboxes(b)
    decreases |a|
  {
    if a == [] {
      assert a + b == b;
    } else {
      assert (a + b)[1..] == a[1..] + b;
      HitboxesAppend(a[1..], b);
    }
  }

  /**
   * The intersector call a frame makes, or nothing when the camera, the
   * fingertip or the refs are missing or no ref has a hitbox. The fingertip's
   * x is mirrored and its y passed unchanged.
   */
  function Query(camera: Option<Camera>, landmarks: Option<seq<Point3>>, bulbRefs: Option<seq<Option<Hitbox>>>)
    : (q: Option<RayQuery>)
    ensures q.None? <==>
              || camera.None? || landmarks.None? || |landmarks.value| <= FingerTipIndex
              || bulbRefs.None? || (forall r :: r in bulbRefs.value ==> r.None?)
    ensures q.Some? ==>
              && q.value.camera == camera.value
              && q.value.fingerTip == landmarks.value[FingerTipIndex]
              && q.value.x == 1.0 - landmarks.value[FingerTipIndex].x
              && q.value.y == landmarks.value[FingerTipIndex].y
              && (forall h :: h in q.value.meshes <==> Some(h) in bulbRefs.value)
  {
    var tip := FingerTip(landmarks);
    if camera.None? || tip.None? || bulbRefs.None? then None
    else
      var meshes := Hitboxes(bulbRefs.value);
      if |meshes| == 0 then None
      else Some(RayQuery(camera.value, 1.0 - tip.value.x, tip.value.y, meshes, tip.value))
  }

  /** Runs the frame's query through the intersector. */
  function ClassifyFrame(camera: Option<Camera>, landmarks: Option<seq<Point3>>,
                         bulbRefs: Option<seq<Option<Hitbox>>>, intersect: Intersector): FrameInput
  {
    match Query(camera, landmarks, bulbRefs)
    case None => NoInput
    case Some(q) =>
      match intersect(q.camera, q.x, q.y, q.meshes)
      case None => Miss(q.fingerTip)
      case Some(hit) => Hit(hit, q.fingerTip)
  }

  // ---------------------------------------------------------------------------
  // The events

  /** The record a hit publishes. */
  function Record(hit: Intersection, fingerTip: Point3): HitInfo {
    HitInfo(hit.bulbId, hit.point, hit.distance, fingerTip)
  }

  /**
   * Cancels the pending hold timer, if any, and forgets its handle; the held
   * record stays. The unmount cleanup does exactly this.
   */
  function ClearHoldTimer(s: HoldState): (t: HoldState)
    ensures t.holdTimeout.None?
    ensures t.pendingTimers == s.pendingTimers - Handles(s.holdTimeout)
    ensures Invariant(s) ==> Invariant(t) && t.pendingTimers == map[]
    ensures t.hitInfo == s.hitInfo && t.pointing == s.pointing && t.lastHitId == s.lastHitId
    ensures t.selectionHold == s.selectionHold && t.nextTimerId == s.nextTimerId
  {
    if s.holdTimeout.Some? then
      s.(pendingTimers := s.pendingTimers - {s.holdTimeout.value}, holdTimeout := None)
    else s
  }

  /**
   * Arms a hold for `hitData`: cancels the pending timer, stores the record
   * and schedules a fresh expiry one hold duration after `now`, whose closure
   * sees `pointing` as it was when the hook last rendered.
   */
  function ArmHold(s: HoldState, hitData: HitInfo, now: int, renderedPointing: bool): HoldState {
    var c := ClearHoldTimer(s);
    c.(selectionHold := Some(hitData),
       holdTimeout := Some(c.nextTimerId),
       pendingTimers := c.pendingTimers[c.nextTimerId := PendingExpiry(now + SelectionHoldDuration, renderedPointing)],
       nextTimerId := c.nextTimerId + 1)
  }

  /** The effect of one frame. */
  function StepFrame(s: HoldState, input: FrameInput, now: int): (t: HoldState)
    // no fingertip, camera, refs or hitbox: outputs cleared, hold and timer untouched
    ensures input.NoInput? ==>
              && t.hitInfo.None? && !t.pointing && t.lastHitId.None?
              && t.selectionHold == s.selectionHold && t.holdTimeout == s.holdTimeout
              && t.pendingTimers == s.pendingTimers && t.nextTimerId == s.nextTimerId
    // a hit is published with the current fingertip and remembered
    ensures input.Hit? ==>
              && t.pointing && t.hitInfo == Some(Record(input.hit, input.fingerTip))
              && t.lastHitId == Some(input.hit.bulbId)
    // a hit on the remembered bulb leaves the hold and its timer alone
    ensures input.Hit? && s.lastHitId == Some(input.hit.bulbId) ==>
              && t.selectionHold == s.selectionHold && t.holdTimeout == s.holdTimeout
              && t.pendingTimers == s.pendingTimers && t.nextTimerId == s.nextTimerId
    // a hit on any other bulb replaces the hold and re-arms: the old timer is cancelled first
    ensures input.Hit? && s.lastHitId != Some(input.hit.bulbId) ==>
              && t.selectionHold == t.hitInfo
              && t.holdTimeout == Some(s.nextTimerId)
              && t.pendingTimers == (s.pendingTimers - Handles(s.holdTimeout))[s.nextTimerId :=
                                       PendingExpiry(now + SelectionHoldDuration, s.pointing)]
    // a miss never touches the hold or its timer
    ensures input.Miss? ==>
              && !t.pointing
              && t.selectionHold == s.selectionHold && t.holdTimeout == s.holdTimeout
              && t.pendingTimers == s.pendingTimers && t.nextTimerId == s.nextTimerId
    // a miss during a hold reports the held record with the current fingertip
    ensures input.Miss? && s.selectionHold.Some? ==>
              && t.hitInfo == Some(s.selectionHold.value.(fingerPosition := input.fingerTip))
              && t.lastHitId == s.lastHitId
    // a miss with nothing held clears the output and the remembered hit
    ensures input.Miss? && s.selectionHold.None? ==> t.hitInfo.None? && t.lastHitId.None?
  {
    match input
    case NoInput =>
      s.(hitInfo := None, pointing := false, lastHitId := None)
    case Hit(hit, tip) =>
      var info := Record(hit, tip);
      var shown := s.(hitInfo := Some(info), pointing := true);
      if s.lastHitId != Some(hit.bulbId) then
        ArmHold(shown.(lastHitId := Some(hit.bulbId)), info, now, s.pointing)
      else shown
    case Miss(tip) =>
      if s.selectionHold.Some? then
        s.(pointing := false, hitInfo := Some(s.selectionHold.value.(fingerPosition := tip)))
      else
        s.(pointing := false, hitInfo := None, lastHitId := None)
  }

  /** The expiry callback of timer `id`, run no earlier than its due time. */
  function StepHoldExpired(s: HoldState, id: nat, now: int): (t: HoldState)
    requires id in s.pendingTimers && s.pendingTimers[id].due <= now
    ensures t.selectionHold.None? && t.holdTimeout.None?
    ensures t.pendingTimers == s.pendingTimers - {id}
    ensures t.hitInfo == (if s.pendingTimers[id].pointingAtArm then s.hitInfo else None)
    ensures t.pointing == s.pointing && t.lastHitId == s.lastHitId && t.nextTimerId == s.nextTimerId
  {
    var captured := s.pendingTimers[id];
    s.(selectionHold := None,
       holdTimeout := None,
       pendingTimers := s.pendingTimers - {id},
       hitInfo := if captured.pointingAtArm then s.hitInfo else None)
  }

  /** The hook's `isHoldingSelection` output. */
  function IsHoldingSelection(s: HoldState): bool {
    s.selectionHold.Some?
  }

  /** The hook's `selectionTimeRemaining` output. */
  function SelectionTimeRemaining(s: HoldState): int {
    if s.holdTimeout.Some? then SelectionHoldDuration else 0
  }

  /**
   * While the hook is mounted the two hold outputs agree: a hold is reported
   * exactly when the full window is reported as remaining, and that happens
   * exactly when one expiry is scheduled.
   */
  lemma HoldOutputsAgree(s: HoldState)
    requires Invariant(s) && HoldInStep(s)
    ensures IsHoldingSelection(s) <==> SelectionTimeRemaining(s) == SelectionHoldDuration
    ensures SelectionTimeRemaining(s) == (if |s.pendingTimers| == 1 then SelectionHoldDuration else 0)
  {
  }

  // ---------------------------------------------------------------------------
  // Event sequences

  datatype Event =
    | FrameArrived(input: FrameInput, now: int)
    | HoldTimerFired(id: nat, now: int)
    | Unmounted

  /** Only a scheduled timer can fire, and not before it is due. */
  predicate Enabled(s: HoldState, e: Event) {
    e.HoldTimerFired? ==> e.id in s.pendingTimers && s.pendingTimers[e.id].due <= e.now
  }

  function Step(s: HoldState, e: Event): HoldState
    requires Enabled(s, e)
  {
    match e
    case FrameArrived(input, now) => StepFrame(s, input, now)
    case HoldTimerFired(id, now) => StepHoldExpired(s, id, now)
    case Unmounted => ClearHoldTimer(s)
  }

  predicate ValidTrace(s: HoldState, evs: seq<Event>)
    decreases |evs|
  {
    evs == [] || (Enabled(s, evs[0]) && ValidTrace(Step(s, evs[0]), evs[1..]))
  }

  function Run(s: HoldState, evs: seq<Event>): HoldState
    requires ValidTrace(s, evs)
    decreases |evs|
  {
    if evs == [] then s else Run(Step(s, evs[0]), evs[1..])
  }

  /** Every event keeps the invariant; every event but unmounting keeps hold and timer together. */
  lemma StepPreservesInvariant(s: HoldState, e: Event)
    requires Invariant(s) && Enabled(s, e)
    ensures Invariant(Step(s, e))
    ensures HoldInStep(s) && !e.Unmounted? ==> HoldInStep(Step(s, e))
  {
  }

  /**
   * Along any sequence of events at most one hold timer is ever pending, and
   * it is the one the ref holds; while the hook stays mounted the held record
   * and the timer come and go together.
   */
  lemma {:induction false} RunPreservesInvariant(s: HoldState, evs: seq<Event>)
    requires Invariant(s) && ValidTrace(s, evs)
    ensures Invariant(Run(s, evs))
    ensures |Run(s, evs).pendingTimers| <= 1
    ensures HoldInStep(s) && (forall e :: e in evs ==> !e.Unmounted?) ==> HoldInStep(Run(s, evs))
    decreases |evs|
  {
    if evs == [] {
      assert s.pendingTimers.Keys == Handles(s.holdTimeout);
      assert |s.pendingTimers.Keys| <= 1;
    } else {
      StepPreservesInvariant(s, evs[0]);
      if HoldInStep(s) && (forall e :: e in evs ==> !e.Unmounted?) {
        assert evs[0] in evs;
        assert forall e :: e in evs[1..] ==> e in evs;
      }
      RunPreservesInvariant(Step(s, evs[0]), evs[1..]);
    }
  }

  /**
   * The dwell window. Take a state holding bulb `a` whose pending expiry is
   * due no earlier than `d`, and any events that happen in the hold window
   * before `d`. Unless a hit on another bulb arrives, bulb `a` stays held
   * throughout, and every frame that has a fingertip reports `a`.
   */
  lemma {:induction false} DwellWindow(s: HoldState, evs: seq<Event>, a: int, d: int)
    requires Invariant(s) && ValidTrace(s, evs)
    requires s.selectionHold.Some? && s.selectionHold.value.bulbId == a
    requires forall id :: id in s.pendingTimers ==> d <= s.pendingTimers[id].due
    requires forall e :: e in evs && !e.Unmounted? ==> d - SelectionHoldDuration <= e.now < d
    requires forall e :: e in evs && e.FrameArrived? && e.input.Hit? ==> e.input.hit.bulbId == a
    ensures Run(s, evs).selectionHold.Some? && Run(s, evs).selectionHold.value.bulbId == a
    ensures evs != [] && evs[|evs| - 1].FrameArrived? && !evs[|evs| - 1].input.NoInput? ==>
              Run(s, evs).hitInfo.Some? && Run(s, evs).hitInfo.value.bulbId == a
    decreases |evs|
  {
    if evs != [] {
      var e := evs[0];
      assert e in evs;
      if e.HoldTimerFired? {
        assert false;
      }
      var t := Step(s, e);
      StepPreservesInvariant(s, e);
      assert forall id :: id in t.pendingTimers ==> d <= t.pendingTimers[id].due;
      assert forall x :: x in evs[1..] ==> x in evs;
      DwellWindow(t, evs[1..], a, d);
      if |evs| > 1 {
        assert evs[|evs| - 1] == evs[1..][|evs[1..]| - 1];
      }
    }
  }

  /**
   * Further hits on the held bulb and misses do not restart the hold: the
   * record, the timer and its schedule stay exactly as they were armed.
   */
  lemma {:induction false} SameBulbKeepsTimer(s: HoldState, evs: seq<Event>, a: int)
    requires Invariant(s) && ValidTrace(s, evs)
    requires s.selectionHold.Some? && s.lastHitId == Some(a)
    requires forall e :: e in evs ==>
               e.FrameArrived? && (e.input.Miss? || (e.input.Hit? && e.input.hit.bulbId == a))
    ensures Run(s, evs).selectionHold == s.selectionHold
    ensures Run(s, evs).holdTimeout == s.holdTimeout
    ensures Run(s, evs).pendingTimers == s.pendingTimers
    ensures Run(s, evs).lastHitId == Some(a)
    decreases |evs|
  {
    if evs != [] {
      assert evs[0] in evs;
      assert forall x :: x in evs[1..] ==> x in evs;
      StepPreservesInvariant(s, evs[0]);
      SameBulbKeepsTimer(Step(s, evs[0]), evs[1..], a);
    }
  }

  /** A hit on a bulb other than the held one supersedes the hold at once. */
  lemma OtherBulbSupersedes(s: HoldState, hit: Intersection, tip: Point3, now: int)
    requires Invariant(s) && s.selectionHold.Some? && hit.bulbId != s.selectionHold.value.bulbId
    ensures var t := StepFrame(s, Hit(hit, tip), now);
            && t.selectionHold == Some(Record(hit, tip))
            && t.holdTimeout == Some(s.nextTimerId)
            && t.pendingTimers.Keys == {s.nextTimerId}
            && t.pendingTimers[s.nextTimerId].due == now + SelectionHoldDuration
  {
  }

  /**
   * A frame without a fingertip forgets the remembered hit but not the hold,
   * so the next hit on the very same bulb arms a fresh timer.
   */
  lemma NoFingerTipRearmsSameBulb(s: HoldState, hit: Intersection, tip: Point3, n1: int, n2: int)
    requires Invariant(s) && s.selectionHold.Some? && hit.bulbId == s.selectionHold.value.bulbId
    ensures var t := StepFrame(StepFrame(s, NoInput, n1), Hit(hit, tip), n2);
            && t.selectionHold == Some(Record(hit, tip))
            && t.holdTimeout == Some(s.nextTimerId)
            && t.pendingTimers.Keys == {s.nextTimerId}
            && t.pendingTimers[s.nextTimerId].due == n2 + SelectionHoldDuration
  {
  }

  // ---------------------------------------------------------------------------
  // The hook as mutable state

  /** The hook instance: its state cells and refs, updated in place by its callbacks. */
  class SelectionTracker {
    var hitInfo: Option<HitInfo>
    var pointing: bool
    var lastHitId: Option<int>
    var selectionHold: Option<HitInfo>
    var holdTimeout: Option<nat>
    /** The runtime's scheduled expiry callbacks, by handle. */
    var pendingTimers: map<nat, PendingExpiry>
    var nextTimerId: nat

    function State(): HoldState
      reads this
    {
      HoldState(hitInfo, pointing, lastHitId, selectionHold, holdTimeout, pendingTimers, nextTimerId)
    }

    ghost predicate Valid()
      reads this
    {
      Invariant(State())
    }

    constructor ()
      ensures State() == Initial() && Valid()
    {
      hitInfo, pointing, lastHitId := None, false, None;
      selectionHold, holdTimeout := None, None;
      pendingTimers, nextTimerId := map[], 0;
    }

    /** `clearSelectionHold`: cancels the pending timer; the unmount cleanup calls it too. */
    method ClearSelectionHold()
      requires Valid()
      modifies this
      ensures Valid()
      ensures State() == ClearHoldTimer(old(State()))
    {
      if holdTimeout.Some? {
        pendingTimers := pendingTimers - {holdTimeout.value};
        holdTimeout := None;
      }
    }

    /** `setSelectionHold`: stores the record and re-arms the expiry timer. */
    method SetSelectionHold(hitData: HitInfo, now: int, renderedPointing: bool)
      modifies this
      ensures State() == ArmHold(old(State()), hitData, now, renderedPointing)
    {
      if holdTimeout.Some? {
        pendingTimers := pendingTimers - {holdTimeout.value};
        holdTimeout := None;
      }
      selectionHold := Some(hitData);
      pendingTimers := pendingTimers[nextTimerId := PendingExpiry(now + SelectionHoldDuration, renderedPointing)];
      holdTimeout := Some(nextTimerId);
      nextTimerId := nextTimerId + 1;
    }

    /** `performRaycast`, run on each new landmark frame at time `now`. */
    method PerformRaycast(now: int, camera: Option<Camera>, landmarks: Option<seq<Point3>>,
                          bulbRefs: Option<seq<Option<Hitbox>>>, intersect: Intersector)
      requires Valid()
      modifies this
      ensures Valid()
      ensures State() == StepFrame(old(State()), ClassifyFrame(camera, landmarks, bulbRefs, intersect), now)
    {
      // the timer closure sees `pointing` as of the last render, not this frame's update
      var renderedPointing := pointing;
      ghost var before := State();
      StepPreservesInvariant(before, FrameArrived(ClassifyFrame(camera, landmarks, bulbRefs, intersect), now));
      var fingerTip := FingerTip(landmarks);
      if camera.None? || fingerTip.None? || bulbRefs.None? {
        hitInfo := None;
        pointing := false;
        lastHitId := None;
        return;
      }
      var bulbMeshes := Hitboxes(bulbRefs.value);
      if |bulbMeshes| == 0 {
        hitInfo := None;
        pointing := false;
        lastHitId := None;
        return;
      }
      var intersection := intersect(camera.value, 1.0 - fingerTip.value.x, fingerTip.value.y, bulbMeshes);
      if intersection.Some? {
        var newHitInfo := Record(intersection.value, fingerTip.value);
        hitInfo := Some(newHitInfo);
        pointing := true;
        if lastHitId != Some(intersection.value.bulbId) {
          lastHitId := Some(intersection.value.bulbId);
          SetSelectionHold(newHitInfo, now, renderedPointing);
        }
      } else {
        pointing := false;
        if selectionHold.Some? {
          hitInfo := Some(selectionHold.value.(fingerPosition := fingerTip.value));
        } else {
          hitInfo := None;
          if lastHitId.Some? {
            lastHitId := None;
          }
        }
      }
    }

    /** The expiry callback of timer `id`, fired by the runtime at time `now`. */
    method HoldExpired(id: nat, now: int)
      requires Valid() && id in pendingTimers && pendingTimers[id].due <= now
      modifies this
      ensures Valid()
      ensures State() == StepHoldExpired(old(State()), id, now)
    {
      StepPreservesInvariant(State(), HoldTimerFired(id, now));
      var captured := pendingTimers[id];
      pendingTimers := pendingTimers - {id};
      selectionHold := None;
      holdTimeout := None;
      if !captured.pointingAtArm {
        hitInfo := None;
      }
    }
  }
}
