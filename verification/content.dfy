/** The page-side `VolumeController` of content.js as an abstract state
    machine. The Web Audio objects become a record of what exists (the audio
    context with its state, the gain node with its value), media elements
    become ids, and each platform call that may throw becomes an outcome
    handed in by the caller. */
module Content {
  import opened Wrappers
  import opened JsValues

  /** `AudioContext.state` */
  datatype CtxState = Suspended | Running | Closed

  /** The page's audio context and, if `createGain` succeeded, the value of
      its gain node. */
  datatype Audio = Audio(state: CtxState, node: Option<Num>)

  /** An entry of `mediaSources`: a source node, or `null` after a failed
      `createMediaElementSource`. */
  datatype SourceEntry = SourceNode | NullSource

  type ElementId = nat

  /** A DOM node offered to `attachToElement`. */
  datatype Element = Element(id: ElementId, isMedia: bool)

  /** The fields of a `VolumeController`. `resumes` counts the `resume()`
      requests issued so far. */
  datatype Controller = Controller(
    audio: Option<Audio>,
    tracked: set<ElementId>,
    sources: map<ElementId, SourceEntry>,
    gainValue: Num,
    enabled: bool,
    resumes: nat)

  /** The controller as the constructor leaves it. */
  const Initial: Controller := Controller(None, {}, map[], Finite(1.0), true, 0)

  /** How constructing the audio graph turns out on this page: `new
      AudioContext()` throws, or `createGain()` throws after the context exists,
      or both succeed. `state` is the new context's state. */
  datatype ContextOutcome = ContextFails | GainNodeFails(state: CtxState) | Created(state: CtxState)

  /** The per-element state machine:
      unseen -> tracked -> {connected | unavailable}, or stuck at tracked when
      there was no gain node at the first attempt. */
  datatype Status = Unseen | TrackedOnly | Connected | Unavailable

  function StatusOf(c: Controller, id: ElementId): Status {
    if id !in c.tracked then Unseen
    else if id !in c.sources then TrackedOnly
    else if c.sources[id] == SourceNode then Connected
    else Unavailable
  }

  predicate HasGainNode(c: Controller) {
    c.audio.Some? && c.audio.value.node.Some?
  }

  /** The value `applyGain` gives the gain node: unity when disabled. */
  function EffectiveGain(gainValue: Num, enabled: bool): Num {
    if enabled then gainValue else Finite(1.0)
  }

  /** What the controller keeps true: only tracked elements have source
      entries, and once any element is connected the gain node exists and holds
      the effective gain. */
  predicate Valid(c: Controller) {
    && c.sources.Keys <= c.tracked
    && (SourceNode in c.sources.Values ==>
          HasGainNode(c) && c.audio.value.node == Some(EffectiveGain(c.gainValue, c.enabled)))
  }

  /** `ensureContext`: build the context and gain node unless a context
      already exists. */
  function EnsureContext(c: Controller, outcome: ContextOutcome): (r: Controller)
    ensures c.audio.Some? ==> r == c
    ensures r.(audio := c.audio) == c
    ensures c.audio.None? ==> (r.audio.Some? <==> !outcome.ContextFails?)
    ensures c.audio.None? && outcome.Created? ==> r.audio == Some(Audio(outcome.state, Some(Finite(1.0))))
    ensures c.audio.None? && outcome.GainNodeFails? ==> r.audio == Some(Audio(outcome.state, None))
    ensures Valid(c) ==> Valid(r)
  {
    if c.audio.Some? then c
    else
      match outcome
      case ContextFails => c
      case GainNodeFails(st) => c.(audio := Some(Audio(st, None)))
      case Created(st) => c.(audio := Some(Audio(st, Some(Finite(1.0)))))
  }

  /** `ensureResumed`: request a resume only of an existing, suspended
      context. Whether the request succeeds is up to the browser. */
  function EnsureResumed(c: Controller): (r: Controller)
    ensures r.(resumes := c.resumes) == c
    ensures r.resumes > c.resumes <==> c.audio.Some? && c.audio.value.state == Suspended
    ensures r.resumes <= c.resumes + 1
  {
    if c.audio.Some? && c.audio.value.state == Suspended then c.(resumes := c.resumes + 1)
    else c
  }

  /** `applyGain`: without a gain node nothing happens; otherwise the node
      takes the effective gain and a resume is attempted. */
  function ApplyGain(c: Controller): (r: Controller)
    ensures !HasGainNode(c) ==> r == c
    ensures HasGainNode(c) ==> HasGainNode(r) && r.audio.value.node.value == EffectiveGain(c.gainValue, c.enabled)
    ensures HasGainNode(c) && !c.enabled ==> r.audio.value.node.value == Finite(1.0)
    ensures HasGainNode(c) ==> r.audio.value.state == c.audio.value.state
    ensures r.tracked == c.tracked && r.sources == c.sources
    ensures r.gainValue == c.gainValue && r.enabled == c.enabled
    ensures r.resumes > c.resumes <==> HasGainNode(c) && c.audio.value.state == Suspended
    ensures Valid(c) ==> Valid(r)
  {
    if !HasGainNode(c) then c
    else
      var target := EffectiveGain(c.gainValue, c.enabled);
      EnsureResumed(c.(audio := Some(c.audio.value.(node := Some(target)))))
  }

  /** `setGain`: only the stored gain changes, then it is re-applied. */
  function SetGain(c: Controller, value: Num): (r: Controller)
    ensures r.gainValue == value && r.enabled == c.enabled
    ensures r.tracked == c.tracked && r.sources == c.sources
    ensures HasGainNode(r) <==> HasGainNode(c)
    ensures HasGainNode(r) ==> r.audio.value.node.value == EffectiveGain(value, c.enabled)
    ensures r.audio.Some? <==> c.audio.Some?
    ensures c.audio.Some? ==> r.audio.value.state == c.audio.value.state
    ensures r.resumes > c.resumes <==> HasGainNode(c) && c.audio.value.state == Suspended
    ensures Valid(c) ==> Valid(r)
  {
    ApplyGain(c.(gainValue := value))
  }

  /** `setEnabled`: only the flag changes, then the gain is re-applied. */
  function SetEnabled(c: Controller, isEnabled: bool): (r: Controller)
    ensures r.enabled == isEnabled && r.gainValue == c.gainValue
    ensures r.tracked == c.tracked && r.sources == c.sources
    ensures HasGainNode(r) <==> HasGainNode(c)
    ensures HasGainNode(r) ==> r.audio.value.node.value == EffectiveGain(c.gainValue, isEnabled)
    ensures r.audio.Some? <==> c.audio.Some?
    ensures c.audio.Some? ==> r.audio.value.state == c.audio.value.state
    ensures r.resumes > c.resumes <==> HasGainNode(c) && c.audio.value.state == Suspended
    ensures Valid(c) ==> Valid(r)
  {
    ApplyGain(c.(enabled := isEnabled))
  }

  /** The `volumify:apply` handler: `setGain` then `setEnabled`. */
  function OnApply(c: Controller, gain: Num, enabled: bool): (r: Controller)
    ensures r.gainValue == gain && r.enabled == enabled
    ensures r.tracked == c.tracked && r.sources == c.sources
    ensures HasGainNode(r) <==> HasGainNode(c)
    ensures HasGainNode(r) ==> r.audio.value.node.value == (if enabled then gain else Finite(1.0))
    ensures r.audio.Some? <==> c.audio.Some?
    ensures c.audio.Some? ==> r.audio.value.state == c.audio.value.state
    ensures r.resumes > c.resumes <==> HasGainNode(c) && c.audio.value.state == Suspended
    ensures Valid(c) ==> Valid(r)
  {
    SetEnabled(SetGain(c, gain), enabled)
  }

  /** The two calls of the `apply` handler commute: the controller ends in the
      same state whichever runs first. */
  lemma ApplyOrderIndependent(c: Controller, gain: Num, enabled: bool)
    ensures SetGain(SetEnabled(c, enabled), gain) == OnApply(c, gain, enabled)
  {
  }

  /** `attachToElement`. A non-media node or an already tracked element is
      ignored. Otherwise the element is tracked first; without a gain node it
      stays tracked with no source; a failed source creation records `null`;
      a successful one connects the element and re-applies the gain. */
  function Attach(c: Controller, e: Element, outcome: ContextOutcome, sourceOk: bool): (r: Controller)
    ensures !e.isMedia || e.id in c.tracked ==> r == c
    ensures e.isMedia ==> r.tracked == c.tracked + {e.id}
    ensures forall id :: id != e.id ==> StatusOf(r, id) == StatusOf(c, id)
    ensures Valid(c) && e.isMedia && e.id !in c.tracked ==>
              && (StatusOf(r, e.id) == TrackedOnly <==> !HasGainNode(r))
              && (StatusOf(r, e.id) == Connected <==> HasGainNode(r) && sourceOk)
              && (StatusOf(r, e.id) == Unavailable <==> HasGainNode(r) && !sourceOk)
    ensures c.audio.Some? ==> r.audio.Some? && r.audio.value.state == c.audio.value.state
    ensures HasGainNode(c) ==> HasGainNode(r)
    ensures e.isMedia && e.id !in c.tracked && c.audio.None? ==>
              && (r.audio.None? <==> outcome.ContextFails?)
              && (HasGainNode(r) <==> outcome.Created?)
    ensures e.isMedia && e.id !in c.tracked && c.audio.Some? ==> (HasGainNode(r) <==> HasGainNode(c))
    ensures r.resumes <= c.resumes + 1
    ensures r.resumes > c.resumes <==>
              e.isMedia && e.id !in c.tracked && HasGainNode(r) && sourceOk && r.audio.value.state == Suspended
    ensures r.gainValue == c.gainValue && r.enabled == c.enabled
    ensures Valid(c) ==> Valid(r)
  {
    if !e.isMedia || e.id in c.tracked then c
    else
      var withTracked := EnsureContext(c.(tracked := c.tracked + {e.id}), outcome);
      if !HasGainNode(withTracked) then withTracked
      else if !sourceOk then withTracked.(sources := withTracked.sources[e.id := NullSource])
      else ApplyGain(withTracked.(sources := withTracked.sources[e.id := SourceNode]))
  }

  /** Attaching the same element twice is attaching it once, whatever the
      platform does the second time. */
  lemma AttachIdempotent(c: Controller, e: Element, o1: ContextOutcome, s1: bool,
                         o2: ContextOutcome, s2: bool)
    ensures Attach(Attach(c, e, o1, s1), e, o2, s2) == Attach(c, e, o1, s1)
  {
  }

  /** The `play` listener registered on a connected element. */
  function OnPlay(c: Controller, id: ElementId): (r: Controller)
    ensures r.(resumes := c.resumes) == c
    ensures r.resumes > c.resumes <==>
              StatusOf(c, id) == Connected && c.audio.Some? && c.audio.value.state == Suspended
  {
    if id in c.tracked && id in c.sources && c.sources[id] == SourceNode then EnsureResumed(c) else c
  }

  /** Everything that can happen to a controller. */
  datatype Event =
    | Offer(e: Element, outcome: ContextOutcome, sourceOk: bool)  // initial scan or DOM observer
    | Play(id: ElementId)
    | ApplyMsg(gain: Num, enabled: bool)
    | ContextChanged(state: CtxState)                              // the browser suspends or resumes

  /** The browser moving an existing context between states. */
  function SetContextState(c: Controller, st: CtxState): (r: Controller)
    ensures r.(audio := c.audio) == c
    ensures c.audio.Some? ==> r.audio == Some(c.audio.value.(state := st))
    ensures c.audio.None? ==> r == c
  {
    if c.audio.Some? then c.(audio := Some(c.audio.value.(state := st))) else c
  }

  function Step(c: Controller, ev: Event): Controller {
    match ev
    case Offer(e, outcome, sourceOk) => Attach(c, e, outcome, sourceOk)
    case Play(id) => OnPlay(c, id)
    case ApplyMsg(gain, enabled) => OnApply(c, gain, enabled)
    case ContextChanged(st) => SetContextState(c, st)
  }

  function Run(c: Controller, evs: seq<Event>): Controller
    decreases |evs|
  {
    if |evs| == 0 then c else Run(Step(c, evs[0]), evs[1..])
  }

  /** One event never moves an element that was already seen. */
  lemma StepKeepsStatus(c: Controller, ev: Event, id: ElementId)
    requires StatusOf(c, id) != Unseen
    ensures StatusOf(Step(c, ev), id) == StatusOf(c, id)
  {
  }

  /** No retry: once an element has been seen, its status is final. */
  lemma {:induction false} RunKeepsStatus(c: Controller, evs: seq<Event>, id: ElementId)
    requires StatusOf(c, id) != Unseen
    ensures StatusOf(Run(c, evs), id) == StatusOf(c, id)
    decreases |evs|
  {
    if |evs| > 0 {
      StepKeepsStatus(c, evs[0], id);
      RunKeepsStatus(Step(c, evs[0]), evs[1..], id);
    }
  }

  lemma StepKeepsValid(c: Controller, ev: Event)
    requires Valid(c)
    ensures Valid(Step(c, ev))
  {
  }

  /** Every reachable controller is valid: whenever an element is connected,
      the gain node holds `enabled ? gainValue : 1`. */
  lemma {:induction false} RunKeepsValid(evs: seq<Event>, c: Controller)
    requires Valid(c)
    ensures Valid(Run(c, evs))
    decreases |evs|
  {
    if |evs| > 0 {
      StepKeepsValid(c, evs[0]);
      RunKeepsValid(evs[1..], Step(c, evs[0]));
    }
  }

  /** Once the context exists without a gain node, no later event creates one
      (the context is never rebuilt), so no element is ever connected. */
  lemma {:induction false} InertForever(c: Controller, evs: seq<Event>)
    requires Valid(c) && c.audio.Some? && !HasGainNode(c)
    ensures var r := Run(c, evs); r.audio.Some? && !HasGainNode(r) && SourceNode !in r.sources.Values
    decreases |evs|
  {
    if |evs| > 0 {
      StepKeepsValid(c, evs[0]);
      InertForever(Step(c, evs[0]), evs[1..]);
    }
  }

  /** The constructor's controller is valid and has seen nothing. */
  lemma InitialValid(id: ElementId)
    ensures Valid(Initial) && StatusOf(Initial, id) == Unseen
  {
  }
}
