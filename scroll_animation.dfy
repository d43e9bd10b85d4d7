/** `src/hooks/useScrollAnimation.ts`: the visibility tracker driven by
    intersection events (`useScrollAnimation`), and the two pure style
    mappers `getAnimationStyles` and `getStaggerStyles`. */
module ScrollAnimation {
  import opened Wrappers
  import opened Text

  /** The options object of `useScrollAnimation`; each property may be absent. */
  datatype TrackerOptions = TrackerOptions(threshold: Option<real>, rootMargin: Option<string>, triggerOnce: Option<bool>)

  /** The options after destructuring with their defaults. */
  datatype ResolvedOptions = ResolvedOptions(threshold: real, rootMargin: string, triggerOnce: bool)

  /** The options with their defaults filled in: threshold 0.1, root margin
      of zero pixels, and one-shot unless told otherwise. */
  function Resolve(o: TrackerOptions): (r: ResolvedOptions)
    ensures o.threshold.Some? ==> r.threshold == o.threshold.value
    ensures o.threshold.None? ==> r.threshold == 0.1
    ensures o.rootMargin.Some? ==> r.rootMargin == o.rootMargin.value
    ensures o.rootMargin.None? ==> r.rootMargin == "0px"
    ensures o.triggerOnce.Some? ==> r.triggerOnce == o.triggerOnce.value
    ensures o.triggerOnce.None? ==> r.triggerOnce
  {
    ResolvedOptions(o.threshold.GetOr(0.1), o.rootMargin.GetOr("0px"), o.triggerOnce.GetOr(true))
  }

  /** The visibility after one observer callback: an intersecting entry
      sets it; a non-intersecting one clears it only without `triggerOnce`. */
  function NextVisible(triggerOnce: bool, visible: bool, isIntersecting: bool): bool {
    if isIntersecting then true
    else if !triggerOnce then false
    else visible
  }

  /** The visibility after a run of callbacks, each given by the first entry
      of its batch. */
  function Replay(triggerOnce: bool, visible: bool, events: seq<bool>): bool
    decreases |events|
  {
    if events == [] then visible
    else Replay(triggerOnce, NextVisible(triggerOnce, visible, events[0]), events[1..])
  }

  /** With `triggerOnce`, the flag is a latch: it is set after a run exactly
      when it was set before or some event intersected, so once visible it
      stays visible. */
  lemma {:induction false} ReplayLatches(visible: bool, events: seq<bool>)
    ensures Replay(true, visible, events) == (visible || true in events)
    decreases |events|
  {
    if events != [] {
      ReplayLatches(NextVisible(true, visible, events[0]), events[1..]);
      assert events == [events[0]] + events[1..];
    }
  }

  /** Without `triggerOnce`, the flag follows the last event. */
  lemma {:induction false} ReplayFollowsLastEvent(visible: bool, events: seq<bool>)
    requires events != []
    ensures Replay(false, visible, events) == events[|events| - 1]
    decreases |events|
  {
    if |events| > 1 {
      ReplayFollowsLastEvent(NextVisible(false, visible, events[0]), events[1..]);
    }
  }

  /** The state `useScrollAnimation` keeps for one tracked element. */
  class VisibilityTracker {
    const options: ResolvedOptions
    var isVisible: bool
    /** The element is registered with the observer. */
    var observing: bool

    /** Mounting: `isVisible` starts false, and the element (when the ref
        holds one) is observed. */
    constructor (o: TrackerOptions, hasElement: bool)
      ensures options == Resolve(o) && !isVisible && observing == hasElement
    {
      options := Resolve(o);
      isVisible := false;
      observing := hasElement;
    }

    /** One invocation of the observer callback with the batch of entries
        the observer delivers (never empty). The callback destructures only
        the first entry; the others of the batch are ignored. With
        `triggerOnce`, an intersecting entry also unobserves the element. */
    method OnIntersection(entries: seq<bool>)
      requires observing && |entries| >= 1
      modifies this
      ensures isVisible == NextVisible(options.triggerOnce, old(isVisible), entries[0])
      ensures observing == !(entries[0] && options.triggerOnce)
      ensures old(isVisible) && options.triggerOnce ==> isVisible
      ensures !options.triggerOnce ==> isVisible == entries[0]
    {
      var isIntersecting := entries[0];
      if isIntersecting {
        isVisible := true;
        if options.triggerOnce {
          observing := false;
        }
      } else if !options.triggerOnce {
        isVisible := false;
      }
    }

    /** The effect's cleanup on unmount: the element is unobserved. */
    method Unmount()
      modifies this
      ensures !observing && isVisible == old(isVisible)
    {
      observing := false;
    }
  }

  /** An inline style: `opacity`, an optional `transform`, and `transition`. */
  datatype Style = Style(opacity: int, transform: Option<string>, transition: string)

  /** The CSS transition of every property over `duration` milliseconds,
      with the standard ease-in-out curve, starting after `delay` milliseconds. */
  function Transition(duration: nat, delay: nat): string {
    "all " + NatToString(duration) + "ms cubic-bezier(0.4, 0, 0.2, 1) " + NatToString(delay) + "ms"
  }

  /** `getAnimationStyles(isVisible, animation, duration, delay)`. An
      animation name outside the eight known ones gets opacity and transition
      only. */
  function AnimationStyles(isVisible: bool, animation: string, duration: nat, delay: nat): (s: Style)
    ensures s.opacity == (if isVisible then 1 else 0)
    ensures s.transition == Transition(duration, delay)
  {
    var opacity := if isVisible then 1 else 0;
    var transition := Transition(duration, delay);
    match animation
    case "fade-up" => Style(opacity, Some(if isVisible then "translateY(0)" else "translateY(40px)"), transition)
    case "fade-down" => Style(opacity, Some(if isVisible then "translateY(0)" else "translateY(-40px)"), transition)
    case "fade-left" => Style(opacity, Some(if isVisible then "translateX(0)" else "translateX(40px)"), transition)
    case "fade-right" => Style(opacity, Some(if isVisible then "translateX(0)" else "translateX(-40px)"), transition)
    case "zoom-in" => Style(opacity, Some(if isVisible then "scale(1)" else "scale(0.9)"), transition)
    case "zoom-out" => Style(opacity, Some(if isVisible then "scale(1)" else "scale(1.1)"), transition)
    case "flip-up" =>
      Style(opacity, Some(if isVisible then "perspective(1000px) rotateX(0)" else "perspective(1000px) rotateX(10deg)"), transition)
    case "flip-down" =>
      Style(opacity, Some(if isVisible then "perspective(1000px) rotateX(0)" else "perspective(1000px) rotateX(-10deg)"), transition)
    case _ => Style(opacity, None, transition)
  }

  /** The closed set of animation kinds. */
  datatype AnimationKind = FadeUp | FadeDown | FadeLeft | FadeRight | ZoomIn | ZoomOut | FlipUp | FlipDown

  /** The name a component passes for each kind. */
  function KindName(k: AnimationKind): string {
    match k
    case FadeUp => "fade-up"
    case FadeDown => "fade-down"
    case FadeLeft => "fade-left"
    case FadeRight => "fade-right"
    case ZoomIn => "zoom-in"
    case ZoomOut => "zoom-out"
    case FlipUp => "flip-up"
    case FlipDown => "flip-down"
  }

  /** The rest position each kind moves into: the identity of its transform. */
  function IdentityTransform(k: AnimationKind): string {
    match k
    case FadeUp | FadeDown => "translateY(0)"
    case FadeLeft | FadeRight => "translateX(0)"
    case ZoomIn | ZoomOut => "scale(1)"
    case FlipUp | FlipDown => "perspective(1000px) rotateX(0)"
  }

  /** The offset position each kind starts from while hidden. */
  function HiddenTransform(k: AnimationKind): string {
    match k
    case FadeUp => "translateY(40px)"
    case FadeDown => "translateY(-40px)"
    case FadeLeft => "translateX(40px)"
    case FadeRight => "translateX(-40px)"
    case ZoomIn => "scale(0.9)"
    case ZoomOut => "scale(1.1)"
    case FlipUp => "perspective(1000px) rotateX(10deg)"
    case FlipDown => "perspective(1000px) rotateX(-10deg)"
  }

  /** Each known kind moves from its hidden offset to its identity transform. */
  lemma KnownKindTransforms(isVisible: bool, k: AnimationKind, duration: nat, delay: nat)
    ensures AnimationStyles(isVisible, KindName(k), duration, delay).transform
         == Some(if isVisible then IdentityTransform(k) else HiddenTransform(k))
  {
  }

  /** A name that is none of the eight kinds gets no transform. */
  lemma UnknownKindHasNoTransform(isVisible: bool, animation: string, duration: nat, delay: nat)
    requires forall k: AnimationKind :: KindName(k) != animation
    ensures AnimationStyles(isVisible, animation, duration, delay)
         == Style(if isVisible then 1 else 0, None, Transition(duration, delay))
  {
    assert KindName(FadeUp) != animation && KindName(FadeDown) != animation;
    assert KindName(FadeLeft) != animation && KindName(FadeRight) != animation;
    assert KindName(ZoomIn) != animation && KindName(ZoomOut) != animation;
    assert KindName(FlipUp) != animation && KindName(FlipDown) != animation;
  }

  /** The delay written into a transition is the one given: it reads back
      from the text after the easing curve. */
  lemma TransitionCarriesDelay(duration: nat, delay: nat)
    ensures var s := Transition(duration, delay);
            var prefix := "all " + NatToString(duration) + "ms cubic-bezier(0.4, 0, 0.2, 1) ";
            && |s| == |prefix| + |NatToString(delay)| + 2
            && s[|prefix|..|s| - 2] == NatToString(delay)
            && DecimalValue(s[|prefix|..|s| - 2]) == delay
  {
    DecimalRoundTrip(delay);
  }

  /** `getStaggerStyles(isVisible, index, staggerDelay)`: the fade-up pair
      with a 30px offset, a fixed 500 ms duration and a delay of
      `index * staggerDelay` (its template string is `Transition(500, ...)`). */
  function StaggerStyles(isVisible: bool, index: nat, staggerDelay: nat): Style {
    Style(if isVisible then 1 else 0,
          Some(if isVisible then "translateY(0)" else "translateY(30px)"),
          Transition(500, index * staggerDelay))
  }

  /** A staggered child is a fade-up of 500 ms delayed by its index times the
      stagger: identical once visible, and starting from a shorter offset
      (30px instead of 40px) while hidden. Its delay reads back from the
      transition text. */
  lemma StaggerIsShortFadeUp(isVisible: bool, index: nat, staggerDelay: nat)
    ensures var s := StaggerStyles(isVisible, index, staggerDelay);
            var f := AnimationStyles(isVisible, KindName(FadeUp), 500, index * staggerDelay);
            && s.opacity == f.opacity && s.transition == f.transition
            && (isVisible ==> s == f)
            && (!isVisible ==> s.transform == Some("translateY(30px)") && f.transform == Some(HiddenTransform(FadeUp)))
    ensures var t := StaggerStyles(isVisible, index, staggerDelay).transition;
            var prefix := "all " + NatToString(500) + "ms cubic-bezier(0.4, 0, 0.2, 1) ";
            DecimalValue(t[|prefix|..|t| - 2]) == index * staggerDelay
  {
    KnownKindTransforms(isVisible, FadeUp, 500, index * staggerDelay);
    TransitionCarriesDelay(500, index * staggerDelay);
  }
}
