/** `src/components/ScrollReveal.tsx`: the two wrapping components. Both
    read one tracker's flag and compute inline styles; neither has state of
    its own, so each is a function of its props and the flag. */
module ScrollReveal {
  import opened Wrappers
  import opened ScrollAnimation

  /** The optional props of `ScrollReveal` (children and className are not styled). */
  datatype RevealProps = RevealProps(animation: Option<string>, delay: Option<nat>, duration: Option<nat>, threshold: Option<real>)

  /** The options `ScrollReveal` passes to its tracker: only the threshold. */
  function RevealTrackerOptions(p: RevealProps): (o: TrackerOptions)
    ensures Resolve(o) == ResolvedOptions(p.threshold.GetOr(0.1), "0px", true)
  {
    TrackerOptions(Some(p.threshold.GetOr(0.1)), None, None)
  }

  /** The inline style of the `ScrollReveal` container. */
  function RevealStyle(p: RevealProps, isVisible: bool): Style {
    AnimationStyles(isVisible, p.animation.GetOr("fade-up"), p.duration.GetOr(600), p.delay.GetOr(0))
  }

  /** With no props given, `ScrollReveal` fades up over 600 ms with no delay,
      and its tracker is one-shot with threshold 0.1. */
  lemma RevealDefaults(isVisible: bool)
    ensures var p := RevealProps(None, None, None, None);
            && RevealStyle(p, isVisible) == AnimationStyles(isVisible, "fade-up", 600, 0)
            && RevealStyle(p, isVisible).transform == Some(if isVisible then "translateY(0)" else "translateY(40px)")
            && Resolve(RevealTrackerOptions(p)) == ResolvedOptions(0.1, "0px", true)
  {
    KnownKindTransforms(isVisible, FadeUp, 600, 0);
  }

  /** A child node: a React element, or anything else (text, number, null). */
  datatype Child = Element(tag: string) | Other(text: string)

  /** What `React.Children.map` returns for one child: the element wrapped
      in a styled `div`, or the child itself. */
  datatype Rendered = Wrapped(style: Style, child: Child) | Unwrapped(child: Child)

  /** The callback of `StaggerContainer`'s `React.Children.map`. */
  function WrapChild(child: Child, index: nat, isVisible: bool, staggerDelay: nat): Rendered {
    if child.Element? then
      Wrapped(Style(if isVisible then 1 else 0,
                    Some(if isVisible then "translateY(0)" else "translateY(30px)"),
                    Transition(500, index * staggerDelay)),
              child)
    else
      Unwrapped(child)
  }

  /** The children of `StaggerContainer` under its single visibility flag. */
  function StaggerChildren(children: seq<Child>, isVisible: bool, staggerDelay: nat): (out: seq<Rendered>)
    ensures |out| == |children|
    ensures forall i :: 0 <= i < |children| ==> out[i].child == children[i]
    ensures forall i :: 0 <= i < |children| ==> (out[i].Wrapped? <==> children[i].Element?)
  {
    seq(|children|, i requires 0 <= i < |children| => WrapChild(children[i], i, isVisible, staggerDelay))
  }

  /** `StaggerContainer`: `staggerDelay` defaults to 100. */
  function StaggerContainer(children: seq<Child>, staggerDelay: Option<nat>, isVisible: bool): seq<Rendered> {
    StaggerChildren(children, isVisible, staggerDelay.GetOr(100))
  }

  /** The options `StaggerContainer` passes to its tracker: a threshold of
      0.1 and nothing else, so it is one-shot with a zero root margin, like
      a `ScrollReveal` left at its defaults. */
  function StaggerTrackerOptions(): (o: TrackerOptions)
    ensures Resolve(o) == ResolvedOptions(0.1, "0px", true)
    ensures Resolve(o) == Resolve(RevealTrackerOptions(RevealProps(None, None, None, None)))
  {
    TrackerOptions(Some(0.1), None, None)
  }

  /** The inline style of each element child is `getStaggerStyles` at the
      child's index, and all of them share one opacity and one transform. */
  lemma StaggerStylesPerChild(children: seq<Child>, isVisible: bool, staggerDelay: nat)
    ensures var out := StaggerChildren(children, isVisible, staggerDelay);
            && (forall i :: 0 <= i < |children| && children[i].Element? ==>
                  out[i].style == StaggerStyles(isVisible, i, staggerDelay))
            && (forall i, j :: 0 <= i < |children| && 0 <= j < |children| && out[i].Wrapped? && out[j].Wrapped? ==>
                  out[i].style.opacity == out[j].style.opacity && out[i].style.transform == out[j].style.transform)
  {
    var out := StaggerChildren(children, isVisible, staggerDelay);
    forall i | 0 <= i < |children| && children[i].Element?
      ensures out[i].style == StaggerStyles(isVisible, i, staggerDelay)
    {
      assert out[i] == WrapChild(children[i], i, isVisible, staggerDelay);
    }
  }

  /** Three elements under the default stagger get delays of 0, 100 and 200 ms. */
  lemma ThreeChildrenStagger(a: string, b: string, c: string, isVisible: bool)
    ensures var out := StaggerContainer([Element(a), Element(b), Element(c)], None, isVisible);
            && |out| == 3
            && out[0].Wrapped? && out[1].Wrapped? && out[2].Wrapped?
            && out[0].style.transition == Transition(500, 0)
            && out[1].style.transition == Transition(500, 100)
            && out[2].style.transition == Transition(500, 200)
  {
    var out := StaggerContainer([Element(a), Element(b), Element(c)], None, isVisible);
    assert out[1] == WrapChild(Element(b), 1, isVisible, 100);
    assert out[2] == WrapChild(Element(c), 2, isVisible, 100);
  }
}
