/**
 * The arithmetic and decisions of Form.AutoGrow's `focus`, `resize`,
 * `scroll` and `attach`, stated on values. The class in module
 * AutoGrowControl is proved to follow these functions.
 */
module Sizing {
  import opened Wrappers
  import opened JsParseInt
  import opened Escaping

  /** JavaScript truthiness of a number that may be `null` or `NaN`: `null`, `NaN` and `0` are false. */
  predicate IsTruthy(x: Option<int>)
  {
    x.Some? && x.value != 0
  }

  /** `focus`: one filler line's height plus the margin, times the factor. */
  function MinHeightFloor(lineHeight: int, margin: int, factor: int): (r: int)
    ensures r == factor * lineHeight + factor * margin
    ensures factor >= 1 && lineHeight + margin >= 0 ==> r >= lineHeight + margin
  {
    (lineHeight + margin) * factor
  }

  /**
   * `attach`: an explicit `maxHeight` option is kept; a `null` one takes the
   * element's `max-height` style when `toInt()` of it is truthy, and stays
   * `null` otherwise.
   */
  function ResolveMaxHeight(explicit: Option<int>, cssMaxHeight: string): (r: Option<int>)
    ensures explicit.Some? ==> r == explicit
    ensures explicit.None? ==> r.None? || (IsTruthy(r) && r == ParseInt(cssMaxHeight))
    ensures explicit.None? && IsTruthy(ParseInt(cssMaxHeight)) ==> r.Some?
  {
    if explicit.None? && IsTruthy(ParseInt(cssMaxHeight)) then ParseInt(cssMaxHeight) else explicit
  }

  /** A pixel `max-height` style becomes the cap when no option was given. */
  lemma ResolvePixelMaxHeight(n: nat)
    requires n > 0
    ensures ResolveMaxHeight(None, NatToString(n) + "px") == Some(n)
  {
    ParseIntOfLength(n, "px");
  }

  /** `max-height: none`, and a zero length, leave the field unconstrained. */
  lemma ResolveUnconstrained()
    ensures ResolveMaxHeight(None, "none") == None
    ensures ResolveMaxHeight(None, "0px") == None
  {
    ParseIntOfKeyword("none");
    ParseIntOfLength(0, "px");
  }

  /** The height and overflow style `resize` writes. */
  datatype Applied = Applied(height: int, overflowAuto: bool)

  /**
   * `resize`'s clamp: the larger of the floor and the measured height, cut
   * down to a truthy `maxHeight`, in which case the field scrolls.
   */
  function Clamp(minHeight: int, measured: int, maxHeight: Option<int>): (a: Applied)
    ensures IsTruthy(maxHeight) ==> a.height <= maxHeight.value
    ensures a.overflowAuto <==> IsTruthy(maxHeight) && (minHeight > maxHeight.value || measured > maxHeight.value)
    ensures a.overflowAuto ==> a.height == maxHeight.value
    ensures !a.overflowAuto ==> minHeight <= a.height && measured <= a.height
    ensures !a.overflowAuto ==> a.height == minHeight || a.height == measured
  {
    var h := if minHeight >= measured then minHeight else measured;
    if IsTruthy(maxHeight) && h > maxHeight.value then Applied(maxHeight.value, true) else Applied(h, false)
  }

  /** The cap wins over the floor when the two disagree. */
  lemma ClampBeatsFloor(minHeight: int, measured: int, cap: int)
    requires cap != 0 && minHeight > cap
    ensures Clamp(minHeight, measured, Some(cap)) == Applied(cap, true)
  {
  }

  /**
   * What a controller's `resize` observes and changes: the shared mirror's
   * markup, the element's height and overflow, and how many `resize` events
   * have fired.
   */
  datatype View = View(mirror: string, height: int, overflowAuto: bool, events: nat)

  /**
   * One `resize` call: `html` is the transformed value, `measured` the
   * mirror's height for it plus the margin.
   */
  function Step(v: View, html: string, measured: int, minHeight: int, maxHeight: Option<int>): (w: View)
    ensures w.mirror == html
    ensures w.events == v.events || w.events == v.events + 1
    ensures w.events == v.events ==> w.height == v.height && w.overflowAuto == v.overflowAuto
    ensures w.events != v.events ==> v.mirror != html && v.height != measured
    ensures IsTruthy(maxHeight) && w.events != v.events ==> w.height <= maxHeight.value
  {
    if v.mirror == html then v
    else if v.height == measured then v.(mirror := html)
    else
      var a := Clamp(minHeight, measured, maxHeight);
      View(html, a.height, a.overflowAuto, v.events + 1)
  }

  /** Cache hit: when the mirror already holds the markup, nothing changes. */
  lemma CacheHit(v: View, html: string, measured: int, minHeight: int, maxHeight: Option<int>)
    requires v.mirror == html
    ensures Step(v, html, measured, minHeight, maxHeight) == v
  {
  }

  /** No-op guard: a measured height equal to the current one only rewrites the mirror. */
  lemma SameHeight(v: View, html: string, measured: int, minHeight: int, maxHeight: Option<int>)
    requires v.mirror != html && v.height == measured
    ensures Step(v, html, measured, minHeight, maxHeight) == v.(mirror := html)
  {
  }

  /** Otherwise the clamped height is applied and exactly one event fires. */
  lemma AppliesClamp(v: View, html: string, measured: int, minHeight: int, maxHeight: Option<int>)
    requires v.mirror != html && v.height != measured
    ensures var a := Clamp(minHeight, measured, maxHeight);
      Step(v, html, measured, minHeight, maxHeight) == View(html, a.height, a.overflowAuto, v.events + 1)
  {
  }

  /** A field already within a truthy cap stays within it. */
  lemma StepKeepsCeiling(v: View, html: string, measured: int, minHeight: int, maxHeight: Option<int>)
    requires IsTruthy(maxHeight) && v.height <= maxHeight.value
    ensures Step(v, html, measured, minHeight, maxHeight).height <= maxHeight.value
  {
  }

  /**
   * The floor is not kept: the no-op guard compares with the measured height,
   * so a field whose height equals an under-floor measurement stays under the floor.
   */
  lemma FloorNotKept(v: View, html: string, measured: int, minHeight: int, maxHeight: Option<int>)
    requires v.mirror != html && v.height == measured && measured < minHeight
    ensures Step(v, html, measured, minHeight, maxHeight).height < minHeight
  {
  }

  /**
   * The cache is the mirror every controller shares. When controller `a`
   * writes markup `html` and controller `b`'s value transforms to the same
   * markup, `b`'s resize is a cache hit: `b`'s field keeps its height, and
   * no event fires, whatever `b`'s own style would have measured.
   */
  lemma SharedMirrorStaleHit(a: View, html: string, measuredA: int, minA: int, maxA: Option<int>,
                             heightB: int, overflowB: bool, measuredB: int, minB: int, maxB: Option<int>)
    ensures var afterA := Step(a, html, measuredA, minA, maxA);
      var b := View(afterA.mirror, heightB, overflowB, afterA.events);
      Step(b, html, measuredB, minB, maxB) == b && b.height == heightB
  {
  }

  /**
   * An event can fire without a change of height: when the floor dominates,
   * every new markup that still measures under the floor re-applies the floor.
   */
  lemma EventWithoutResize(v: View, html: string, measured: int, minHeight: int)
    requires v.mirror != html && measured < minHeight && v.height == minHeight
    ensures Step(v, html, measured, minHeight, None) == v.(mirror := html, overflowAuto := false, events := v.events + 1)
  {
  }

  /**
   * The pending resize calls that several key presses scheduled, run one
   * after the other on the same value; `measures[i]` is what the mirror
   * would report at the i-th call.
   */
  function RunPending(v: View, html: string, measures: seq<int>, minHeight: int, maxHeight: Option<int>): View
    decreases |measures|
  {
    if measures == [] then v
    else RunPending(Step(v, html, measures[0], minHeight, maxHeight), html, measures[1..], minHeight, maxHeight)
  }

  /**
   * However many resizes are pending for an unchanged value, only the first
   * can do anything: the rest are cache hits.
   */
  lemma {:induction false} PendingResizesCollapse(v: View, html: string, measures: seq<int>, minHeight: int, maxHeight: Option<int>)
    requires measures != []
    ensures RunPending(v, html, measures, minHeight, maxHeight) == Step(v, html, measures[0], minHeight, maxHeight)
    ensures RunPending(v, html, measures, minHeight, maxHeight).events <= v.events + 1
    decreases |measures|
  {
    var w := Step(v, html, measures[0], minHeight, maxHeight);
    if |measures| > 1 {
      PendingResizesCollapse(w, html, measures[1..], minHeight, maxHeight);
      assert Step(w, html, measures[1], minHeight, maxHeight) == w;
    }
  }

  /**
   * A literal `&lt;` typed where a `<` stood yields the same markup, so the
   * resize after that edit is a cache hit.
   */
  lemma AmpersandEditIsCacheHit(v: View, measured: int, minHeight: int, maxHeight: Option<int>)
    requires v.mirror == Transform("<")
    ensures Step(v, Transform("&lt;"), measured, minHeight, maxHeight) == v
  {
    AmpersandCollision();
  }

  /** `scroll`: the offset is reset exactly when a truthy cap is not reached. */
  predicate ScrollResets(maxHeight: Option<int>, height: int)
  {
    IsTruthy(maxHeight) && height < maxHeight.value
  }

  /** An explicit `maxHeight` of 0 is falsy: `resize` does not clamp and `scroll` never resets. */
  lemma ZeroMaxHeightIsNoCap(minHeight: int, measured: int, height: int)
    ensures Clamp(minHeight, measured, Some(0)) == Clamp(minHeight, measured, None)
    ensures !ScrollResets(Some(0), height)
  {
  }

  /** A field that `resize` left scrolling is never snapped back to the top. */
  lemma ScrollingFieldKeepsOffset(minHeight: int, measured: int, maxHeight: Option<int>)
    ensures Clamp(minHeight, measured, maxHeight).overflowAuto ==> !ScrollResets(maxHeight, Clamp(minHeight, measured, maxHeight).height)
  {
  }

  /** A single line of 20px with factor 2 gets the 40px floor. */
  lemma ScenarioFloor()
    ensures MinHeightFloor(20, 0, 2) == 40
    ensures Clamp(MinHeightFloor(20, 0, 2), 20, None) == Applied(40, false)
  {
  }

  /**
   * With a 100px cap, text of 150px is clamped and scrolls; shrinking it to
   * 60px removes the scroll bar, and a later scroll is snapped back.
   */
  lemma ScenarioCapThenShrink(v: View, long: string, short: string)
    requires v.mirror != long && v.height != 150 && long != short
    ensures var w := Step(v, long, 150, 40, Some(100));
      w.height == 100 && w.overflowAuto &&
      var x := Step(w, short, 60, 40, Some(100));
      x.height == 60 && !x.overflowAuto && x.events == v.events + 2 && ScrollResets(Some(100), x.height)
  {
  }
}
