/**
 * The Form.AutoGrow controller as objects: the shared hidden mirror, the
 * textarea it resizes, the class-level `resize` event, the timer queue of
 * delayed calls, and the controller itself.
 */
module AutoGrowControl {
  import opened Wrappers
  import opened Escaping
  import opened Sizing

  /** The style properties `focus` copies from the textarea onto the mirror. */
  datatype Style = Style(fontSize: string, fontFamily: string, width: string, lineHeight: string, padding: string)

  /** The controller's options; `maxHeight == None` is `null`. */
  datatype Options = Options(minHeightFactor: int, bindWithChange: bool, margin: int, maxHeight: Option<int>)

  /** The defaults every controller starts from before the caller's options are merged in. */
  const DefaultOptions := Options(2, true, 0, None)

  /**
   * The options a caller passes: an absent key is `None`; a `maxHeight`
   * given as `null` is `Some(None)`.
   */
  datatype GivenOptions = GivenOptions(minHeightFactor: Option<int>, bindWithChange: Option<bool>,
                                       margin: Option<int>, maxHeight: Option<Option<int>>)

  /** `setOptions`: every key the caller gives replaces the default; the others keep it. */
  function SetOptions(given: GivenOptions): Options
  {
    Options(
      if given.minHeightFactor.Some? then given.minHeightFactor.value else DefaultOptions.minHeightFactor,
      if given.bindWithChange.Some? then given.bindWithChange.value else DefaultOptions.bindWithChange,
      if given.margin.Some? then given.margin.value else DefaultOptions.margin,
      if given.maxHeight.Some? then given.maxHeight.value else DefaultOptions.maxHeight)
  }

  /**
   * The off-screen div that every controller on the page shares. `layout`
   * is the browser's rendering: the height of some markup under some style.
   */
  class Mirror {
    var style: Style
    var content: string
    const layout: (Style, string) -> nat

    constructor (layout: (Style, string) -> nat, initial: Style)
      ensures this.layout == layout && style == initial && content == []
    {
      this.layout := layout;
      style := initial;
      content := [];
    }

    /** `wrapper.getHeight()`. */
    function Height(): nat
      reads this
    {
      layout(style, content)
    }
  }

  /** The textarea: its value, its height (the last height written), its overflow style and scroll offset. */
  class Element {
    var value: string
    var height: int
    var overflowAuto: bool
    var scroll: (int, int)
    const style: Style
    const cssMaxHeight: string

    constructor (value: string, height: int, style: Style, cssMaxHeight: string)
      ensures this.value == value && this.height == height && !overflowAuto && scroll == (0, 0)
      ensures this.style == style && this.cssMaxHeight == cssMaxHeight
    {
      this.value := value;
      this.height := height;
      overflowAuto := false;
      scroll := (0, 0);
      this.style := style;
      this.cssMaxHeight := cssMaxHeight;
    }
  }

  /** The `resize` event fired on the AutoGrow class itself; each entry is the controller it carried. */
  class ResizeEvents {
    var fired: seq<AutoGrow>

    constructor ()
      ensures fired == []
    {
      fired := [];
    }
  }

  /**
   * The page's timers. Every delayed `resize` waits the same 15 ms, so they
   * fire in the order they were scheduled; nothing ever removes one early.
   */
  class Timers {
    var pending: seq<AutoGrow>

    constructor ()
      ensures pending == []
    {
      pending := [];
    }

    /** The oldest delayed call runs `resize` on the controller it was bound to, attached or not. */
    method RunNext()
      requires pending != []
      modifies this, pending[0].element, pending[0].mirror, pending[0].events
      ensures pending == old(pending[1..])
      ensures var g := old(pending[0]);
        g.element.value == old(g.element.value) && g.element.scroll == old(g.element.scroll) &&
        g.mirror.style == old(g.mirror.style) &&
        g.events.fired == old(g.events.fired) + (if |g.events.fired| == old(|g.events.fired|) then [] else [g]) &&
        g.Snapshot() == Step(old(g.Snapshot()), Transform(g.element.value),
                             g.mirror.layout(g.mirror.style, Transform(g.element.value)) + g.options.margin,
                             g.minHeight, g.options.maxHeight)
    {
      var g := pending[0];
      pending := pending[1..];
      g.Resize();
    }
  }

  /** The host events a controller subscribes to. */
  datatype FieldEvent = FocusEvent | KeyDownEvent | ChangeEvent | ScrollEvent

  class AutoGrow {
    const element: Element
    const mirror: Mirror
    const events: ResizeEvents
    const timers: Timers
    var options: Options
    var minHeight: int
    var attached: bool

    /** The part of the page `resize` reads and writes, as a value. */
    ghost function Snapshot(): View
      reads element, mirror, events
    {
      View(mirror.content, element.height, element.overflowAuto, |events.fired|)
    }

    /** `initialize` followed by `setup`: attach, then focus, then resize. */
    constructor (element: Element, mirror: Mirror, events: ResizeEvents, timers: Timers, given: GivenOptions)
      modifies element, mirror, events
      ensures this.element == element && this.mirror == mirror && this.events == events && this.timers == timers
      ensures attached
      ensures var merged := SetOptions(given);
        options == merged.(maxHeight := ResolveMaxHeight(merged.maxHeight, element.cssMaxHeight))
      ensures mirror.style == element.style && element.value == old(element.value)
      ensures element.scroll == old(element.scroll)
      ensures events.fired == old(events.fired) + if |events.fired| == old(|events.fired|) then [] else [this]
      ensures minHeight == MinHeightFloor(mirror.layout(element.style, "A"), options.margin, options.minHeightFactor)
      ensures Snapshot() == Step(View("A", old(element.height), old(element.overflowAuto), old(|events.fired|)),
                                 Transform(element.value),
                                 mirror.layout(element.style, Transform(element.value)) + options.margin,
                                 minHeight, this.options.maxHeight)
    {
      this.element := element;
      this.mirror := mirror;
      this.events := events;
      this.timers := timers;
      options := SetOptions(given);
      minHeight := 0;
      attached := false;
      new;
      Attach();
      Focus();
      Resize();
    }

    /** `attach`: subscribe to the field's events and resolve `maxHeight`. */
    method Attach()
      modifies this`attached, this`options
      ensures attached
      ensures options == old(options).(maxHeight := ResolveMaxHeight(old(options.maxHeight), element.cssMaxHeight))
    {
      attached := true;
      var maxHeight := ResolveMaxHeight(options.maxHeight, element.cssMaxHeight);
      options := options.(maxHeight := maxHeight);
    }

    /** `detach`: unsubscribe; delayed calls already scheduled stay scheduled. */
    method Detach()
      modifies this`attached
      ensures !attached
      ensures timers.pending == old(timers.pending)
    {
      attached := false;
    }

    /** `focus`: copy the field's style onto the mirror and measure one filler glyph. */
    method Focus()
      modifies this`minHeight, mirror
      ensures mirror.style == element.style && mirror.content == "A"
      ensures minHeight == MinHeightFloor(mirror.layout(element.style, "A"), options.margin, options.minHeightFactor)
    {
      mirror.style := element.style;
      mirror.content := "A";
      var lineHeight := mirror.Height();
      minHeight := (lineHeight + options.margin) * options.minHeightFactor;
    }

    /** `keydown` (and `change`): schedule one `resize` 15 ms later. */
    method KeyDown()
      modifies timers
      ensures timers.pending == old(timers.pending) + [this]
    {
      timers.pending := timers.pending + [this];
    }

    /** `resize`: remeasure the value in the mirror and apply the clamped height. */
    method Resize()
      modifies element, mirror, events
      ensures element.value == old(element.value) && element.scroll == old(element.scroll)
      ensures mirror.style == old(mirror.style)
      ensures Snapshot() == Step(old(Snapshot()), Transform(element.value),
                                 mirror.layout(mirror.style, Transform(element.value)) + options.margin,
                                 minHeight, options.maxHeight)
      ensures events.fired == old(events.fired) + if |events.fired| == old(|events.fired|) then [] else [this]
    {
      var html := Transform(element.value);
      if mirror.content == html {
        return;
      }
      mirror.content := html;
      var height := mirror.Height() + options.margin;
      if element.height != height {
        var finalHeight := if minHeight >= height then minHeight else height;
        if IsTruthy(options.maxHeight) && finalHeight > options.maxHeight.value {
          finalHeight := options.maxHeight.value;
          element.overflowAuto := true;
        } else {
          element.overflowAuto := false;
        }
        element.height := finalHeight;
        events.fired := events.fired + [this];
      }
    }

    /** `scroll`: snap back to the top when the field is below a truthy cap. */
    method Scroll()
      modifies element`scroll
      ensures ScrollResets(options.maxHeight, element.height) ==> element.scroll == (0, 0)
      ensures !ScrollResets(options.maxHeight, element.height) ==> element.scroll == old(element.scroll)
    {
      if IsTruthy(options.maxHeight) && element.height < options.maxHeight.value {
        element.scroll := (0, 0);
      }
    }

    /**
     * A host event reaching the handlers `attach` registered: `change` runs
     * the `keydown` handler only when `bindWithChange` is set; after
     * `detach` nothing runs.
     */
    method Dispatch(e: FieldEvent)
      modifies this`minHeight, mirror, timers, element`scroll
      ensures !attached ==> minHeight == old(minHeight) && unchanged(mirror, timers, element)
      ensures attached && e.FocusEvent? ==>
        mirror.style == element.style && mirror.content == "A" &&
        minHeight == MinHeightFloor(mirror.layout(element.style, "A"), options.margin, options.minHeightFactor)
      ensures timers.pending == old(timers.pending) +
        if attached && (e.KeyDownEvent? || (e.ChangeEvent? && options.bindWithChange)) then [this] else []
      ensures element.scroll == if attached && e.ScrollEvent? && ScrollResets(options.maxHeight, element.height)
        then (0, 0) else old(element.scroll)
      ensures !e.FocusEvent? ==> minHeight == old(minHeight) && unchanged(mirror)
    {
      if !attached {
        return;
      }
      match e
      case FocusEvent => Focus();
      case KeyDownEvent => KeyDown();
      case ChangeEvent =>
        if options.bindWithChange {
          KeyDown();
        }
      case ScrollEvent => Scroll();
    }
  }
}
