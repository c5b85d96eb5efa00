# Form.AutoGrow in Dafny

A model of Form.AutoGrow, a MooTools class that grows and shrinks a textarea
to fit its text. It measures the text by writing it, as markup, into one
hidden `div` that every AutoGrow instance on the page shares (the *mirror*),
and then reading that div's height.

The model has two halves:

- **The text transform** (`escaping.dfy`, module `Escaping`): `escapeHTML`
  turns `<`, `>` and `"` into entities and leaves `&` alone. It is modelled
  exactly as written, as three chained global replacements, and is proved
  equal to a per-character reference. The rewrite `/\n|\r\n/g → <br/>A` is
  modelled as the left-to-right scan a global regular-expression replace
  performs. Their composition `Transform` is proved to lose nothing but the
  spelling of line terminators, for text without `&`. The `&` collision
  (`<` and `&lt;` give the same markup) is proved too.
- **The resize controller** (`sizing.dfy`, module `Sizing`, pure; and
  `autogrow.dfy`, module `AutoGrowControl`, classes). `focus` computes the
  floor. `resize` has a cache check against the mirror's content, a no-op
  guard on the measured height, and a clamp with an overflow flag. `scroll`
  resets the scroll offset. `attach` resolves `maxHeight` from the
  element's `max-height` style through `parseInt` (`js_parse_int.dfy`). The
  classes follow the source's own objects:
  - `Mirror` is the shared div. Its `layout` stands for the browser's
    rendering and is left uninterpreted.
  - `Element` is the textarea.
  - `ResizeEvents` is the class-level `resize` event.
  - `Timers` is the queue of delayed calls.
  - `AutoGrow` is the controller.

  Each method's `ensures` ties the new state to the pure functions in
  `Sizing`. The properties are lemmas about those functions.

JavaScript truthiness is written out (`Sizing.IsTruthy`). `null`, `NaN` and
`0` are false, so an explicit `maxHeight` of 0 means "no cap" in `resize` and
`scroll`. A negative explicit `maxHeight` is truthy and does cap.

Three things the code does that are easy to misread:

- There is no debounce. Each key press (and each `change`, when
  `bindWithChange` is set) queues its own delayed `resize`, and `detach`
  cancels none of them. Repeated calls become no-ops only through the cache
  check (`Sizing.PendingResizesCollapse`), and only when nothing else writes
  the shared mirror between them.
- `minHeight <= height <= maxHeight` is not an invariant. The cap beats the
  floor (`Sizing.ClampBeatsFloor`). The no-op guard compares the element's
  height with the *measured* height, not the final one, so a height below
  the floor can stay (`Sizing.FloorNotKept`). For the same reason a `resize`
  event can fire with the height unchanged (`Sizing.EventWithoutResize`).
- The cache is the shared mirror, not per controller. After `focus` writes
  the filler glyph `A` into the mirror, or after another controller
  measures different markup, the next `resize` remeasures. A field whose
  value is exactly `A` gets a cache hit right after `focus`. When another
  controller has just written the same markup, the `resize` is a cache hit
  too: the field is never measured under its own style and keeps its height
  (`Sizing.SharedMirrorStaleHit`).

## Model

| member | source | states |
|---|---|---|
| `Escaping.ReplaceAll` | Source/Form.AutoGrow.js:31 | a global one-character replace removes that character when the replacement lacks it, and neither adds nor removes any other character that is not in the replacement |
| `Escaping.EscapeHtml` | Source/Form.AutoGrow.js:30-32 | the escaped text contains no `<`, `>` or `"` |
| `Escaping.EscapeHtmlIsPerCharacter` | Source/Form.AutoGrow.js:30-32 | the three chained replacements equal escaping each character on its own, in order: `<`, `>`, `"` become `&lt;`, `&gt;`, `&quot;`, and every other character, `&` included, is copied unchanged |
| `Escaping.UnescapeEscape` | Source/Form.AutoGrow.js:30-32 | on text without `&`, decoding the three entities gives the original text back |
| `Escaping.AmpersandCollision` | Source/Form.AutoGrow.js:31 | because `&` is not escaped, `&lt;` and `<` escape to the same markup |
| `Escaping.BreakLines` | Source/Form.AutoGrow.js:109 | after the line-break rewrite no `\n` remains, and every character of the result comes from the input or from the inserted `<br/>A` |
| `Escaping.UnbreakBreakLines` | Source/Form.AutoGrow.js:109 | on text without `<` (all escaped text), turning each `<br/>A` back into `\n` undoes the rewrite, up to `\r\n` becoming `\n`; a lone `\r` is kept |
| `Escaping.Transform` | Source/Form.AutoGrow.js:109 | the markup written into the mirror contains no `\n` and no `"` |
| `Escaping.TransformRoundTrip` | Source/Form.AutoGrow.js:109 | for a value without `&`, the mirror markup determines the value up to the spelling of its line terminators; the inserted `<br/>` is the only tag and is not escaped |
| `Escaping.LineTerminators` | Source/Form.AutoGrow.js:109 | `\n` and `\r\n` both become `<br/>A`; a lone `\r` is kept |
| `JsParseInt.ParseInt` | Source/Form.AutoGrow.js:76-77 | `toInt()` is a number exactly when, after white space and an optional sign, a digit follows; otherwise `NaN`; the number is not positive after `-` and not negative otherwise |
| `JsParseInt.ParseIntOfLength` | Source/Form.AutoGrow.js:76-77 | `toInt()` of a length such as `250px` is its number |
| `JsParseInt.ParseIntOfNegativeLength` | Source/Form.AutoGrow.js:76-77 | `toInt()` of `-5px` is -5 |
| `JsParseInt.ParseIntOfKeyword` | Source/Form.AutoGrow.js:73-76 | `toInt()` of a keyword such as `none` is `NaN` |
| `Sizing.ZeroMaxHeightIsNoCap` | Source/Form.AutoGrow.js:119-136 | an explicit `maxHeight` of 0 clamps nothing in `resize` and never resets the scroll offset |
| `Sizing.MinHeightFloor` | Source/Form.AutoGrow.js:98 | the floor is the factor times the line height plus the factor times the margin; with a factor of at least 1 it is at least one line plus the margin |
| `Sizing.ResolveMaxHeight` | Source/Form.AutoGrow.js:73-77 | an explicit `maxHeight` is never overwritten; a `null` one becomes the element's parsed `max-height` when that is truthy and stays `null` otherwise |
| `Sizing.ResolvePixelMaxHeight` | Source/Form.AutoGrow.js:73-77 | with no option, a `max-height` of `Npx`, N > 0, becomes the cap N |
| `Sizing.ResolveUnconstrained` | Source/Form.AutoGrow.js:73-77 | with no option, `max-height: none` or `0px` leaves the field unconstrained |
| `Sizing.Clamp` | Source/Form.AutoGrow.js:116-124 | the applied height never exceeds a truthy cap; overflow is `auto` exactly when the floor or the measurement exceeds the cap, and then the height is the cap; otherwise the height is the larger of the floor and the measurement |
| `Sizing.ClampBeatsFloor` | Source/Form.AutoGrow.js:116-121 | when the floor exceeds the cap, the cap is applied with overflow `auto` |
| `Sizing.Step` | Source/Form.AutoGrow.js:107-132 | after `resize` the mirror holds the transformed value; at most one event fires; height and overflow change only together with an event; an event fires only on a cache miss with a measured height different from the current one, and then the height is within a truthy cap |
| `Sizing.CacheHit` | Source/Form.AutoGrow.js:111 | when the mirror already holds the markup, `resize` changes nothing |
| `Sizing.SameHeight` | Source/Form.AutoGrow.js:113-115 | when the measured height equals the element's, only the mirror is rewritten |
| `Sizing.AppliesClamp` | Source/Form.AutoGrow.js:115-128 | otherwise the clamped height and overflow are written and exactly one event fires |
| `Sizing.StepKeepsCeiling` | Source/Form.AutoGrow.js:119-126 | a field within a truthy cap stays within it after `resize` |
| `Sizing.FloorNotKept` | Source/Form.AutoGrow.js:113-116 | a field whose height equals an under-floor measurement is left under the floor |
| `Sizing.SharedMirrorStaleHit` | Source/Form.AutoGrow.js:111-113 | after one controller writes some markup into the shared mirror, another controller whose value transforms to the same markup gets a cache hit: its height stays as it was and no event fires, whatever its own style would measure |
| `Sizing.EventWithoutResize` | Source/Form.AutoGrow.js:115-128 | when the floor dominates, a new value that measures under it fires `resize` without changing the height |
| `Sizing.PendingResizesCollapse` | Source/Form.AutoGrow.js:103-111 | however many resizes key presses queued for one controller on an unchanged value, with no other controller's focus or resize in between, running them all equals running the first; at most one event fires |
| `Sizing.AmpersandEditIsCacheHit` | Source/Form.AutoGrow.js:109-111 | replacing `<` by a typed `&lt;` is a cache hit, so the field is not remeasured |
| `Sizing.ScrollingFieldKeepsOffset` | Source/Form.AutoGrow.js:119-137 | a field that `resize` left scrolling is never snapped back to the top by `scroll` |
| `Sizing.ScenarioFloor` | Source/Form.AutoGrow.js:98-116 | a 20px line with factor 2 and margin 0 gives a 40px floor, applied to a 20px text |
| `Sizing.ScenarioCapThenShrink` | Source/Form.AutoGrow.js:116-137 | with cap 100 and floor 40, 150px of text is clamped to 100 with overflow; shrinking to 60px applies 60 without overflow, after two events, and a scroll is then reset |
| `AutoGrowControl.Mirror.constructor` | Source/Form.AutoGrow.js:23-28 | the shared mirror starts empty |
| `AutoGrowControl.Timers.RunNext` | Source/Form.AutoGrow.js:104 | the oldest delayed call is removed from the queue and runs `resize` on its controller, whether or not it is still attached: state moves as `Sizing.Step` says, the scroll offset is kept, and any event carries that controller |
| `AutoGrowControl.AutoGrow.constructor` | Source/Form.AutoGrow.js:47-56 | the options are merged with the defaults; setup attaches, resolves `maxHeight`, focuses (floor from one filler glyph), then resizes starting from a mirror that holds `A`; the scroll offset is kept and any event carries this controller |
| `AutoGrowControl.AutoGrow.Attach` | Source/Form.AutoGrow.js:62-80 | the controller is subscribed and `maxHeight` is resolved; the other options are unchanged |
| `AutoGrowControl.AutoGrow.Detach` | Source/Form.AutoGrow.js:82-93 | the controller is unsubscribed and the queue of delayed resizes is left as it was |
| `AutoGrowControl.AutoGrow.Focus` | Source/Form.AutoGrow.js:95-101 | the mirror takes the element's style and the content `A`; `minHeight = (height of A + margin) * minHeightFactor` |
| `AutoGrowControl.AutoGrow.KeyDown` | Source/Form.AutoGrow.js:103-105 | exactly one delayed `resize` of this controller is queued per call |
| `AutoGrowControl.AutoGrow.Resize` | Source/Form.AutoGrow.js:107-132 | the mirror, element height, overflow and event log move exactly as `Sizing.Step` says, with the height measured under the mirror's current style; an event carries this controller |
| `AutoGrowControl.AutoGrow.Scroll` | Source/Form.AutoGrow.js:134-138 | the scroll offset becomes (0,0) exactly when a truthy cap exceeds the element's height; otherwise it is unchanged |
| `AutoGrowControl.AutoGrow.Dispatch` | Source/Form.AutoGrow.js:62-70 | while attached, `focus`, `keydown` and `scroll` run their handlers, and `change` runs the `keydown` handler only with `bindWithChange`; when detached nothing changes |

## Left out

- DOM work: creating and injecting the mirror, `setStyles`/`getStyles`, `set('html')`, `getHeight`, `scrollTo`. The browser's layout is the uninterpreted `Mirror.layout`. The element's height is the last height written, or its initial height.
- The cache check compares the markup last written with the new markup. A browser hands back a re-serialisation from `get('html')`: `<br/>` reads back as `<br>`, `&quot;` as `"`, a bare `&` as `&amp;`. So in a browser the check can hit only for values without line breaks, `"` or a bare `&`. `Sizing.CacheHit`, `Sizing.PendingResizesCollapse`, `Sizing.AmpersandEditIsCacheHit` and the cache remarks above hold for the model's cache, not for the browser's `get('html')`.
- Real time. Every delayed call waits the same 15 ms, so they are modelled as a first-in, first-out queue. When the host fires them is not modelled.
- Event registration (`addEvents`/`removeEvents`) is reduced to the `attached` flag that `Dispatch` consults. The class-level `fireEvent` is a log of the controllers it carried. Listeners of that event are not modelled.
- MooTools machinery: the `Class.Singleton` check in `initialize`, `Class.Binds`, `toElement` and the global `Form` namespace. `setOptions` is modelled for the four options only, by the plain definition `SetOptions` that the constructor uses; unknown keys and deep merging are not.
- Pixel values and `minHeightFactor` are integers. Fractional values and the precision of very large numbers in `parseInt` are not modelled.
- JavaScript strings are UTF-16 code units; a Dafny `string` is a sequence of Unicode scalar values, so a lone surrogate in a value cannot be represented. The replacements touch only ASCII characters, so this changes nothing else.
- Heights the browser would reject (a negative cap written as a height) are kept as written.
