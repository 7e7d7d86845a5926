# Fan-speed dial, modelled in Dafny

A model of `DialView`, a circular Android widget that represents a fan with
four speeds. A tap advances the speed cyclically OFF → LOW → MEDIUM → HIGH → OFF
and updates the view's accessibility description. Each draw pass paints the dial
in a colour chosen by the current speed. It then draws a black indicator dot at
the current speed's position and the four speed labels around the dial. On a
size change the view recomputes its radius.

- `fan_speed.dfy`, module `FanSpeeds`: the `FanSpeed` enumeration, its ordinal,
  `entries` and `next()`, and the lemmas about repeated clicks.
- `dial_view.dfy`, module `Dial`: the constants, the colour, angle and radius
  mappings, the specification `Frame` of one draw pass, and the class `DialView`
  with its fields and callbacks.

Angles are exact, in units of π/8: the mark of the speed with ordinal k sits at
slot 9 + 2k, that is 9π/8 + k·π/4. A point on the canvas is kept symbolic as
(centre, orbit radius, slot), standing for
(cx + orbit·cos(slot·π/8), cy + orbit·sin(slot·π/8)). The radius is a real
number. A draw pass is recorded as the sequence of canvas calls it makes, each
with the paint colour in force when it was made. The ghost field `clicks` counts
the clicks the view handled itself. The class invariant `Valid` says that the
speed is `next()` applied `clicks` times to OFF. It also says that, after the
first such click, the description is the current speed's label.

Helpers without a row of their own:
- `FanSpeeds.Iterate(s, n)` is `next()` applied n times (lines 24-29); the rows for `IterateOrdinal`, `ClicksFromOff`, `IterateReturns`, `IterateShift` and `PerformClick` rely on it.
- `Dial.Labels.Of` stands for `resources.getString(s.label)` (lines 16-21, 68, 134): the resolved label string of each speed.
- `Dial.LabelMark` and `Dial.Frame` specify the four label calls and the whole draw pass (lines 120-136); `FrameLayout` states what they contain and `OnDraw` is proved equal to `Frame`.

Colours are the platform's signed 32-bit ARGB integers: `Color.GRAY` is
0xFF888888 and `Color.BLACK` is 0xFF000000.

## Model

| member | source | states |
|---|---|---|
| `FanSpeeds.Ordinal` | app/src/main/java/com/example/customfancontroller/DialView.kt:16-21 | each speed's ordinal is below 4 |
| `FanSpeeds.FromOrdinal` | app/src/main/java/com/example/customfancontroller/DialView.kt:16-21 | the speed returned for ordinal k has ordinal k |
| `FanSpeeds.OrdinalInjective` | app/src/main/java/com/example/customfancontroller/DialView.kt:16-21 | two speeds are equal iff their ordinals are; FromOrdinal inverts Ordinal |
| `FanSpeeds.Entries` | app/src/main/java/com/example/customfancontroller/DialView.kt:132 | `entries` lists four speeds, the k-th having ordinal k |
| `FanSpeeds.Next` | app/src/main/java/com/example/customfancontroller/DialView.kt:24-29 | the successor's ordinal is the ordinal plus one, modulo 4 |
| `FanSpeeds.IterateOrdinal` | app/src/main/java/com/example/customfancontroller/DialView.kt:24-29 | n successor steps add n to the ordinal, modulo 4 (by induction) |
| `FanSpeeds.ClicksFromOff` | app/src/main/java/com/example/customfancontroller/DialView.kt:64-75 | n steps from the initial OFF land on the speed with ordinal n mod 4 |
| `FanSpeeds.IterateReturns` | app/src/main/java/com/example/customfancontroller/DialView.kt:24-29 | n steps return a speed to itself iff n is a multiple of 4 |
| `FanSpeeds.IterateShift` | app/src/main/java/com/example/customfancontroller/DialView.kt:24-29 | four extra steps never change the outcome |
| `Dial.Half` | app/src/main/java/com/example/customfancontroller/DialView.kt:103-104 | `Int / 2` of the view size truncates toward zero: bounds on twice the result for both signs |
| `Dial.DialRadius` | app/src/main/java/com/example/customfancontroller/DialView.kt:89 | the radius is 0.4·min(w, h); for non-negative sizes it is non-negative and the dial's diameter fits both sides |
| `Dial.AngleSlot` | app/src/main/java/com/example/customfancontroller/DialView.kt:101-102 | every slot is an odd number in 9..15, i.e. strictly between π and 2π |
| `Dial.AngleSlotOrder` | app/src/main/java/com/example/customfancontroller/DialView.kt:101-102 | slots increase strictly with the ordinal, and two speeds share a slot iff they are equal |
| `Dial.AngleSlotStep` | app/src/main/java/com/example/customfancontroller/DialView.kt:101-102 | a click moves the slot on by π/4 (an eighth of a turn), except HIGH → OFF, which moves back by 3π/4 (three eighths of a turn) |
| `Dial.FillColor` | app/src/main/java/com/example/customfancontroller/DialView.kt:113-119 | the fill is the entry at the speed's ordinal of [GRAY, low, medium, max] |
| `Dial.FillColorIdentifiesSpeed` | app/src/main/java/com/example/customfancontroller/DialView.kt:113-119 | with four distinct colours, equal fills mean equal speeds, and conversely |
| `Dial.FrameLayout` | app/src/main/java/com/example/customfancontroller/DialView.kt:120-136 | a frame has six calls: the dial in the fill colour, a black dot of radius/12 at the current label's slot on an orbit 65 smaller (radius − 35, which is negative, so on the opposite side of the centre, when the radius is below 35), and four black labels at slots 9, 11, 13, 15 on orbit radius + 30 around the view's centre |
| `Dial.DialView.constructor` | app/src/main/java/com/example/customfancontroller/DialView.kt:51-83 | a new view is clickable, OFF, radius 0, each colour the styled value or 0, black paint, scratch point at the origin; the invariant holds with no clicks |
| `Dial.DialView.PerformClick` | app/src/main/java/com/example/customfancontroller/DialView.kt:64-72 | always returns true; a click the superclass handled changes nothing; otherwise the speed takes one `next()` step, the description becomes the new label, and the invariant is kept |
| `Dial.DialView.OnSizeChanged` | app/src/main/java/com/example/customfancontroller/DialView.kt:87-91 | only the radius changes, to DialRadius(w, h) |
| `Dial.DialView.ComputeXYForSpeed` | app/src/main/java/com/example/customfancontroller/DialView.kt:96-106 | only the scratch point changes, to the speed's slot on the given orbit around the view's centre |
| `Dial.DialView.OnDraw` | app/src/main/java/com/example/customfancontroller/DialView.kt:108-137 | the canvas calls equal `Frame` of the current state; the paint ends black and the scratch point at HIGH's label; only those two fields change |

## Left out

- The `cos`/`sin` evaluation and all Float/Double conversions and rounding (`toFloat`). Angles are exact π/8 slots, the radius is a real, and points stay symbolic.
- What `drawCircle` and `drawText` rasterise, and the paint's style, alignment, text size, typeface and anti-aliasing. Only the calls' arguments and colour are recorded.
- Resource lookups. Each speed's label is the already-resolved string from a `Labels` value given at construction; the resource ids are not modelled.
- The parsing done by `withStyledAttributes`. The layout's values arrive as an `Attributes` value.
- `invalidate()` and redraw scheduling.
- The listener dispatch inside `super.performClick()`. Its result is the `superHandled` parameter.
- `super.onDraw`, which draws nothing for a plain view.
- The view's `width` and `height` are host layout state. `OnDraw` takes them as parameters, and the model does not tie them to the sizes last passed to `OnSizeChanged`.
- Writes to the content description by anyone other than this view.
- The rule against allocating in the draw path, which is a performance concern.
- Colours are unbounded integers; the model does not restrict them to 32 bits.
- Dial.DialView.constructor: assumes the styled colours survive construction. The source runs the `init` block (lines 51-59) before the zero initialisers of the colour fields (lines 61-63). Whether those initialisers overwrite the styled values depends on whether the Kotlin compiler emits initialisers that store a field's default value.
