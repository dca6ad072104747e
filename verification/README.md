# Ignite keyframes in Dafny

This project models `Animation.Frame` (alias `Keyframe`) of the Ignite static-site
framework. A frame is one keyframe of a CSS animation. It has two parts:

- a `position` on the animation's timeline. It is fixed when the frame is made and must lie
  between 0% and 100%, both included;
- `styles`, an ordered set of `InlineStyle` declarations (`property: value`). The builder
  methods `color`, `scale`, `rotate` and `custom` add to it.

An ordered set keeps the order in which elements were first inserted. Appending an element
equal to one already present changes nothing.

The model has three modules:

- `OrderedSets` (`ordered_set.dfy`) models the ordered set as a sequence with no duplicates.
  `Append` is its `append`. Its lemmas are:
  - a characterisation of `Append` that does not use its code;
  - idempotence;
  - the effect of two appends in a row.
- `Styles` (`styles.dfy`) holds the declaration record and the animatable properties.
  `ColorArea.Property` maps the text colour to `color` and the background colour to
  `background-color`.
- `Animations` (`animation_frame.dfy`) holds `Frame`.
  - `Frame` is a class with a `const position` (Swift's `let`) and a `var styles`.
  - Its constructor demands the position precondition.
  - Each builder method may change only `styles` (``modifies this`styles``). It keeps the
    invariant `Valid()`: the position is on the timeline and the styles hold no duplicates.
  - Each builder's `ensures` gives the new styles in terms of the old ones.
  - Lemmas about the declarations and about `Rotated` (the effect of `rotate`) state what
    callers can rely on.
  - Three small client methods show what a caller can conclude from the contracts alone.

`rotate` is two ordered-set appends, the origin first. So `rotate` guarantees that the origin
comes before the rotation only when the rotation is new (`RotatedOriginPrecedesNewRotation`). When the rotation
is already present and the origin is not, only the origin is added, after the rotation
(`RotatedOriginMayFollowRotation`).

## Model

| member | source | states |
|---|---|---|
| `OrderedSets.Append` | Sources/Ignite/Framework/Animations/AnimationFrame.swift:17 | appending keeps the old styles as a prefix and adds at most one element; afterwards the element is present; the styles are unchanged exactly when an equal element was already there; nothing but old elements and the new one appears; a duplicate-free set stays duplicate-free |
| `OrderedSets.AppendCharacterized` | Sources/Ignite/Framework/Animations/AnimationFrame.swift:17 | on a duplicate-free set, `r` is the result of an append of `x` if and only if `r` is duplicate-free, keeps the old set as its prefix, holds `x`, and holds nothing but `x` and old elements |
| `OrderedSets.IndexOfUnique` | Sources/Ignite/Framework/Animations/AnimationFrame.swift:17 | in a duplicate-free set an element has exactly one position |
| `OrderedSets.AppendIdempotent` | Sources/Ignite/Framework/Animations/AnimationFrame.swift:45 | appending the same declaration a second time changes nothing |
| `OrderedSets.AppendPairFresh` | Sources/Ignite/Framework/Animations/AnimationFrame.swift:54-55 | two distinct absent elements appended in turn become the last two entries, in call order |
| `OrderedSets.AppendPairIdempotent` | Sources/Ignite/Framework/Animations/AnimationFrame.swift:54-55 | repeating the same pair of appends changes nothing |
| `Animations.InTimeline` | Sources/Ignite/Framework/Animations/AnimationFrame.swift:22 | the timeline check: a position between 0% and 100%, both ends included; it is demanded by the constructor's requires and kept by `Frame.Valid()` |
| `Styles.ColorArea.Property` | Sources/Ignite/Framework/Animations/AnimationFrame.swift:38 | builds `area.property`: the text colour for the foreground, the background colour for the background; that the two areas never give the same declaration is stated by `ColorDeclarationsKeptApart` |
| `Animations.ColorDeclaration` | Sources/Ignite/Framework/Animations/AnimationFrame.swift:38 | builds the declaration `color` adds, the area's property with the colour's text as its value; its property is stated by `ColorDeclarationsKeptApart` (equal exactly when area and colour are) |
| `Animations.ScaleDeclaration` | Sources/Ignite/Framework/Animations/AnimationFrame.swift:45 | the declaration `scale` adds is a `transform` whose value is `scale(`, then the factor's text, then `)`; the factor's text can be read back from it |
| `Animations.OriginDeclaration` | Sources/Ignite/Framework/Animations/AnimationFrame.swift:54 | builds the first declaration `rotate` adds, a `transform-origin` with the anchor's text; that it never equals a rotation or a scale is stated by `OriginIsNotTransform` |
| `Animations.RotationDeclaration` | Sources/Ignite/Framework/Animations/AnimationFrame.swift:55 | the second declaration `rotate` adds is a `transform` whose value is `rotate(`, then the angle's text, then `)`; the angle's text can be read back from it |
| `Animations.Frame.constructor` | Sources/Ignite/Framework/Animations/AnimationFrame.swift:20-27 | a frame can be made only at a position in [0, 100]; its position is the argument; its styles are the given ordered set, empty by default |
| `Animations.Frame.Color` | Sources/Ignite/Framework/Animations/AnimationFrame.swift:37-39 | the new styles are the old ones with the declaration `(area.property, colour text)` appended by the ordered-set rule; the area defaults to the text colour; only `styles` may change, and the invariant is kept |
| `Animations.Frame.Scale` | Sources/Ignite/Framework/Animations/AnimationFrame.swift:44-46 | the new styles are the old ones with `transform: scale(<factor>)` appended by the ordered-set rule; only `styles` may change, and the invariant is kept |
| `Animations.Frame.Rotate` | Sources/Ignite/Framework/Animations/AnimationFrame.swift:53-56 | the new styles are `Rotated(old styles, angle, anchor)`: the origin is appended, then the rotation; only `styles` may change, and the invariant is kept |
| `Animations.Frame.Custom` | Sources/Ignite/Framework/Animations/AnimationFrame.swift:62-64 | the new styles are the old ones with exactly `(property, value)`, unmodified, appended by the ordered-set rule; only `styles` may change, and the invariant is kept |
| `Animations.Rotated` | Sources/Ignite/Framework/Animations/AnimationFrame.swift:53-56 | `rotate` keeps the old styles as a prefix and adds at most two entries; afterwards both the origin and the rotation are present; nothing else appears; no duplicates are introduced |
| `Animations.RotatedFresh` | Sources/Ignite/Framework/Animations/AnimationFrame.swift:53-56 | when neither declaration is present, `rotate` adds exactly the origin and then the rotation as the last two entries |
| `Animations.RotatedIdempotent` | Sources/Ignite/Framework/Animations/AnimationFrame.swift:53-56 | a second `rotate` with the same angle and anchor changes nothing |
| `Animations.RotatedOriginPrecedesNewRotation` | Sources/Ignite/Framework/Animations/AnimationFrame.swift:53-56 | for every frame that does not yet hold the rotation, `rotate` leaves the rotation as the last entry and the origin's position before it |
| `Animations.RotatedOriginMayFollowRotation` | Sources/Ignite/Framework/Animations/AnimationFrame.swift:53-56 | for every frame that holds the rotation but not the origin, `rotate` adds only the origin, as the last entry, so it comes after the rotation |
| `Animations.ScaleDeclarationInjective` | Sources/Ignite/Framework/Animations/AnimationFrame.swift:45 | two scale declarations are equal if and only if their factors are |
| `Animations.RotationDeclarationInjective` | Sources/Ignite/Framework/Animations/AnimationFrame.swift:55 | two rotation declarations are equal if and only if their angles are |
| `Animations.OriginIsNotTransform` | Sources/Ignite/Framework/Animations/AnimationFrame.swift:44-55 | the origin declaration equals neither a rotation nor a scale declaration, so the two appends of `rotate` never absorb each other |
| `Animations.ScaleIsNotRotation` | Sources/Ignite/Framework/Animations/AnimationFrame.swift:44-55 | a scale and a rotation are both `transform` declarations but never equal, so neither absorbs the other |
| `Animations.ScaleTwice` | Sources/Ignite/Framework/Animations/AnimationFrame.swift:44-46 | after a first scale, a second one with the same factor is absorbed, and one with a different factor adds a second `transform` entry after the first |
| `Animations.ColorDeclarationsKeptApart` | Sources/Ignite/Framework/Animations/AnimationFrame.swift:37-39 | two colour declarations are equal if and only if their areas and colours are |
| `Animations.ColorThenScale` | Sources/Ignite/Framework/Animations/AnimationFrame.swift:37-46 | a colour and then a scale on an empty frame give exactly those two declarations, in call order |
| `Animations.PrefixTransitive` | Sources/Ignite/Framework/Animations/AnimationFrame.swift:54-55 | successive appends keep the oldest styles at the front |
| `Animations.EnclosedTextInjective` | Sources/Ignite/Framework/Animations/AnimationFrame.swift:45 | text between a fixed opening and a fixed closing determines the enclosed part, so `scale(...)` and `rotate(...)` declarations never merge different arguments |

## Left out

- `Sources/Ignite/Framework/Environment/EnvironmentReader.swift` is not part of this model. It is
  an accessor over process-global, actor-isolated environment state and has no algorithm.
- The text renderings are taken as given. These are `Color.description`, the string
  interpolation of a `Double`, `Angle.value` and `AnchorPoint.value`. Each input type is
  modelled by the text it renders to: `CssColor`, `ScaleFactor`, `Angle` and `AnchorPoint`.
  Two inputs with the same rendering (for instance two NaN scale factors) are therefore one
  input here.
- The default anchor `.center` of `rotate` is not modelled, because the value of
  `AnchorPoint.center` is not part of this model. `Frame.Rotate` takes the anchor explicitly.
  The default area `.foreground` of `color` is modelled.
- `Percentage` is modelled as a `real`. Floating-point behaviour is left out, for instance a
  NaN position that fails both comparisons. The precondition's message text is also left out.
- `Frame` is a Swift struct, so assigning a frame copies it. The model uses a class, whose
  references alias. Its methods are specified as updates of one frame in place.
- `AnimatableProperty` has only the four properties the builders use. Every other property is
  a `Custom(name)`. How `InlineStyle(animatable:value:)` turns a property into its CSS name is
  not part of this model. So a custom name that spells a named property, such as
  `Custom("transform")`, gives a declaration different from the one for `Transform`. A
  declaration compared by its CSS name would treat the two as equal.
- OrderedSets.Append: compares declarations by Dafny's equality, so a value string is compared
  code point by code point. Swift's `String` equality uses Unicode canonical equivalence. For
  example, `"\u{E9}"` and `"e\u{301}"` are one value in Swift and two here. Two declarations
  whose values are canonically equivalent but differently encoded are therefore both kept by
  the model, while the source keeps only the first.
- Animations.Frame.Custom: appends by `OrderedSets.Append`, so it shares the comparison gap
  above. `custom(.color, value: "\u{E9}")` followed by `custom(.color, value: "e\u{301}")`
  leaves one entry in the source and two in the model. The same holds for `Frame.Color`,
  `Frame.Scale` and `Frame.Rotate` when the texts they append differ only in encoding.
- The `Hashable` and `Sendable` conformances, the hashing inside `OrderedSet`, and every
  `OrderedSet` operation other than `append` are not modelled.
- Turning frames into CSS `@keyframes` text is not modelled, because the code that does it is
  not part of this model. Whether the positions along a timeline are ordered or unique is not
  checked by this code and is not modelled.
