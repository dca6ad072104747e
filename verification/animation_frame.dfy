/** A keyframe of a CSS animation: a fixed position on the animation's timeline
    and the ordered set of style declarations that hold at that position,
    filled in by a small vocabulary of builder methods. */
module Animations {
  import opened OrderedSets
  import Styles

  type InlineStyle = Styles.InlineStyle

  /** A position on an animation's timeline, in percent. */
  type Percentage = real

  /** A colour, known here by its CSS text (its `description`). */
  datatype CssColor = CssColor(description: string)

  /** A scale factor, known here by the text that string interpolation gives it. */
  datatype ScaleFactor = ScaleFactor(text: string)

  /** An angle, known here by its CSS text (its `value`, such as "45deg"). */
  datatype Angle = Angle(value: string)

  /** A rotation origin, known here by its CSS text (its `value`). */
  datatype AnchorPoint = AnchorPoint(value: string)

  /** The timeline runs from 0% to 100%, both ends included. */
  predicate InTimeline(p: Percentage) {
    0.0 <= p <= 100.0
  }

  /** The declaration `color` adds. */
  function ColorDeclaration(area: Styles.ColorArea, color: CssColor): (d: InlineStyle) {
    Styles.InlineStyle(area.Property(), color.description)
  }

  /** The declaration `scale` adds: `transform: scale(<factor>)`. */
  function ScaleDeclaration(factor: ScaleFactor): (d: InlineStyle)
    ensures d.property == Styles.Transform
    ensures |d.value| == |factor.text| + 7 && d.value[..6] == "scale(" && d.value[|d.value| - 1] == ')'
    ensures d.value[6..|d.value| - 1] == factor.text
  {
    Styles.InlineStyle(Styles.Transform, "scale(" + factor.text + ")")
  }

  /** The first declaration `rotate` adds: `transform-origin: <anchor>`. */
  function OriginDeclaration(anchor: AnchorPoint): (d: InlineStyle) {
    Styles.InlineStyle(Styles.TransformOrigin, anchor.value)
  }

  /** The second declaration `rotate` adds: `transform: rotate(<angle>)`. */
  function RotationDeclaration(angle: Angle): (d: InlineStyle)
    ensures d.property == Styles.Transform
    ensures |d.value| == |angle.value| + 8 && d.value[..7] == "rotate(" && d.value[|d.value| - 1] == ')'
    ensures d.value[7..|d.value| - 1] == angle.value
  {
    Styles.InlineStyle(Styles.Transform, "rotate(" + angle.value + ")")
  }

  /** The styles after `rotate`: two appends, the origin first. At most two
      declarations are added, nothing present is moved, both declarations are
      present afterwards and the set stays free of duplicates. */
  function Rotated(styles: seq<InlineStyle>, angle: Angle, anchor: AnchorPoint): (r: seq<InlineStyle>)
    ensures IsPrefix(styles, r) && |r| <= |styles| + 2
    ensures OriginDeclaration(anchor) in r && RotationDeclaration(angle) in r
    ensures forall d :: d in r <==> d in styles || d == OriginDeclaration(anchor) || d == RotationDeclaration(angle)
    ensures NoDuplicates(styles) ==> NoDuplicates(r)
  {
    var origin, rotation := OriginDeclaration(anchor), RotationDeclaration(angle);
    var withOrigin := Append(styles, origin);
    var r := Append(withOrigin, rotation);
    PrefixTransitive(styles, withOrigin, r);
    assert forall d :: d in withOrigin <==> d in styles || d == origin;
    assert forall d :: d in r <==> d in withOrigin || d == rotation;
    r
  }

  /** A single keyframe. Its position never changes after construction; its
      styles only ever grow at the end. */
  class Frame {
    /** The position on the timeline, between 0% and 100%. */
    const position: Percentage

    /** The declarations to apply at this position, in insertion order. */
    var styles: seq<InlineStyle>

    ghost predicate Valid()
      reads this
    {
      InTimeline(position) && NoDuplicates(styles)
    }

    /** A frame at `position` holding the ordered set `data`. A position off
        the timeline is a precondition failure: no frame is made. */
    constructor (position: Percentage, data: seq<InlineStyle> := [])
      requires InTimeline(position)
      requires NoDuplicates(data)
      ensures Valid()
      ensures this.position == position && styles == data
    {
      this.position := position;
      styles := data;
    }

    /** Animates the text colour (by default) or the background colour. */
    method Color(area: Styles.ColorArea := Styles.Foreground, value: CssColor)
      requires Valid()
      modifies this`styles
      ensures Valid()
      ensures styles == Append(old(styles), ColorDeclaration(area, value))
    {
      styles := Append(styles, ColorDeclaration(area, value));
    }

    /** Animates the scale transform. */
    method Scale(value: ScaleFactor)
      requires Valid()
      modifies this`styles
      ensures Valid()
      ensures styles == Append(old(styles), ScaleDeclaration(value))
    {
      styles := Append(styles, ScaleDeclaration(value));
    }

    /** Animates a rotation about `anchor`: the origin is appended first, the
        rotation second. */
    method Rotate(angle: Angle, anchor: AnchorPoint)
      requires Valid()
      modifies this`styles
      ensures Valid()
      ensures styles == Rotated(old(styles), angle, anchor)
    {
      styles := Append(styles, OriginDeclaration(anchor));
      styles := Append(styles, RotationDeclaration(angle));
    }

    /** Animates an arbitrary property to a value given verbatim. */
    method Custom(property: Styles.AnimatableProperty, value: string)
      requires Valid()
      modifies this`styles
      ensures Valid()
      ensures styles == Append(old(styles), Styles.InlineStyle(property, value))
    {
      styles := Append(styles, Styles.InlineStyle(property, value));
    }
  }

  /** Being a prefix is transitive, so a chain of appends keeps the oldest
      styles at the front. */
  lemma PrefixTransitive<T>(s: seq<T>, t: seq<T>, u: seq<T>)
    requires IsPrefix(s, t) && IsPrefix(t, u)
    ensures IsPrefix(s, u)
  {
    assert u[..|s|] == u[..|t|][..|s|];
  }

  /** Text wrapped between the same opening and closing text determines the
      wrapped part. */
  lemma {:induction false} EnclosedTextInjective(open: string, a: string, b: string, close: string)
    ensures open + a + close == open + b + close <==> a == b
  {
    if open + a + close == open + b + close {
      var w := open + a + close;
      assert |a| == |b|;
      assert a == w[|open|..|open| + |a|];
      assert b == w[|open|..|open| + |b|];
    }
  }

  /** Two `scale` declarations are equal exactly when their factors are. */
  lemma ScaleDeclarationInjective(a: ScaleFactor, b: ScaleFactor)
    ensures ScaleDeclaration(a) == ScaleDeclaration(b) <==> a == b
  {
    EnclosedTextInjective("scale(", a.text, b.text, ")");
  }

  /** Two `rotate` declarations are equal exactly when their angles are. */
  lemma RotationDeclarationInjective(a: Angle, b: Angle)
    ensures RotationDeclaration(a) == RotationDeclaration(b) <==> a == b
  {
    EnclosedTextInjective("rotate(", a.value, b.value, ")");
  }

  /** The origin `rotate` appends is never one of the `transform`
      declarations, so the two appends of `rotate` never absorb each other, and
      a scale never absorbs an origin. */
  lemma OriginIsNotTransform(anchor: AnchorPoint, angle: Angle, factor: ScaleFactor)
    ensures OriginDeclaration(anchor) != RotationDeclaration(angle)
    ensures OriginDeclaration(anchor) != ScaleDeclaration(factor)
  {
  }

  /** A scale and a rotation are both `transform` declarations, yet never
      equal, so neither absorbs the other and both stay in the frame. */
  lemma ScaleIsNotRotation(factor: ScaleFactor, angle: Angle)
    ensures ScaleDeclaration(factor) != RotationDeclaration(angle)
  {
    assert ScaleDeclaration(factor).value[0] == 's';
    assert RotationDeclaration(angle).value[0] == 'r';
  }

  /** A second `scale` right after a first one is absorbed exactly when the
      factor is the same; a different factor adds a second `transform`
      declaration after the first. */
  lemma ScaleTwice(styles: seq<InlineStyle>, a: ScaleFactor, b: ScaleFactor)
    requires ScaleDeclaration(a) !in styles && ScaleDeclaration(b) !in styles
    ensures a == b ==>
              Append(Append(styles, ScaleDeclaration(a)), ScaleDeclaration(b)) == styles + [ScaleDeclaration(a)]
    ensures a != b ==>
              Append(Append(styles, ScaleDeclaration(a)), ScaleDeclaration(b))
                == styles + [ScaleDeclaration(a), ScaleDeclaration(b)]
  {
    ScaleDeclarationInjective(a, b);
    if a != b {
      AppendPairFresh(styles, ScaleDeclaration(a), ScaleDeclaration(b));
    }
  }

  /** When neither declaration is present, `rotate` adds exactly two: the
      origin, then the rotation, as the last two entries. */
  lemma RotatedFresh(styles: seq<InlineStyle>, angle: Angle, anchor: AnchorPoint)
    requires OriginDeclaration(anchor) !in styles && RotationDeclaration(angle) !in styles
    ensures Rotated(styles, angle, anchor) == styles + [OriginDeclaration(anchor), RotationDeclaration(angle)]
  {
    AppendPairFresh(styles, OriginDeclaration(anchor), RotationDeclaration(angle));
  }

  /** Repeating a `rotate` with the same arguments changes nothing. */
  lemma RotatedIdempotent(styles: seq<InlineStyle>, angle: Angle, anchor: AnchorPoint)
    ensures Rotated(Rotated(styles, angle, anchor), angle, anchor) == Rotated(styles, angle, anchor)
  {
    AppendPairIdempotent(styles, OriginDeclaration(anchor), RotationDeclaration(angle));
  }

  /** Whenever `rotate` adds its rotation, the rotation is the last entry and
      the origin stands before it. */
  lemma RotatedOriginPrecedesNewRotation(styles: seq<InlineStyle>, angle: Angle, anchor: AnchorPoint)
    requires RotationDeclaration(angle) !in styles
    ensures var r := Rotated(styles, angle, anchor);
            && r[|r| - 1] == RotationDeclaration(angle)
            && IndexOf(r, OriginDeclaration(anchor)) < IndexOf(r, RotationDeclaration(angle)) == |r| - 1
  {
    var r := Rotated(styles, angle, anchor);
    assert r == Append(styles, OriginDeclaration(anchor)) + [RotationDeclaration(angle)];
  }

  /** The origin does not always come first: when the rotation is already
      present but the origin is not, `rotate` appends only the origin, after
      the rotation. */
  lemma RotatedOriginMayFollowRotation(styles: seq<InlineStyle>, angle: Angle, anchor: AnchorPoint)
    requires RotationDeclaration(angle) in styles && OriginDeclaration(anchor) !in styles
    ensures Rotated(styles, angle, anchor) == styles + [OriginDeclaration(anchor)]
    ensures IndexOf(Rotated(styles, angle, anchor), RotationDeclaration(angle))
              < IndexOf(Rotated(styles, angle, anchor), OriginDeclaration(anchor))
  {
    var r := Rotated(styles, angle, anchor);
    assert r == styles + [OriginDeclaration(anchor)];
    assert r[IndexOf(styles, RotationDeclaration(angle))] == RotationDeclaration(angle);
    assert r[|styles|] == OriginDeclaration(anchor);
  }

  /** Two `color` declarations are equal exactly when area and colour both
      are: the text colour and the background colour never absorb each other. */
  lemma ColorDeclarationsKeptApart(area: Styles.ColorArea, other: Styles.ColorArea, a: CssColor, b: CssColor)
    ensures ColorDeclaration(area, a) == ColorDeclaration(other, b) <==> area == other && a == b
  {
  }

  /** A colour and then a scale on an empty frame give exactly those two
      declarations, in call order. */
  lemma ColorThenScale(area: Styles.ColorArea, color: CssColor, factor: ScaleFactor)
    ensures Append(Append([], ColorDeclaration(area, color)), ScaleDeclaration(factor))
              == [ColorDeclaration(area, color), ScaleDeclaration(factor)]
  {
  }

  /** What a caller can conclude from the contracts above alone: a colour on
      a frame at 0%. */
  method ColorScenario() {
    var frame := new Frame(0.0);
    frame.Color(value := CssColor("red"));
    assert frame.styles == [Styles.InlineStyle(Styles.Color, "red")];
  }

  /** A rotation on an empty frame at 50%: origin first, then the rotation. */
  method RotateScenario() {
    var frame := new Frame(50.0);
    var angle, anchor := Angle("90deg"), AnchorPoint("center");
    frame.Rotate(angle, anchor);
    RotatedFresh([], angle, anchor);
    assert frame.styles == [OriginDeclaration(anchor), RotationDeclaration(angle)];
    assert frame.position == 50.0;
  }

  /** The same scale twice on a frame at 100% leaves one declaration. */
  method ScaleScenario() {
    var frame := new Frame(100.0);
    frame.Scale(ScaleFactor("1.5"));
    frame.Scale(ScaleFactor("1.5"));
    assert |frame.styles| == 1;
  }
}
