/** CSS declarations as a keyframe records them. */
module Styles {

  /** The CSS properties an animation can change. The four named ones are those
      the keyframe builders use; `Custom` stands for any other property name. */
  datatype AnimatableProperty =
    | Color
    | BackgroundColor
    | Transform
    | TransformOrigin
    | Custom(name: string)

  /** One `property: value` declaration. Equality is structural: two
      declarations are equal exactly when property and value both are. */
  datatype InlineStyle = InlineStyle(property: AnimatableProperty, value: string)

  /** Which colour of an element a keyframe animates. */
  datatype ColorArea = Foreground | Background {

    /** The property that carries this colour: the text colour or the
        background colour. */
    function Property(): (p: AnimatableProperty) {
      match this
      case Foreground => Color
      case Background => BackgroundColor
    }
  }
}
