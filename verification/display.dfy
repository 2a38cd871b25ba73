/** The badge that the views draw next to a reading: its text and its colour variant. */
module Display {
  import opened Wrappers

  /** The `variant` prop of the badge component. */
  datatype Variant = Default | Secondary | Destructive | Outline

  datatype Badge = Badge(text: string, variant: Variant)

  /** `!x` is false for a parsed number: it is neither absent (NaN) nor zero. */
  predicate IsSet<T(==)>(x: Option<T>, zero: T) {
    x.Some? && x.value != zero
  }
}
