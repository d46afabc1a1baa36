/**
 * The two value types a tab-list entry displays. Both come from outside the
 * core (the adventure text library and the texture helper), and the core only
 * ever compares them, so they are abstract types with equality.
 */
module Content {
  /**
   * Rich chat text (an adventure `Component`). Components compare with
   * `equals`, which is value equality.
   */
  type Component(==, 0)

  /** `Component.empty()`, the text of the default provider. */
  const EMPTY: Component

  /**
   * A skin texture. `TextureProperty.texture` returns an anonymous object
   * that does not override `equals`, so two skins are equal only when they
   * are the same object: a skin is an opaque token compared by identity.
   */
  type TextureProperty(==, 0)

  /** `TextureProperty.QUESTION_MARK`, the question-mark head. */
  const QUESTION_MARK: TextureProperty
}
