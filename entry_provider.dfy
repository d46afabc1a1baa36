/**
 * Entry providers: what a slot shows when it is driven by a provider rather
 * than written directly. A provider answers `text()`, `skin()` and `ping()`;
 * the interface's default `skin()` is the question-mark head and its default
 * `ping()` is -1, and the static factories build fixed triples.
 */
module EntryProviders {
  import opened Content

  /** The three answers of a provider. */
  datatype Provider = Provider(text: Component, skin: TextureProperty, ping: int)

  /** The interface's default `skin()`. */
  const DEFAULT_SKIN: TextureProperty := QUESTION_MARK

  /** The interface's default `ping()`. */
  const DEFAULT_PING: int := -1

  /**
   * A provider that implements only `text()` and inherits the interface's
   * defaults for the other two.
   */
  function TextProvider(text: Component): (p: Provider)
    ensures p.text == text && p.skin == QUESTION_MARK && p.ping == -1
  {
    Provider(text, DEFAULT_SKIN, DEFAULT_PING)
  }

  /** `entryProvider(text, property, ping)`: answers exactly its arguments. */
  function EntryProvider(text: Component, property: TextureProperty, ping: int): (p: Provider)
    ensures p.text == text && p.skin == property && p.ping == ping
  {
    Provider(text, property, ping)
  }

  /** `entryProvider(text, property)`. */
  function EntryProviderTextSkin(text: Component, property: TextureProperty): (p: Provider)
    ensures p == Provider(text, property, -1)
  {
    EntryProvider(text, property, -1)
  }

  /** `entryProvider(text)`, which delegates to `entryProvider(text, QUESTION_MARK)`. */
  function EntryProviderText(text: Component): (p: Provider)
    ensures p == Provider(text, QUESTION_MARK, -1)
  {
    EntryProviderTextSkin(text, QUESTION_MARK)
  }

  /** `entryProvider(property)`, which delegates to `entryProvider(empty(), property)`. */
  function EntryProviderSkin(property: TextureProperty): (p: Provider)
    ensures p == Provider(EMPTY, property, -1)
  {
    EntryProviderTextSkin(EMPTY, property)
  }

  /** `entryProvider(text, ping)`. */
  function EntryProviderTextPing(text: Component, ping: int): (p: Provider)
    ensures p == Provider(text, QUESTION_MARK, ping)
  {
    EntryProvider(text, QUESTION_MARK, ping)
  }

  /** `entryProvider(ping)`, which delegates to `entryProvider(empty(), ping)`. */
  function EntryProviderPing(ping: int): (p: Provider)
    ensures p == Provider(EMPTY, QUESTION_MARK, ping)
  {
    EntryProviderTextPing(EMPTY, ping)
  }

  /** `entryProvider(property, ping)`. */
  function EntryProviderSkinPing(property: TextureProperty, ping: int): (p: Provider)
    ensures p == Provider(EMPTY, property, ping)
  {
    EntryProvider(EMPTY, property, ping)
  }
}
