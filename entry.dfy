/**
 * One slot of the fake tab list: a fake player whose display text, skin and
 * latency are each tracked as a committed ("current") value and a candidate
 * ("new", pending) value, either of which may be null.
 */
module Entries {
  import opened Wrappers
  import opened Content
  import opened EntryProviders

  /** The fixed part of every slot's fake player name. */
  const NAME_PREFIX: string := "!mammoth-"

  predicate IsDigit(c: char) {
    '0' <= c <= '9'
  }

  predicate AllDigits(s: string) {
    forall k :: 0 <= k < |s| ==> IsDigit(s[k])
  }

  function DigitChar(d: nat): (c: char)
    requires d < 10
    ensures IsDigit(c) && c as int - '0' as int == d
  {
    ('0' as int + d) as char
  }

  /** The number a string of decimal digits denotes, most significant digit first. */
  function DigitsValue(s: string): nat
    requires AllDigits(s)
    decreases |s|
  {
    if s == [] then 0
    else DigitsValue(s[..|s| - 1]) * 10 + (s[|s| - 1] as int - '0' as int)
  }

  /** Java's `%d` of a non-negative int: its decimal digits without padding. */
  function Decimal(n: nat): (s: string)
    ensures AllDigits(s) && DigitsValue(s) == n
    ensures 1 <= |s|
    ensures n < 10 ==> |s| == 1
    ensures 10 <= n < 100 ==> |s| == 2
    decreases n
  {
    if n < 10 then [DigitChar(n)]
    else
      var prefix := Decimal(n / 10);
      var s := prefix + [DigitChar(n % 10)];
      assert s[..|s| - 1] == prefix;
      s
  }

  /**
   * `name()`: the format `"!mammoth-%02d"` applied to the slot index, that
   * is, the prefix followed by the index in decimal, zero-padded to at least
   * two digits.
   */
  function Name(index: nat): (name: string)
    ensures index < 100 ==> |name| == |NAME_PREFIX| + 2
  {
    var digits := Decimal(index);
    NAME_PREFIX + (if index < 10 then "0" + digits else digits)
  }

  /**
   * A name is the prefix followed by decimal digits that denote the index:
   * at least two of them, exactly two for the indices below 100.
   */
  lemma NameFormat(index: nat)
    ensures var name := Name(index);
      |name| >= |NAME_PREFIX| + 2 && name[..|NAME_PREFIX|] == NAME_PREFIX &&
      AllDigits(name[|NAME_PREFIX|..]) && DigitsValue(name[|NAME_PREFIX|..]) == index &&
      (index < 100 ==> |name| == |NAME_PREFIX| + 2)
  {
    var digits := if index < 10 then "0" + Decimal(index) else Decimal(index);
    assert index < 10 ==> digits[..|digits| - 1] == "0";
    assert Name(index)[|NAME_PREFIX|..] == digits;
  }

  /** Distinct slots have distinct fake player names. */
  lemma NamesDistinct(i: nat, j: nat)
    requires i != j
    ensures Name(i) != Name(j)
  {
    NameFormat(i);
    NameFormat(j);
  }

  /**
   * The slot change rule: a field changed when its committed value was null
   * or differs from the candidate (a null candidate against a committed
   * value, and null against null, both count as changes).
   */
  function EntryChanged<T(==)>(current: Option<T>, pending: Option<T>): (changed: bool)
    ensures !changed <==> current.Some? && pending == current
  {
    current.None? || current != pending
  }

  /** The whole state of one slot, field for field. */
  datatype EntryState = EntryState(
    index: nat,
    provider: Option<Provider>,
    currentText: Option<Component>,
    newText: Option<Component>,
    currentSkin: Option<TextureProperty>,
    newSkin: Option<TextureProperty>,
    currentPing: Option<int>,
    newPing: Option<int>,
    textChanged: bool,
    pingChanged: bool,
    skinChanged: bool,
    dirty: bool)
  {
    /**
     * Every writer of the pending values writes all three and sets `dirty`
     * (a provider pull, a template `set`), and `resetState` clears all four
     * together; so `dirty` tells exactly whether the pending values are set.
     */
    predicate Consistent() {
      if dirty then newText.Some? && newSkin.Some? && newPing.Some?
      else newText.None? && newSkin.None? && newPing.None?
    }

    /** `anyChanged()`. */
    predicate AnyChanged() {
      textChanged || pingChanged || skinChanged
    }

    /**
     * `update()`: pull from the bound provider, if any (each `setNewX` also
     * sets `dirty`), then for each field compute its changed flag and
     * commit the candidate.
     */
    function Updated(): (r: EntryState)
      ensures r.index == index && r.provider == provider
      ensures r.currentText == r.newText && r.currentSkin == r.newSkin && r.currentPing == r.newPing
      ensures provider.Some? ==>
        r.newText == Some(provider.value.text) && r.newSkin == Some(provider.value.skin) &&
        r.newPing == Some(provider.value.ping) && r.dirty
      ensures provider.None? ==>
        r.newText == newText && r.newSkin == newSkin && r.newPing == newPing && r.dirty == dirty
      ensures r.textChanged <==> currentText.None? || currentText != r.newText
      ensures r.skinChanged <==> currentSkin.None? || currentSkin != r.newSkin
      ensures r.pingChanged <==> currentPing.None? || currentPing != r.newPing
      ensures Consistent() ==> r.Consistent()
    {
      var text := if provider.Some? then Some(provider.value.text) else newText;
      var skin := if provider.Some? then Some(provider.value.skin) else newSkin;
      var ping := if provider.Some? then Some(provider.value.ping) else newPing;
      EntryState(index, provider, text, text, skin, skin, ping, ping,
                 EntryChanged(currentText, text), EntryChanged(currentPing, ping), EntryChanged(currentSkin, skin),
                 provider.Some? || dirty)
    }

    /** `resetState()`. */
    function ResetState(): (r: EntryState)
      ensures !r.dirty && r.newText.None? && r.newSkin.None? && r.newPing.None? && r.Consistent()
      ensures r.index == index && r.provider == provider
      ensures r.currentText == currentText && r.currentSkin == currentSkin && r.currentPing == currentPing
      ensures r.textChanged == textChanged && r.skinChanged == skinChanged && r.pingChanged == pingChanged
    {
      this.(dirty := false, newText := None, newSkin := None, newPing := None)
    }

    /**
     * What the template's `set(pos, text, skin, ping)` does to the slot:
     * unbind the provider, then `setNewText`, `setNewSkin`, `setNewPing`.
     */
    function Assigned(values: Provider): (r: EntryState)
      ensures r.provider.None? && r.dirty && r.Consistent()
      ensures r.newText == Some(values.text) && r.newSkin == Some(values.skin) && r.newPing == Some(values.ping)
      ensures r.index == index
      ensures r.currentText == currentText && r.currentSkin == currentSkin && r.currentPing == currentPing
      ensures r.textChanged == textChanged && r.skinChanged == skinChanged && r.pingChanged == pingChanged
    {
      this.(provider := None, newText := Some(values.text), newSkin := Some(values.skin),
            newPing := Some(values.ping), dirty := true)
    }

    /** The template's text read: the committed value, else the candidate. */
    function ShownText(): Option<Component> {
      if currentText.Some? then currentText else newText
    }

    /** The template's skin read: the committed value, else the candidate. */
    function ShownSkin(): Option<TextureProperty> {
      if currentSkin.Some? then currentSkin else newSkin
    }

    /**
     * The template's ping read: the committed value, else the candidate.
     * `None` stands for the NullPointerException that unboxing a null
     * `Integer` into the `int` result raises.
     */
    function ShownPing(): Option<int> {
      if currentPing.Some? then currentPing else newPing
    }
  }

  /** A slot as the template constructor creates it: bound, nothing pending, nothing committed. */
  function Fresh(index: nat, provider: Provider): (e: EntryState)
    ensures e.index == index && e.provider == Some(provider) && !e.dirty && e.Consistent()
    ensures e.currentText.None? && e.currentSkin.None? && e.currentPing.None?
    ensures !e.AnyChanged()
  {
    EntryState(index, Some(provider), None, None, None, None, None, None, false, false, false, false)
  }

  /**
   * Two updates in a row report no change the second time, provided the
   * candidate values are set (a bound provider sets them on every pull).
   */
  lemma UpdateTwiceIsQuiet(e: EntryState)
    requires e.provider.Some? || (e.Consistent() && e.dirty)
    ensures !e.Updated().Updated().AnyChanged()
  {
  }

  /**
   * With no provider and nothing pending, `update()` nulls all three
   * committed values and reports every field as changed.
   */
  lemma UpdateOfEmptySlotChangesAll(e: EntryState)
    requires e.provider.None? && e.Consistent() && !e.dirty
    ensures var r := e.Updated();
      r.textChanged && r.skinChanged && r.pingChanged &&
      r.currentText.None? && r.currentSkin.None? && r.currentPing.None?
  {
  }

  /** A tab-list entry object; its fields are those of `MammothEntry`. */
  class Entry {
    const index: nat
    var entryProvider: Option<Provider>
    var currentText: Option<Component>
    var newText: Option<Component>
    var currentSkin: Option<TextureProperty>
    var newSkin: Option<TextureProperty>
    var currentPing: Option<int>
    var newPing: Option<int>
    var textChanged: bool
    var pingChanged: bool
    var skinChanged: bool
    var dirty: bool

    /** The entry's fields as one value. */
    function State(): EntryState
      reads this
    {
      EntryState(index, entryProvider, currentText, newText, currentSkin, newSkin,
                 currentPing, newPing, textChanged, pingChanged, skinChanged, dirty)
    }

    constructor (index: nat, entryProvider: Provider)
      ensures State() == Fresh(index, entryProvider)
    {
      this.index := index;
      this.entryProvider := Some(entryProvider);
      currentText, newText := None, None;
      currentSkin, newSkin := None, None;
      currentPing, newPing := None, None;
      textChanged, pingChanged, skinChanged, dirty := false, false, false, false;
    }

    /** `update()`: text, then skin, then ping, each pulled, compared and committed. */
    method Update()
      modifies this
      ensures State() == old(State()).Updated()
    {
      if entryProvider.Some? {
        SetNewText(entryProvider.value.text);
      }
      textChanged := currentText.None? || currentText != newText;
      currentText := newText;

      if entryProvider.Some? {
        SetNewSkin(entryProvider.value.skin);
      }
      skinChanged := currentSkin.None? || currentSkin != newSkin;
      currentSkin := newSkin;

      if entryProvider.Some? {
        SetNewPing(entryProvider.value.ping);
      }
      pingChanged := currentPing.None? || currentPing != newPing;
      currentPing := newPing;
    }

    /** `resetState()`. */
    method ResetState()
      modifies this
      ensures State() == old(State()).ResetState()
    {
      dirty := false;
      newText := None;
      newSkin := None;
      newPing := None;
    }

    /** `anyChanged()`. */
    predicate AnyChanged()
      reads this
    {
      State().AnyChanged()
    }

    /** `setEntryProvider(provider)`: changes the binding and nothing else. */
    method SetEntryProvider(provider: Option<Provider>)
      modifies this
      ensures State() == old(State()).(provider := provider)
    {
      entryProvider := provider;
    }

    /** `setNewText(text)`. */
    method SetNewText(text: Component)
      modifies this
      ensures State() == old(State()).(newText := Some(text), dirty := true)
    {
      newText := Some(text);
      dirty := true;
    }

    /** `setNewSkin(skin)`. */
    method SetNewSkin(skin: TextureProperty)
      modifies this
      ensures State() == old(State()).(newSkin := Some(skin), dirty := true)
    {
      newSkin := Some(skin);
      dirty := true;
    }

    /** `setNewPing(ping)`. */
    method SetNewPing(ping: int)
      modifies this
      ensures State() == old(State()).(newPing := Some(ping), dirty := true)
    {
      newPing := Some(ping);
      dirty := true;
    }
  }
}
