/**
 * The template: a grid of 4 columns by 20 rows of slots plus one header and
 * footer, the setters that write them, the reads that look at them, and the
 * three points a concrete template may override (the per-tick hook, the
 * state-reset policy and the default provider).
 */
module Templates {
  import opened Wrappers
  import opened Content
  import opened EntryProviders
  import opened Entries
  import opened HeadersAndFooters

  /** `DEFAULT_PROVIDER`: empty text, the question-mark head, ping -1. */
  const DEFAULT_PROVIDER: Provider := EntryProvider(EMPTY, QUESTION_MARK, -1)

  /** The hook of the stock `update()`, which makes no call. */
  const DEFAULT_HOOK: seq<HookOp> := []

  /** The stock `updateEntryStates()`: pending state is reset after every tick. */
  const DEFAULT_UPDATE_ENTRY_STATES: bool := true

  /** `TEMPLATE_MAX_ROWS`. */
  const TEMPLATE_MAX_ROWS: nat := 20

  /** `TEMPLATE_MAX_COLUMNS`. */
  const TEMPLATE_MAX_COLUMNS: nat := 4

  /** `TEMPLATE_MAX_SIZE`, the number of slots. */
  const TEMPLATE_MAX_SIZE: nat := TEMPLATE_MAX_COLUMNS * TEMPLATE_MAX_ROWS

  /** The range of a Java `int`. */
  predicate IsJavaInt(v: int) {
    -0x8000_0000 <= v < 0x8000_0000
  }

  /** Java `int` arithmetic: the result reduced into range modulo 2^32. */
  function WrapInt(v: int): (r: int)
    ensures IsJavaInt(r) && (r - v) % 0x1_0000_0000 == 0
    ensures IsJavaInt(v) ==> r == v
  {
    (v + 0x8000_0000) % 0x1_0000_0000 - 0x8000_0000
  }

  /**
   * `pos(x, y)`, computed in Java `int` arithmetic. On the grid it is the
   * column-major index, and column and row can be read back from it.
   */
  function Pos(x: int, y: int): (p: int)
    requires IsJavaInt(x) && IsJavaInt(y)
    ensures IsJavaInt(p)
    ensures 0 <= x < TEMPLATE_MAX_COLUMNS && 0 <= y < TEMPLATE_MAX_ROWS ==>
      0 <= p < TEMPLATE_MAX_SIZE && p / TEMPLATE_MAX_ROWS == x && p % TEMPLATE_MAX_ROWS == y
  {
    WrapInt(x * TEMPLATE_MAX_ROWS + y)
  }

  /** Every slot index is the position of exactly one grid cell. */
  lemma PosCoversGrid(p: int)
    requires 0 <= p < TEMPLATE_MAX_SIZE
    ensures 0 <= p / TEMPLATE_MAX_ROWS < TEMPLATE_MAX_COLUMNS && 0 <= p % TEMPLATE_MAX_ROWS < TEMPLATE_MAX_ROWS
    ensures Pos(p / TEMPLATE_MAX_ROWS, p % TEMPLATE_MAX_ROWS) == p
    ensures forall x, y :: 0 <= x < TEMPLATE_MAX_COLUMNS && 0 <= y < TEMPLATE_MAX_ROWS && Pos(x, y) == p ==>
      x == p / TEMPLATE_MAX_ROWS && y == p % TEMPLATE_MAX_ROWS
  {
  }

  /**
   * `pos` checks neither coordinate: a row past the last one lands in the
   * next column, and a huge column wraps around into the grid.
   */
  lemma PosIsUnchecked()
    ensures Pos(0, 20) == Pos(1, 0) == 20
    ensures Pos(214748365, 0) == 4
  {
  }

  /** How a template operation names its slot: a linear index or a grid cell. */
  datatype Position = Linear(pos: int) | Cell(x: int, y: int) {
    predicate WellTyped() {
      match this
      case Linear(p) => IsJavaInt(p)
      case Cell(x, y) => IsJavaInt(x) && IsJavaInt(y)
    }

    /** The slot index the operation touches. */
    function Index(): int
      requires WellTyped()
    {
      match this
      case Linear(p) => p
      case Cell(x, y) => Pos(x, y)
    }

    /** The array access `entries[pos]` succeeds; it is the only check. */
    predicate InRange() {
      WellTyped() && 0 <= Index() < TEMPLATE_MAX_SIZE
    }
  }

  /** The arguments of the `set` overloads, after the position. */
  datatype Contents =
    | FromProvider(provider: Provider)
    | TextOnly(text: Component)
    | SkinOnly(skin: TextureProperty)
    | PingOnly(ping: int)
    | TextAndPing(text: Component, ping: int)
    | TextAndSkin(text: Component, skin: TextureProperty)
    | SkinAndPing(skin: TextureProperty, ping: int)
    | Everything(text: Component, skin: TextureProperty, ping: int)

  /**
   * The three values a `set` overload writes: the given ones, and for the
   * rest the values of `DEFAULT_PROVIDER`. Each overload writes exactly what
   * the factory of the same arguments would provide.
   */
  function Resolve(contents: Contents): (values: Provider)
    ensures contents.FromProvider? ==> values == contents.provider
    ensures contents.TextOnly? ==> values == EntryProviderText(contents.text)
    ensures contents.SkinOnly? ==> values == EntryProviderSkin(contents.skin)
    ensures contents.PingOnly? ==> values == EntryProviderPing(contents.ping)
    ensures contents.TextAndPing? ==> values == EntryProviderTextPing(contents.text, contents.ping)
    ensures contents.TextAndSkin? ==> values == EntryProviderTextSkin(contents.text, contents.skin)
    ensures contents.SkinAndPing? ==> values == EntryProviderSkinPing(contents.skin, contents.ping)
    ensures contents.Everything? ==> values == EntryProvider(contents.text, contents.skin, contents.ping)
  {
    var d := DEFAULT_PROVIDER;
    match contents
    case FromProvider(p) => Provider(p.text, p.skin, p.ping)
    case TextOnly(t) => Provider(t, d.skin, d.ping)
    case SkinOnly(s) => Provider(d.text, s, d.ping)
    case PingOnly(p) => Provider(d.text, d.skin, p)
    case TextAndPing(t, p) => Provider(t, d.skin, p)
    case TextAndSkin(t, s) => Provider(t, s, d.ping)
    case SkinAndPing(s, p) => Provider(d.text, s, p)
    case Everything(t, s, p) => Provider(t, s, p)
  }

  /**
   * One call a template's `update()` hook makes: `set`, `provider`,
   * `reset`, `header` or `footer` (`resetHeader()` is `HeaderOp(None)`,
   * `resetFooter()` is `FooterOp(None)`).
   */
  datatype HookOp =
    | SetOp(at: Position, contents: Contents)
    | ProviderOp(at: Position, provider: Provider)
    | ResetOp(at: Position)
    | HeaderOp(header: Option<Component>)
    | FooterOp(footer: Option<Component>)
  {
    predicate InRange() {
      (SetOp? || ProviderOp? || ResetOp?) ==> at.InRange()
    }
  }

  predicate AllInRange(ops: seq<HookOp>) {
    forall op :: op in ops ==> op.InRange()
  }

  /** The state of a whole template: its slots in index order and its header and footer. */
  datatype Grid = Grid(slots: seq<EntryState>, banner: BannerState)

  /** The slot list has one slot per index, each knowing its index and consistent. */
  predicate WellFormed(slots: seq<EntryState>) {
    |slots| == TEMPLATE_MAX_SIZE &&
    forall k :: 0 <= k < |slots| ==> slots[k].index == k && slots[k].Consistent()
  }

  /** The two slots agree on index, committed values and changed flags. */
  predicate SameCommitted(a: EntryState, b: EntryState) {
    a.index == b.index &&
    a.currentText == b.currentText && a.currentSkin == b.currentSkin && a.currentPing == b.currentPing &&
    a.textChanged == b.textChanged && a.skinChanged == b.skinChanged && a.pingChanged == b.pingChanged
  }

  /** The template a constructor leaves, every slot bound to `d`. */
  function FreshGrid(d: Provider): (g: Grid)
    ensures WellFormed(g.slots)
    ensures forall k :: 0 <= k < |g.slots| ==> g.slots[k] == Fresh(k, d)
    ensures g.banner == FRESH_BANNER
  {
    Grid(seq(TEMPLATE_MAX_SIZE, k requires 0 <= k => Fresh(k, d)), FRESH_BANNER)
  }

  /**
   * The effect of one hook call, `d` being the template's default provider.
   * The call writes pending values and bindings only: committed values and
   * changed flags stay as they were.
   */
  function ApplyOp(g: Grid, op: HookOp, d: Provider): (r: Grid)
    requires |g.slots| == TEMPLATE_MAX_SIZE && op.InRange()
    ensures |r.slots| == TEMPLATE_MAX_SIZE
    ensures WellFormed(g.slots) ==> WellFormed(r.slots)
    ensures forall k :: 0 <= k < |r.slots| ==> SameCommitted(g.slots[k], r.slots[k])
    ensures r.banner.currentHeader == g.banner.currentHeader && r.banner.currentFooter == g.banner.currentFooter
  {
    match op
    case SetOp(at, contents) =>
      g.(slots := g.slots[at.Index() := g.slots[at.Index()].Assigned(Resolve(contents))])
    case ResetOp(at) =>
      g.(slots := g.slots[at.Index() := g.slots[at.Index()].Assigned(d)])
    case ProviderOp(at, p) =>
      g.(slots := g.slots[at.Index() := g.slots[at.Index()].(provider := Some(p))])
    case HeaderOp(h) =>
      g.(banner := g.banner.(newHeader := h))
    case FooterOp(f) =>
      g.(banner := g.banner.(newFooter := f))
  }

  /** The effect of a hook that makes the calls `ops`, in order. */
  function ApplyOps(g: Grid, ops: seq<HookOp>, d: Provider): (r: Grid)
    requires |g.slots| == TEMPLATE_MAX_SIZE && AllInRange(ops)
    ensures |r.slots| == TEMPLATE_MAX_SIZE
    ensures WellFormed(g.slots) ==> WellFormed(r.slots)
    ensures forall k :: 0 <= k < |r.slots| ==> SameCommitted(g.slots[k], r.slots[k])
    ensures r.banner.currentHeader == g.banner.currentHeader && r.banner.currentFooter == g.banner.currentFooter
    decreases |ops|
  {
    if ops == [] then g
    else
      var last := ops[|ops| - 1];
      assert last in ops;
      ApplyOp(ApplyOps(g, ops[..|ops| - 1], d), last, d)
  }

  /**
   * A tab-list template. The three members a subclass may override are
   * fixed when the template is built: `hook` is what `update()` does on
   * every tick, `updateEntryStates` what `updateEntryStates()` answers, and
   * `defaultProvider` what `defaultProvider()` returns. A template that
   * overrides none of them is built with `DEFAULT_PROVIDER`,
   * `DEFAULT_UPDATE_ENTRY_STATES` and `DEFAULT_HOOK`.
   */
  class Template {
    const entries: array<Entry>
    const headerAndFooter: HeaderAndFooter
    const defaultProvider: Provider
    const updateEntryStates: bool
    const hook: seq<HookOp>

    /** The entry objects; entry `i` has index `i`, so they are all distinct. */
    ghost const EntrySet: set<Entry>
    /** The states of the entries, in index order. */
    ghost var slots: seq<EntryState>

    ghost predicate Valid()
      reads this, entries, EntrySet
    {
      entries.Length == TEMPLATE_MAX_SIZE &&
      WellFormed(slots) &&
      AllInRange(hook) &&
      forall i :: 0 <= i < TEMPLATE_MAX_SIZE ==>
        entries[i] in EntrySet && entries[i].index == i && entries[i].State() == slots[i]
    }

    /** The whole template as one value. */
    ghost function Model(): Grid
      reads this, headerAndFooter
    {
      Grid(slots, headerAndFooter.State())
    }

    /**
     * The constructor: 80 entries, entry `i` with index `i` bound to the
     * default provider, and an empty header and footer.
     */
    constructor (defaultProvider: Provider, updateEntryStates: bool, hook: seq<HookOp>)
      requires AllInRange(hook)
      ensures Valid() && Model() == FreshGrid(defaultProvider)
      ensures this.defaultProvider == defaultProvider && this.updateEntryStates == updateEntryStates
      ensures this.hook == hook
      ensures fresh(entries) && fresh(EntrySet) && fresh(headerAndFooter)
    {
      var hf := new HeaderAndFooter();
      var built: seq<Entry> := [];
      for i := 0 to TEMPLATE_MAX_SIZE
        invariant |built| == i && hf.State() == FRESH_BANNER
        invariant forall k :: 0 <= k < i ==> fresh(built[k]) && built[k].State() == Fresh(k, defaultProvider)
        invariant forall k, l :: 0 <= k < l < i ==> built[k] != built[l]
      {
        var e := new Entry(i, defaultProvider);
        built := built + [e];
      }
      entries := new Entry[TEMPLATE_MAX_SIZE](k requires 0 <= k < TEMPLATE_MAX_SIZE => built[k]);
      headerAndFooter := hf;
      this.defaultProvider := defaultProvider;
      this.updateEntryStates := updateEntryStates;
      this.hook := hook;
      EntrySet := set k | 0 <= k < TEMPLATE_MAX_SIZE :: built[k];
      slots := FreshGrid(defaultProvider).slots;
    }

    /**
     * Every `set` overload: unbind the slot's provider and write all three
     * pending values; no other slot and not the header or footer changes.
     */
    method Set(at: Position, contents: Contents)
      requires Valid() && at.InRange()
      modifies this, entries[at.Index()]
      ensures Valid()
      ensures slots == old(slots)[at.Index() := old(slots)[at.Index()].Assigned(Resolve(contents))]
    {
      var values := Resolve(contents);
      var container := entries[at.Index()];
      container.SetEntryProvider(None);
      container.SetNewText(values.text);
      container.SetNewSkin(values.skin);
      container.SetNewPing(values.ping);
      slots := slots[at.Index() := container.State()];
    }

    /** `reset`: `set` with the values of the template's default provider. */
    method Reset(at: Position)
      requires Valid() && at.InRange()
      modifies this, entries[at.Index()]
      ensures Valid()
      ensures slots == old(slots)[at.Index() := old(slots)[at.Index()].Assigned(defaultProvider)]
    {
      Set(at, FromProvider(defaultProvider));
    }

    /** `provider`: bind a provider, leaving pending values and `dirty` alone. */
    method SetProvider(at: Position, provider: Provider)
      requires Valid() && at.InRange()
      modifies this, entries[at.Index()]
      ensures Valid()
      ensures slots == old(slots)[at.Index() := old(slots)[at.Index()].(provider := Some(provider))]
    {
      entries[at.Index()].SetEntryProvider(Some(provider));
      slots := slots[at.Index() := entries[at.Index()].State()];
    }

    /** `header(header)`; `resetHeader()` is `Header(None)`. */
    method Header(header: Option<Component>)
      modifies headerAndFooter
      ensures headerAndFooter.State() == old(headerAndFooter.State()).(newHeader := header)
    {
      headerAndFooter.SetNewHeader(header);
    }

    /** `footer(footer)`; `resetFooter()` is `Footer(None)`. */
    method Footer(footer: Option<Component>)
      modifies headerAndFooter
      ensures headerAndFooter.State() == old(headerAndFooter.State()).(newFooter := footer)
    {
      headerAndFooter.SetNewFooter(footer);
    }

    /** `currentText(pos)`: the committed text, else the pending one. */
    function CurrentText(pos: int): (text: Option<Component>)
      requires Valid() && 0 <= pos < TEMPLATE_MAX_SIZE
      reads this, entries, EntrySet
      ensures text == slots[pos].ShownText()
    {
      var container := entries[pos];
      if container.currentText.Some? then container.currentText else container.newText
    }

    /** `currentSkin(pos)`: the committed skin, else the pending one. */
    function CurrentSkin(pos: int): (skin: Option<TextureProperty>)
      requires Valid() && 0 <= pos < TEMPLATE_MAX_SIZE
      reads this, entries, EntrySet
      ensures skin == slots[pos].ShownSkin()
    {
      var container := entries[pos];
      if container.currentSkin.Some? then container.currentSkin else container.newSkin
    }

    /** `currentPing(pos)`: the committed ping, else the pending one; `None` is the null unboxing failure. */
    function CurrentPing(pos: int): (ping: Option<int>)
      requires Valid() && 0 <= pos < TEMPLATE_MAX_SIZE
      reads this, entries, EntrySet
      ensures ping == slots[pos].ShownPing()
    {
      var container := entries[pos];
      if container.currentPing.Some? then container.currentPing else container.newPing
    }

    /** `currentHeader()`: the committed header, else the pending one. */
    function CurrentHeader(): (header: Option<Component>)
      reads headerAndFooter
      ensures header == headerAndFooter.State().ShownHeader()
    {
      if headerAndFooter.currentHeader.Some? then headerAndFooter.currentHeader else headerAndFooter.newHeader
    }

    /** `currentFooter()`: the committed footer, else the pending one. */
    function CurrentFooter(): (footer: Option<Component>)
      reads headerAndFooter
      ensures footer == headerAndFooter.State().ShownFooter()
    {
      if headerAndFooter.currentFooter.Some? then headerAndFooter.currentFooter else headerAndFooter.newFooter
    }

    /** One call the hook makes. */
    method Apply(op: HookOp)
      requires Valid() && op.InRange()
      modifies this, EntrySet, headerAndFooter
      ensures Valid()
      ensures Model() == ApplyOp(old(Model()), op, defaultProvider)
    {
      match op
      case SetOp(at, contents) => Set(at, contents);
      case ProviderOp(at, provider) => SetProvider(at, provider);
      case ResetOp(at) => Reset(at);
      case HeaderOp(header) => Header(header);
      case FooterOp(footer) => Footer(footer);
    }

    /** `update()`: the hook, making its calls in order. */
    method Update()
      requires Valid()
      modifies this, EntrySet, headerAndFooter
      ensures Valid()
      ensures Model() == ApplyOps(old(Model()), hook, defaultProvider)
    {
      for k := 0 to |hook|
        invariant Valid()
        invariant Model() == ApplyOps(old(Model()), hook[..k], defaultProvider)
      {
        assert hook[..k + 1][..k] == hook[..k];
        assert hook[k] in hook;
        Apply(hook[k]);
      }
      assert hook[..|hook|] == hook;
    }
  }
}
