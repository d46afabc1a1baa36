# Mammoth tab-list engine in Dafny

Mammoth fills a Minecraft player's tab list with 80 fake players. They sit in
a grid of 4 columns by 20 rows, and one header and footer sit above and below
it. A *template* says what each slot shows. Once per tick the per-player tab
list works out which slots changed and sends only those to the client.

This project models that change-tracking engine and proves properties of it:

- **Slots** (`entry.dfy`, module `Entries`). The class `Entry` is
  `MammothEntry`: text, skin and ping, each with a committed ("current") and
  a pending ("new") value, plus three changed flags, `dirty` and an optional
  provider. Its value mirror `EntryState` gives every method a function to
  be proved against. The fake player name `!mammoth-%02d` is `Name`.
- **Header and footer** (`header_footer.dfy`, module `HeadersAndFooters`).
  The class `HeaderAndFooter` and its mirror `BannerState` carry a change
  rule of their own, in which null to null is not a change.
- **Entry providers** (`entry_provider.dfy`, module `EntryProviders`). These
  are the default `skin()`/`ping()` answers and the seven `entryProvider`
  factories, as value triples.
- **Template** (`template.dfy`, module `Templates`). The class `Template`
  owns an `array<Entry>` of 80 distinct entries and one `HeaderAndFooter`.
  - `Pos` is `pos(x, y)` in Java `int` arithmetic.
  - The 16 `set` overloads are one `Set` over a `Position` and a
    `Contents`. `Reset`, `SetProvider`, `Header`/`Footer` and the five
    `current…` reads are modelled too.
  - The three members a concrete template overrides become constructor
    arguments: the `update()` hook, given as a script of template calls
    (`HookOp`); `updateEntryStates()`; and `defaultProvider()`. Their stock
    versions are `DEFAULT_HOOK` (no call), `DEFAULT_UPDATE_ENTRY_STATES`
    (true) and `DEFAULT_PROVIDER`.
  - `ApplyOps` is the hook's effect on a value-level `Grid`.
- **Tick driver** (`tab_list.dfy`, module `TabLists`). The class
  `ModernTabList` is `ModernMammothTabList`.
  - Its three batch lists are `seq` fields.
  - Every call to the platform (`send`, `sendHeaderAndFooter`) is appended
    to a `log`.
  - `Tick` is the whole `update()` as a function on values. The method
    `Update` is proved to change the template and the log exactly as
    `Tick` says.
- **Tick properties** (`tick_properties.dfy`, module `TickProperties`).
  These cover batch routing, the first tick after construction, the quiet
  second tick, and how a one-off `set` behaves under each reset policy.

`platform.dfy` declares `GameFeature`, `UpdateAction`, the baked entry record
and the two kinds of platform call. `content.dfy` declares the text and skin
types. `wrappers.dfy` declares `Option`, the model of Java's `null`.

The javadoc of `MammothEntry.dirty()` (`MammothEntry.java:142-149`) calls an
entry dirty when its content is *not* manipulated by an entry provider. The
code does otherwise, and the model follows the code. `update()` pulls from a
bound provider through `setNewText`, `setNewSkin` and `setNewPing`
(`MammothEntry.java:54-56,64-66,74-76`). Each of these sets `dirty = true`
(`MammothEntry.java:117-140`). So a provider-bound entry is always dirty
after `update()`, and `Entries.EntryState.Updated` states this.

## Model

| member | source | states |
|---|---|---|
| EntryProviders.TextProvider | common/src/main/java/wtf/villain/mammoth/template/MammothEntryProvider.java:40-51 | a provider that implements only `text()` answers that text, the question-mark skin and ping -1 |
| EntryProviders.EntryProvider | common/src/main/java/wtf/villain/mammoth/template/MammothEntryProvider.java:131-139 | `entryProvider(text, property, ping)` answers exactly its three arguments |
| EntryProviders.EntryProviderTextSkin | common/src/main/java/wtf/villain/mammoth/template/MammothEntryProvider.java:106-108 | `entryProvider(text, property)` is (text, property, -1) |
| EntryProviders.EntryProviderText | common/src/main/java/wtf/villain/mammoth/template/MammothEntryProvider.java:60-62 | `entryProvider(text)` is (text, QUESTION_MARK, -1) |
| EntryProviders.EntryProviderSkin | common/src/main/java/wtf/villain/mammoth/template/MammothEntryProvider.java:71-73 | `entryProvider(property)` is (empty, property, -1) |
| EntryProviders.EntryProviderTextPing | common/src/main/java/wtf/villain/mammoth/template/MammothEntryProvider.java:94-96 | `entryProvider(text, ping)` is (text, QUESTION_MARK, ping) |
| EntryProviders.EntryProviderPing | common/src/main/java/wtf/villain/mammoth/template/MammothEntryProvider.java:82-84 | `entryProvider(ping)` is (empty, QUESTION_MARK, ping) |
| EntryProviders.EntryProviderSkinPing | common/src/main/java/wtf/villain/mammoth/template/MammothEntryProvider.java:118-120 | `entryProvider(property, ping)` is (empty, property, ping) |
| Entries.Decimal | common/src/main/java/wtf/villain/mammoth/template/MammothEntry.java:19 | `%d` of a non-negative number gives decimal digits that denote it: one digit below 10, two below 100 |
| Entries.Name | common/src/main/java/wtf/villain/mammoth/template/MammothEntry.java:257-259 | `name()` applies `!mammoth-%02d` to the index: eleven characters for every index below 100 (the full format is `NameFormat`) |
| Entries.NameFormat | common/src/main/java/wtf/villain/mammoth/template/MammothEntry.java:257-259 | `name()` is `!mammoth-` followed by digits denoting the index, at least two of them and exactly two for indices below 100 |
| Entries.NamesDistinct | common/src/main/java/wtf/villain/mammoth/template/MammothEntry.java:257-259 | different indices give different fake names |
| Entries.EntryChanged | common/src/main/java/wtf/villain/mammoth/template/MammothEntry.java:58 | the slot change rule, used for text, skin and ping alike (lines 58, 68, 78): a field is unchanged exactly when its committed value is non-null and equals the pending one |
| Entries.EntryState.Updated | common/src/main/java/wtf/villain/mammoth/template/MammothEntry.java:51-81 | with a provider bound, the pending values become its three answers and `dirty` becomes true; without one, pending values and `dirty` stay. Each changed flag holds iff the old current value was null or differs from the pending one, and current then equals pending for all three fields |
| Entries.EntryState.ResetState | common/src/main/java/wtf/villain/mammoth/template/MammothEntry.java:86-92 | `dirty` false and all pending values null; current values, flags, index and provider unchanged |
| Entries.EntryState.Assigned | common/src/main/java/wtf/villain/mammoth/template/MammothTemplate.java:359-365 | a template `set`: provider cleared, the three pending values written, `dirty` true, committed values and flags unchanged |
| Entries.Fresh | common/src/main/java/wtf/villain/mammoth/template/MammothEntry.java:43-46 | a new entry has its index, the given provider, nothing pending or committed, and no flag set |
| Entries.UpdateTwiceIsQuiet | common/src/main/java/wtf/villain/mammoth/template/MammothEntry.java:51-81 | a second `update()` reports no change when a provider is bound or a pending write is set |
| Entries.UpdateOfEmptySlotChangesAll | common/src/main/java/wtf/villain/mammoth/template/MammothEntry.java:51-81 | with no provider and nothing pending, `update()` nulls all committed values and reports all three fields changed |
| Entries.Entry.constructor | common/src/main/java/wtf/villain/mammoth/template/MammothEntry.java:43-46 | the new object's state is `Fresh(index, provider)` |
| Entries.Entry.Update | common/src/main/java/wtf/villain/mammoth/template/MammothEntry.java:51-81 | the step-by-step `update()` leaves exactly the state `Updated()` describes |
| Entries.Entry.ResetState | common/src/main/java/wtf/villain/mammoth/template/MammothEntry.java:86-92 | the new state is `ResetState()` of the old |
| Entries.Entry.SetEntryProvider | common/src/main/java/wtf/villain/mammoth/template/MammothEntry.java:108-110 | only the provider changes |
| Entries.Entry.SetNewText | common/src/main/java/wtf/villain/mammoth/template/MammothEntry.java:117-120 | only the pending text changes, and `dirty` becomes true |
| Entries.Entry.SetNewSkin | common/src/main/java/wtf/villain/mammoth/template/MammothEntry.java:127-130 | only the pending skin changes, and `dirty` becomes true |
| Entries.Entry.SetNewPing | common/src/main/java/wtf/villain/mammoth/template/MammothEntry.java:137-140 | only the pending ping changes, and `dirty` becomes true |
| HeadersAndFooters.BannerChanged | common/src/main/java/wtf/villain/mammoth/template/MammothHeaderAndFooter.java:34-35 | the header/footer rule holds exactly when current and pending differ: null to null is no change, a value to null is one |
| HeadersAndFooters.SlotRuleVersusBannerRule | common/src/main/java/wtf/villain/mammoth/template/MammothHeaderAndFooter.java:34-35 | the slot rule is the header/footer rule plus the null-to-null case |
| HeadersAndFooters.BannerState.Updated | common/src/main/java/wtf/villain/mammoth/template/MammothHeaderAndFooter.java:31-45 | both pending values are committed; each flag holds iff the old current value differs from the pending one |
| HeadersAndFooters.BannerState.ResetState | common/src/main/java/wtf/villain/mammoth/template/MammothHeaderAndFooter.java:50-53 | both pending values null; current values and flags unchanged |
| HeadersAndFooters.UpdateTwiceIsQuiet | common/src/main/java/wtf/villain/mammoth/template/MammothHeaderAndFooter.java:31-45 | a second `update()` with no write in between reports no change |
| HeadersAndFooters.HeaderAndFooter.constructor | common/src/main/java/wtf/villain/mammoth/template/MammothHeaderAndFooter.java:24-26 | all four values null and both flags false |
| HeadersAndFooters.HeaderAndFooter.Update | common/src/main/java/wtf/villain/mammoth/template/MammothHeaderAndFooter.java:31-45 | the new state is `Updated()` of the old |
| HeadersAndFooters.HeaderAndFooter.ResetState | common/src/main/java/wtf/villain/mammoth/template/MammothHeaderAndFooter.java:50-53 | the new state is `ResetState()` of the old |
| HeadersAndFooters.HeaderAndFooter.SetNewHeader | common/src/main/java/wtf/villain/mammoth/template/MammothHeaderAndFooter.java:69-71 | only the pending header changes |
| HeadersAndFooters.HeaderAndFooter.SetNewFooter | common/src/main/java/wtf/villain/mammoth/template/MammothHeaderAndFooter.java:78-80 | only the pending footer changes |
| Templates.WrapInt | common/src/main/java/wtf/villain/mammoth/template/MammothTemplate.java:463-465 | Java `int` arithmetic: the result is in range and congruent to the exact value modulo 2^32, and equal to it when that is in range |
| Templates.Pos | common/src/main/java/wtf/villain/mammoth/template/MammothTemplate.java:463-465 | `pos(x, y)` is a Java `int`; on the 4 × 20 grid it lies in [0, 80), with column `p / 20` and row `p % 20` |
| Templates.PosCoversGrid | common/src/main/java/wtf/villain/mammoth/template/MammothTemplate.java:39-52 | every index in [0, 80) is `pos` of exactly one grid cell, so `pos` is a bijection from the grid onto [0, 80) |
| Templates.PosIsUnchecked | common/src/main/java/wtf/villain/mammoth/template/MammothTemplate.java:463-465 | `pos` checks nothing: row 20 of column 0 is slot 20, and column 214748365 wraps round to slot 4 |
| Templates.Resolve | common/src/main/java/wtf/villain/mammoth/template/MammothTemplate.java:192-366 | each `set` overload writes the triple that the `entryProvider` factory with the same arguments gives, so missing fields come from `DEFAULT_PROVIDER` |
| Templates.FreshGrid | common/src/main/java/wtf/villain/mammoth/template/MammothTemplate.java:60-67 | a new template has 80 well-formed slots, slot k being `Fresh(k, defaultProvider())`, and an empty header and footer |
| Templates.ApplyOp | common/src/main/java/wtf/villain/mammoth/template/MammothTemplate.java:105-390 | a template call keeps the grid well formed and touches no committed value or changed flag |
| Templates.ApplyOps | common/src/main/java/wtf/villain/mammoth/template/MammothTemplate.java:75-77 | the hook's calls in order: the same preservation over any number of calls |
| Templates.Template.constructor | common/src/main/java/wtf/villain/mammoth/template/MammothTemplate.java:60-67 | 80 fresh, distinct entries, entry i with index i bound to the default provider; the template's value is `FreshGrid` |
| Templates.Template.Set | common/src/main/java/wtf/villain/mammoth/template/MammothTemplate.java:359-365 | slot `pos` becomes `Assigned(Resolve(contents))`, and every other slot is unchanged |
| Templates.Template.Reset | common/src/main/java/wtf/villain/mammoth/template/MammothTemplate.java:172-183 | `set` with the values of `defaultProvider()`, provider cleared; other slots unchanged |
| Templates.Template.SetProvider | common/src/main/java/wtf/villain/mammoth/template/MammothTemplate.java:376-390 | only slot `pos`'s provider changes; its pending values and `dirty` stay |
| Templates.Template.Header | common/src/main/java/wtf/villain/mammoth/template/MammothTemplate.java:105-123 | `header(h)` and `resetHeader()` change only the pending header |
| Templates.Template.Footer | common/src/main/java/wtf/villain/mammoth/template/MammothTemplate.java:112-132 | `footer(f)` and `resetFooter()` change only the pending footer |
| Templates.Template.CurrentText | common/src/main/java/wtf/villain/mammoth/template/MammothTemplate.java:399-412 | the committed text if non-null, else the pending one |
| Templates.Template.CurrentSkin | common/src/main/java/wtf/villain/mammoth/template/MammothTemplate.java:421-434 | the committed skin if non-null, else the pending one |
| Templates.Template.CurrentPing | common/src/main/java/wtf/villain/mammoth/template/MammothTemplate.java:442-454 | the committed ping if non-null, else the pending one; `None` when both are null |
| Templates.Template.CurrentHeader | common/src/main/java/wtf/villain/mammoth/template/MammothTemplate.java:140-148 | the committed header if non-null, else the pending one |
| Templates.Template.CurrentFooter | common/src/main/java/wtf/villain/mammoth/template/MammothTemplate.java:156-164 | the committed footer if non-null, else the pending one |
| Templates.Template.Apply | common/src/main/java/wtf/villain/mammoth/template/MammothTemplate.java:105-390 | one template call changes the template's value exactly as `ApplyOp` says |
| Templates.Template.Update | common/src/main/java/wtf/villain/mammoth/template/MammothTemplate.java:75-77 | running the hook changes the template's value exactly as `ApplyOps` says |
| Platform.Bake | common/src/main/java/wtf/villain/mammoth/tablist/impl/ModernMammothTabList.java:73 | `bakeEntry`: the record sent for a slot, its fake name `Name(index)` with the committed text, skin and ping and the feature set (no contract of its own; its property is `BakesDistinct`) |
| Platform.BakesDistinct | common/src/main/java/wtf/villain/mammoth/tablist/impl/ModernMammothTabList.java:73 | the bakes of two different slots always differ, and so do their fake names, whatever the slots show |
| Platform.BakeAll | common/src/main/java/wtf/villain/mammoth/tablist/impl/ModernMammothTabList.java:48-52 | one bake per entry, in entry order |
| TabLists.Evaluated | common/src/main/java/wtf/villain/mammoth/tablist/impl/ModernMammothTabList.java:62-69 | a slot's `update()` plus the fallback. The fallback binds the default provider iff the slot had neither provider nor pending write. Afterwards the slot is dirty and shows the provider's answers, or else the pending write. Each flag holds iff the fallback fired or that committed value moved |
| TabLists.RoutedTo | common/src/main/java/wtf/villain/mammoth/tablist/impl/ModernMammothTabList.java:72-86 | which list a changed entry is added to: only a changed entry is routed, never to REMOVE. A changed skin routes it to ADD alone; any other route means the skin did not change |
| TabLists.Bucket | common/src/main/java/wtf/villain/mammoth/tablist/impl/ModernMammothTabList.java:72-86 | the contents of one batch list after the loop: the bakes of the routed entries in index order, and nothing for REMOVE (membership in both directions is `BucketSource` and `BucketComplete`) |
| TabLists.BucketSource | common/src/main/java/wtf/villain/mammoth/tablist/impl/ModernMammothTabList.java:72-86 | every bake in a batch comes from a slot routed to that batch |
| TabLists.BucketComplete | common/src/main/java/wtf/villain/mammoth/tablist/impl/ModernMammothTabList.java:72-86 | every slot routed to a batch has its bake in it |
| TabLists.Tick | common/src/main/java/wtf/villain/mammoth/tablist/impl/ModernMammothTabList.java:41-111 | one tick: the hook, then slots 0..79 evaluated and routed, three batches and the header/footer sent. It keeps the template well formed. Afterwards every slot is dirty iff entry states are kept, and with reset the header and footer have nothing pending |
| TabLists.ModernTabList.constructor | common/src/main/java/wtf/villain/mammoth/tablist/impl/ModernMammothTabList.java:33-38 | empty batch lists and an empty log |
| TabLists.ModernTabList.Update | common/src/main/java/wtf/villain/mammoth/tablist/impl/ModernMammothTabList.java:41-44 | the template ends in `Tick`'s grid, and the log gains exactly `Tick`'s sends |
| TabLists.ModernTabList.UpdateTabList | common/src/main/java/wtf/villain/mammoth/tablist/impl/ModernMammothTabList.java:58-97 | the hook runs once, before any slot is evaluated. The slots end evaluated and settled in index order. The log gains ADD, UPDATE_NAME and UPDATE_LATENCY batches, in that order, and the batch lists end empty |
| TabLists.ModernTabList.EvaluateEntries | common/src/main/java/wtf/villain/mammoth/tablist/impl/ModernMammothTabList.java:61-91 | the loop: slot k ends as `Settled(Evaluated(slot k))`, and each batch list is the routed bakes in index order |
| TabLists.ModernTabList.EvaluateSlot | common/src/main/java/wtf/villain/mammoth/tablist/impl/ModernMammothTabList.java:62-90 | the turn of slot `i`: that slot ends as `Settled(Evaluated(slot i))` and every other slot is unchanged. Its bake is appended to exactly the batch lists `RoutedTo` names, and nothing is sent |
| TabLists.ModernTabList.EvaluateEntry | common/src/main/java/wtf/villain/mammoth/tablist/impl/ModernMammothTabList.java:62-90 | one slot's turn: evaluated, routed into at most the batches `RoutedTo` names, then reset iff `updateEntryStates()` |
| TabLists.ModernTabList.Refresh | common/src/main/java/wtf/villain/mammoth/tablist/impl/ModernMammothTabList.java:63-69 | `update()` and the fallback leave the entry in the state `Evaluated` describes |
| TabLists.ModernTabList.Route | common/src/main/java/wtf/villain/mammoth/tablist/impl/ModernMammothTabList.java:72-86 | a changed skin appends the bake to the ADD list only; otherwise a changed text appends it to the UPDATE_NAME list and a changed ping to the UPDATE_LATENCY list |
| TabLists.ModernTabList.UpdateHeaderFooter | common/src/main/java/wtf/villain/mammoth/tablist/impl/ModernMammothTabList.java:99-111 | the header and footer are updated, sent with their pending values iff either changed, then reset iff `updateEntryStates()` |
| TabLists.ModernTabList.Destroy | common/src/main/java/wtf/villain/mammoth/tablist/impl/ModernMammothTabList.java:47-56 | the log gains one REMOVE batch of 80 bakes, the k-th named `Name(k)`; the batch lists end empty and the template is untouched |
| TabLists.ModernTabList.ClearBakedData | common/src/main/java/wtf/villain/mammoth/tablist/impl/ModernMammothTabList.java:113-117 | all three batch lists empty; nothing sent |
| TickProperties.BucketMembership | common/src/main/java/wtf/villain/mammoth/tablist/impl/ModernMammothTabList.java:72-86 | a slot's bake is in a batch iff the slot is routed to it |
| TickProperties.Routing | common/src/main/java/wtf/villain/mammoth/tablist/impl/ModernMammothTabList.java:72-86 | in ADD iff the skin changed; in UPDATE_NAME iff the skin did not change and the text did; in UPDATE_LATENCY iff the skin did not change and the ping did; never in REMOVE. An unchanged slot is in no batch |
| TickProperties.AllSkinsChanged | common/src/main/java/wtf/villain/mammoth/tablist/impl/ModernMammothTabList.java:72-86 | when every skin changed, the ADD batch is every slot's bake in order and the other two are empty |
| TickProperties.NothingChanged | common/src/main/java/wtf/villain/mammoth/tablist/impl/ModernMammothTabList.java:72-86 | when nothing changed, every batch is empty |
| TickProperties.FirstTick | common/src/main/java/wtf/villain/mammoth/tablist/impl/ModernMammothTabList.java:58-96 | on a new template, whatever the hook does, the first tick sends an ADD batch of all 80 entries in slot order and empty UPDATE_NAME and UPDATE_LATENCY batches |
| TickProperties.FirstEvaluation | common/src/main/java/wtf/villain/mammoth/tablist/impl/ModernMammothTabList.java:61-91 | after the first hook every evaluated slot reports a changed skin, so the ADD list holds every slot's bake in order and the other two lists are empty |
| TickProperties.FirstTickOfEmptyHook | common/src/main/java/wtf/villain/mammoth/tablist/impl/ModernMammothTabList.java:41-111 | with a hook that makes no call, the first tick sends exactly the ADD batch of every slot and two empty batches, and no header/footer |
| TickProperties.StockTemplateFirstTick | common/src/main/java/wtf/villain/mammoth/template/MammothTemplate.java:75-100 | a template that overrides nothing (empty `update()`, `updateEntryStates()` true, `DEFAULT_PROVIDER`) first sends an ADD batch whose k-th entry is `Name(k)` with empty text, the question-mark head and ping -1, then two empty batches |
| TickProperties.StockTemplateSecondTick | common/src/main/java/wtf/villain/mammoth/template/MammothTemplate.java:75-100 | the same template's second tick sends only three empty batches |
| TickProperties.SlotAfterHook | common/src/main/java/wtf/villain/mammoth/template/MammothTemplate.java:172-390 | what a hook does to one slot depends only on the calls naming that slot: the last `set`/`reset`, and any `provider` after it |
| TickProperties.BannerAfterHook | common/src/main/java/wtf/villain/mammoth/template/MammothTemplate.java:105-132 | the hook changes only the pending header and footer, each to its last written value if any |
| TickProperties.SlotSteady | common/src/main/java/wtf/villain/mammoth/tablist/impl/ModernMammothTabList.java:61-91 | a slot the hook treats alike on two ticks reports no change on the second. The exception is a reset slot whose only content was a pending write |
| TickProperties.SteadyState | common/src/main/java/wtf/villain/mammoth/tablist/impl/ModernMammothTabList.java:41-111 | a second tick with the same hook sends three empty batches and no header/footer, unless reset drops a pending write the hook does not repeat |
| TickProperties.SecondTickIsQuiet | common/src/main/java/wtf/villain/mammoth/tablist/impl/ModernMammothTabList.java:41-111 | from a new template, the second tick with the same hook sends only three empty batches |
| TickProperties.ReadsAfterTick | common/src/main/java/wtf/villain/mammoth/template/MammothTemplate.java:399-454 | after any tick every slot has committed text, skin and ping, and the reads return them; before the first tick a slot's reads are null (the ping read fails) |
| TickProperties.OneOffWrite | common/src/main/java/wtf/villain/mammoth/tablist/impl/ModernMammothTabList.java:61-91 | an evaluated `set` shows exactly the written values. If entry states are kept, the next tick shows them again with no change. If they are reset, the next tick falls back to the default provider and reports all three fields changed |

## Left out

- Providers are fixed value triples. A Java `MammothEntryProvider` is an
  interface that user code may implement with answers that change on every
  call. The model's provider answers the same on every pull, so
  `Entries.UpdateTwiceIsQuiet` and `TickProperties.SteadyState` hold only for
  providers with stable answers.
- TickProperties.SteadyState: holds only when the hook and the bound
  providers hand over the same `TextureProperty` objects on every tick.
  Java compares skins by reference, and a skin made by
  `TextureProperty.texture` has no `equals` (`TextureProperty.java:42-48`).
  So a hook that calls `set(pos, text, TextureProperty.texture(v, s))`
  re-adds that slot on every tick, and so does a provider whose `skin()`
  builds a new object. The model's script and providers pass the same skin
  token every time, which stands only for the case where the Java objects
  are identical.
- TickProperties.SecondTickIsQuiet: the same limitation as `SteadyState`.
  The second tick is quiet only if every skin the hook and providers hand
  over is the identical object on both ticks.
- TickProperties.StockTemplateSecondTick: the same limitation. It does hold
  for the stock template, because `DEFAULT_PROVIDER` returns the one
  `QUESTION_MARK` constant.
- The template's `update()` hook is arbitrary user code in Java. Here it is
  a fixed script of template calls (`set`, `provider`, `reset`, `header`,
  `footer` and their reset forms), replayed identically on every tick.
- The overridable `defaultProvider()` and `updateEntryStates()` answer the
  same on every call. They are fixed when the template is built.
- `MammothEntry.uuid()` is left out. It hands `name()` to the UUID parser of
  the Java library, which is not part of this model.
- The player's UUID is left out, and so is the `PlatformProvider` that
  builds the packets. PacketEvents packet construction and sending are left
  out too, along with server-version feature detection.
  - `bakeEntry` is modelled as the `Baked` record of the entry's fake name,
    committed values and feature set.
  - `send` and `sendHeaderAndFooter` are appends to the `log`, and the
    feature set is a constructor argument.
- In Java, `send` receives the batch list itself, which `clearBakedData()`
  empties right afterwards. The log records the batch's contents at the
  moment of the call, as a value.
- `Content.Component` and `Content.TextureProperty` are abstract types with
  equality. The adventure text API and the base64 skin payload are not
  modelled. A skin made by `TextureProperty.texture` has no `equals`, so Java
  compares it by reference. An abstract token with `==` matches that.
- Templates.Template.Set, Templates.Template.Reset, Templates.Template.SetProvider,
  Templates.Template.CurrentText, Templates.Template.CurrentSkin,
  Templates.Template.CurrentPing and the hook script: a position outside
  0..79 makes Java throw `ArrayIndexOutOfBoundsException` at `entries[pos]`
  (`MammothTemplate.java:360`, `389`, `400`, `422`, `443`). A hook that makes
  such a call lets the exception escape `template.update()`
  (`ModernMammothTabList.java:59`), which aborts the tick: the hook's
  earlier calls stay applied, and no slot is evaluated and nothing is sent.
  The model does not model that aborted tick. It requires in-range positions
  instead (`at.InRange()`, `0 <= pos < TEMPLATE_MAX_SIZE`, and
  `AllInRange(hook)` on the template's constructor).
- Templates.Template.CurrentPing: returns `None` where Java's unboxing of a
  null `Integer` throws a `NullPointerException`, on a slot with neither a
  committed nor a pending ping.
- The ping is an unbounded `int`. The Java `int` range is not enforced on
  values passed to `set` or providers, because the engine only compares and
  stores them.
- Ticking from several threads at once is left out: the code has no locking
  and is driven by one loop per player.
- The `anyChanged()`, getter and `dirty()` members are predicates and field
  reads with no contract of their own. They appear in the contracts above
  (`AnyChanged` in `Routing`, `UpdateTwiceIsQuiet`, `SteadyState`).
