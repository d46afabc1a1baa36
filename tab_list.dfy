/**
 * The per-player tab list for 1.8 and later: on every tick it runs the
 * template's hook, evaluates all 80 slots, sorts the changed ones into
 * three batches and sends them, then sends the header and footer if they
 * changed. `Tick` is the same tick as a function on values; the class
 * `ModernTabList` is proved to do exactly what `Tick` says.
 */
module TabLists {
  import opened Wrappers
  import opened Content
  import opened EntryProviders
  import opened Entries
  import opened HeadersAndFooters
  import opened Templates
  import opened Platform

  /**
   * One slot's turn in `updateTabList`: `update()`, and if the slot then has
   * neither a provider nor a pending write, bind `fallback` and `update()`
   * again. The result always has pending values; its committed values are
   * the provider's, or else the pending write; and a field is reported
   * changed iff its committed value moved, except that a fallback reports
   * every field, since the first update has just committed nothing.
   */
  function Evaluated(e: EntryState, fallback: Provider): (r: EntryState)
    ensures r.index == e.index && r.dirty
    ensures r.provider == (if e.provider.None? && !e.dirty then Some(fallback) else e.provider)
    ensures r.provider.Some? ==>
      r.currentText == Some(r.provider.value.text) && r.currentSkin == Some(r.provider.value.skin) &&
      r.currentPing == Some(r.provider.value.ping)
    ensures r.provider.None? ==>
      r.currentText == e.newText && r.currentSkin == e.newSkin && r.currentPing == e.newPing
    ensures e.Consistent() ==> r.Consistent() && r.currentText.Some? && r.currentSkin.Some? && r.currentPing.Some?
    ensures e.Consistent() ==>
      (r.textChanged <==> (e.provider.None? && !e.dirty) || e.currentText != r.currentText) &&
      (r.skinChanged <==> (e.provider.None? && !e.dirty) || e.currentSkin != r.currentSkin) &&
      (r.pingChanged <==> (e.provider.None? && !e.dirty) || e.currentPing != r.currentPing)
  {
    var u := e.Updated();
    if !u.dirty && u.provider.None? then u.(provider := Some(fallback)).Updated() else u
  }

  /** The end of a slot's turn: `resetState()` if the template asks for it. */
  function Settled(e: EntryState, reset: bool): EntryState {
    if reset then e.ResetState() else e
  }

  /**
   * Whether an evaluated slot goes into the batch sent with `action`: a
   * changed skin needs the entry re-added, and then text and ping travel
   * with it; otherwise text and ping changes each have their own batch.
   */
  predicate RoutedTo(e: EntryState, action: UpdateAction): (routed: bool)
    ensures routed ==> e.AnyChanged() && action != REMOVE
    ensures routed && action != ADD ==> !e.skinChanged
    ensures e.skinChanged ==> (routed <==> action == ADD)
  {
    e.AnyChanged() &&
    match action
    case ADD => e.skinChanged
    case UPDATE_NAME => !e.skinChanged && e.textChanged
    case UPDATE_LATENCY => !e.skinChanged && e.pingChanged
    case REMOVE => false
  }

  /**
   * The batch for `action` after evaluating the slots `es`: the bakes of the
   * slots routed to it, in slot order.
   */
  function Bucket(es: seq<EntryState>, action: UpdateAction, features: set<GameFeature>): (batch: seq<Baked>)
    ensures action == REMOVE ==> batch == []
    decreases |es|
  {
    if es == [] then []
    else
      var last := es[|es| - 1];
      Bucket(es[..|es| - 1], action, features) + (if RoutedTo(last, action) then [Bake(last, features)] else [])
  }

  /** One more evaluated slot adds its bake to the batches it is routed to. */
  lemma BucketPrefix(es: seq<EntryState>, i: nat, action: UpdateAction, features: set<GameFeature>)
    requires i < |es|
    ensures Bucket(es[..i + 1], action, features) ==
      Bucket(es[..i], action, features) + (if RoutedTo(es[i], action) then [Bake(es[i], features)] else [])
  {
    assert es[..i + 1][..i] == es[..i];
  }

  /** Every bake in a batch comes from a slot routed to that batch. */
  lemma {:induction false} BucketSource(es: seq<EntryState>, action: UpdateAction, features: set<GameFeature>, b: Baked)
    returns (j: nat)
    requires b in Bucket(es, action, features)
    ensures j < |es| && RoutedTo(es[j], action) && b == Bake(es[j], features)
    decreases |es|
  {
    var last := es[|es| - 1];
    if b in Bucket(es[..|es| - 1], action, features) {
      j := BucketSource(es[..|es| - 1], action, features, b);
    } else {
      j := |es| - 1;
    }
  }

  /** Every slot routed to a batch has its bake in it. */
  lemma {:induction false} BucketComplete(es: seq<EntryState>, action: UpdateAction, features: set<GameFeature>, j: nat)
    requires j < |es| && RoutedTo(es[j], action)
    ensures Bake(es[j], features) in Bucket(es, action, features)
    decreases |es|
  {
    if j < |es| - 1 {
      BucketComplete(es[..|es| - 1], action, features, j);
    }
  }

  /** Every slot evaluated, in index order. */
  function EvaluateAll(slots: seq<EntryState>, fallback: Provider): (evaluated: seq<EntryState>)
    ensures |evaluated| == |slots|
    ensures forall k :: 0 <= k < |slots| ==> evaluated[k] == Evaluated(slots[k], fallback)
  {
    seq(|slots|, k requires 0 <= k < |slots| => Evaluated(slots[k], fallback))
  }

  /** Every evaluated slot settled. */
  function SettleAll(evaluated: seq<EntryState>, reset: bool): (settled: seq<EntryState>)
    ensures |settled| == |evaluated|
    ensures forall k :: 0 <= k < |evaluated| ==> settled[k] == Settled(evaluated[k], reset)
  {
    seq(|evaluated|, k requires 0 <= k < |evaluated| => Settled(evaluated[k], reset))
  }

  /** The three sends that close `updateTabList`, in their order. */
  function EntryBatches(evaluated: seq<EntryState>, features: set<GameFeature>): seq<Sent> {
    [Batch(ADD, Bucket(evaluated, ADD, features)),
     Batch(UPDATE_NAME, Bucket(evaluated, UPDATE_NAME, features)),
     Batch(UPDATE_LATENCY, Bucket(evaluated, UPDATE_LATENCY, features))]
  }

  /** What `updateHeaderFooter` sends once the banner `b` has been updated. */
  function BannerSent(b: BannerState): seq<Sent> {
    if b.AnyChanged() then [HeaderAndFooterSent(b.newHeader, b.newFooter)] else []
  }

  /** The end of the banner's turn: `resetState()` if the template asks for it. */
  function SettledBanner(b: BannerState, reset: bool): BannerState {
    if reset then b.ResetState() else b
  }

  /** A tick's result: the template's new state and the calls made to the platform. */
  datatype Outcome = Outcome(grid: Grid, sent: seq<Sent>)

  /**
   * One `update()` of the tab list from template state `g`, for a template
   * with the given hook, default provider and reset policy. After it every
   * slot is consistent again, and every slot keeps its pending write
   * exactly when the template does not reset entry states.
   */
  function Tick(g: Grid, hook: seq<HookOp>, d: Provider, reset: bool, features: set<GameFeature>): (out: Outcome)
    requires |g.slots| == TEMPLATE_MAX_SIZE && AllInRange(hook)
    ensures WellFormed(g.slots) ==> WellFormed(out.grid.slots)
    ensures |out.grid.slots| == TEMPLATE_MAX_SIZE
    ensures forall k :: 0 <= k < |out.grid.slots| ==> out.grid.slots[k].dirty == !reset
    ensures reset ==> out.grid.banner.newHeader.None? && out.grid.banner.newFooter.None?
  {
    var h := ApplyOps(g, hook, d);
    var evaluated := EvaluateAll(h.slots, d);
    var b := h.banner.Updated();
    Outcome(Grid(SettleAll(evaluated, reset), SettledBanner(b, reset)),
            EntryBatches(evaluated, features) + BannerSent(b))
  }

  /** `ModernMammothTabList`: one player's tab list and the calls it has made. */
  class ModernTabList {
    const template: Template
    const gameFeatures: set<GameFeature>
    var skinChanged: seq<Baked>
    var textChanged: seq<Baked>
    var pingChanged: seq<Baked>
    /** Every call made to the platform provider so far, oldest first. */
    var log: seq<Sent>

    /** Between calls the template is valid and the three batches are empty. */
    ghost predicate Valid()
      reads this, template, template.entries, template.EntrySet
    {
      template.Valid() && skinChanged == [] && textChanged == [] && pingChanged == []
    }

    /** The constructor; `gameFeatures` is what the platform reports for the player. */
    constructor (template: Template, gameFeatures: set<GameFeature>)
      requires template.Valid()
      ensures Valid() && log == []
      ensures this.template == template && this.gameFeatures == gameFeatures
    {
      this.template := template;
      this.gameFeatures := gameFeatures;
      skinChanged := [];
      textChanged := [];
      pingChanged := [];
      log := [];
    }

    /** `update()`: one tick, exactly as `Tick` describes it. */
    method Update()
      requires Valid()
      modifies this, template, template.EntrySet, template.headerAndFooter
      ensures Valid()
      ensures var out := Tick(old(template.Model()), template.hook, template.defaultProvider,
                              template.updateEntryStates, gameFeatures);
        template.Model() == out.grid && log == old(log) + out.sent
    {
      UpdateTabList();
      UpdateHeaderFooter();
    }

    /** `updateTabList()`. */
    method UpdateTabList()
      requires Valid()
      modifies this, template, template.EntrySet, template.headerAndFooter
      ensures Valid()
      ensures var h := ApplyOps(old(template.Model()), template.hook, template.defaultProvider);
        var evaluated := EvaluateAll(h.slots, template.defaultProvider);
        template.slots == SettleAll(evaluated, template.updateEntryStates) &&
        template.headerAndFooter.State() == h.banner &&
        log == old(log) + EntryBatches(evaluated, gameFeatures)
    {
      template.Update();
      ghost var evaluated := EvaluateEntries();
      log := log + [Batch(ADD, skinChanged), Batch(UPDATE_NAME, textChanged), Batch(UPDATE_LATENCY, pingChanged)];
      ClearBakedData();
    }

    /** The loop of `updateTabList()`: every entry evaluated in index order. */
    method EvaluateEntries() returns (ghost evaluated: seq<EntryState>)
      requires Valid()
      modifies this, template, template.EntrySet
      ensures template.Valid()
      ensures evaluated == EvaluateAll(old(template.slots), template.defaultProvider)
      ensures template.slots == SettleAll(evaluated, template.updateEntryStates)
      ensures skinChanged == Bucket(evaluated, ADD, gameFeatures)
      ensures textChanged == Bucket(evaluated, UPDATE_NAME, gameFeatures)
      ensures pingChanged == Bucket(evaluated, UPDATE_LATENCY, gameFeatures)
      ensures log == old(log)
    {
      ghost var start := template.slots;
      evaluated := EvaluateAll(start, template.defaultProvider);
      for i := 0 to TEMPLATE_MAX_SIZE
        invariant template.Valid()
        invariant forall k :: 0 <= k < TEMPLATE_MAX_SIZE ==>
          template.slots[k] == if k < i then Settled(evaluated[k], template.updateEntryStates) else start[k]
        invariant skinChanged == Bucket(evaluated[..i], ADD, gameFeatures)
        invariant textChanged == Bucket(evaluated[..i], UPDATE_NAME, gameFeatures)
        invariant pingChanged == Bucket(evaluated[..i], UPDATE_LATENCY, gameFeatures)
        invariant log == old(log)
      {
        ghost var e := EvaluateSlot(i);
        BucketPrefix(evaluated, i, ADD, gameFeatures);
        BucketPrefix(evaluated, i, UPDATE_NAME, gameFeatures);
        BucketPrefix(evaluated, i, UPDATE_LATENCY, gameFeatures);
      }
      assert evaluated[..TEMPLATE_MAX_SIZE] == evaluated;
    }

    /**
     * One turn of the loop of `updateTabList()`, on slot `i`: the
     * `entries()[i]` fetch, then `EvaluateEntry` on that entry, with the
     * template's ghost view of the slot brought up to date.
     */
    method EvaluateSlot(i: nat) returns (ghost evaluated: EntryState)
      requires template.Valid() && i < TEMPLATE_MAX_SIZE
      modifies this, template, template.entries[i]
      ensures template.Valid()
      ensures evaluated == Evaluated(old(template.slots[i]), template.defaultProvider)
      ensures template.slots == old(template.slots)[i := Settled(evaluated, template.updateEntryStates)]
      ensures skinChanged == old(skinChanged) + (if RoutedTo(evaluated, ADD) then [Bake(evaluated, gameFeatures)] else [])
      ensures textChanged == old(textChanged) + (if RoutedTo(evaluated, UPDATE_NAME) then [Bake(evaluated, gameFeatures)] else [])
      ensures pingChanged == old(pingChanged) + (if RoutedTo(evaluated, UPDATE_LATENCY) then [Bake(evaluated, gameFeatures)] else [])
      ensures log == old(log)
    {
      evaluated := EvaluateEntry(template.entries[i]);
      template.slots := template.slots[i := template.entries[i].State()];
    }

    /** The body of the loop in `updateTabList()`, for one entry. */
    method EvaluateEntry(entry: Entry) returns (ghost evaluated: EntryState)
      modifies this, entry
      ensures evaluated == Evaluated(old(entry.State()), template.defaultProvider)
      ensures entry.State() == Settled(evaluated, template.updateEntryStates)
      ensures skinChanged == old(skinChanged) + (if RoutedTo(evaluated, ADD) then [Bake(evaluated, gameFeatures)] else [])
      ensures textChanged == old(textChanged) + (if RoutedTo(evaluated, UPDATE_NAME) then [Bake(evaluated, gameFeatures)] else [])
      ensures pingChanged == old(pingChanged) + (if RoutedTo(evaluated, UPDATE_LATENCY) then [Bake(evaluated, gameFeatures)] else [])
      ensures log == old(log)
    {
      Refresh(entry);
      evaluated := entry.State();
      Route(entry);
      if template.updateEntryStates {
        entry.ResetState();
      }
    }

    /** `update()`, then the fall back to the default provider for an entry left with nothing. */
    method Refresh(entry: Entry)
      modifies entry
      ensures entry.State() == Evaluated(old(entry.State()), template.defaultProvider)
    {
      entry.Update();
      if !entry.dirty && entry.entryProvider.None? {
        entry.SetEntryProvider(Some(template.defaultProvider));
        entry.Update();
      }
    }

    /** Adds an evaluated entry's bake to the batches it is routed to. */
    method Route(entry: Entry)
      modifies this
      ensures skinChanged == old(skinChanged) + (if RoutedTo(entry.State(), ADD) then [Bake(entry.State(), gameFeatures)] else [])
      ensures textChanged == old(textChanged) + (if RoutedTo(entry.State(), UPDATE_NAME) then [Bake(entry.State(), gameFeatures)] else [])
      ensures pingChanged == old(pingChanged) + (if RoutedTo(entry.State(), UPDATE_LATENCY) then [Bake(entry.State(), gameFeatures)] else [])
      ensures log == old(log)
    {
      if entry.AnyChanged() {
        var baked := Bake(entry.State(), gameFeatures);
        if entry.skinChanged {
          skinChanged := skinChanged + [baked];
        } else {
          if entry.textChanged {
            textChanged := textChanged + [baked];
          }
          if entry.pingChanged {
            pingChanged := pingChanged + [baked];
          }
        }
      }
    }

    /** `updateHeaderFooter()`. */
    method UpdateHeaderFooter()
      requires Valid()
      modifies this, template.headerAndFooter
      ensures Valid()
      ensures template.headerAndFooter.State() ==
        SettledBanner(old(template.headerAndFooter.State()).Updated(), template.updateEntryStates)
      ensures log == old(log) + BannerSent(old(template.headerAndFooter.State()).Updated())
    {
      var entry := template.headerAndFooter;
      entry.Update();
      if entry.AnyChanged() {
        log := log + [HeaderAndFooterSent(entry.newHeader, entry.newFooter)];
      }
      if template.updateEntryStates {
        entry.ResetState();
      }
    }

    /**
     * `destroy()`: one REMOVE batch naming all 80 fake players, in slot
     * order; the template is left as it was.
     */
    method Destroy()
      requires Valid()
      modifies this
      ensures Valid()
      ensures log == old(log) + [Batch(REMOVE, BakeAll(template.slots, gameFeatures))]
      ensures var removed := log[|log| - 1].entries;
        |removed| == TEMPLATE_MAX_SIZE && forall k :: 0 <= k < |removed| ==> removed[k].name == Name(k)
    {
      var baked: seq<Baked> := [];
      for i := 0 to TEMPLATE_MAX_SIZE
        invariant Valid() && log == old(log)
        invariant |baked| == i
        invariant forall k :: 0 <= k < i ==> baked[k] == Bake(template.slots[k], gameFeatures)
      {
        baked := baked + [Bake(template.entries[i].State(), gameFeatures)];
      }
      assert baked == BakeAll(template.slots, gameFeatures);
      ClearBakedData();
      log := log + [Batch(REMOVE, baked)];
    }

    /** `clearBakedData()`. */
    method ClearBakedData()
      modifies this
      ensures skinChanged == [] && textChanged == [] && pingChanged == []
      ensures log == old(log)
    {
      skinChanged := [];
      textChanged := [];
      pingChanged := [];
    }
  }
}
