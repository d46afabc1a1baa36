/**
 * Properties of the tick: how changed slots are routed to the three
 * batches, what the first tick after construction sends, and when a second
 * tick with the same hook sends nothing but three empty batches.
 */
module TickProperties {
  import opened Wrappers
  import opened Content
  import opened EntryProviders
  import opened Entries
  import opened HeadersAndFooters
  import opened Templates
  import opened Platform
  import opened TabLists

  /** The sends of a tick in which nothing changed. */
  const QUIET: seq<Sent> := [Batch(ADD, []), Batch(UPDATE_NAME, []), Batch(UPDATE_LATENCY, [])]

  /**
   * When every slot knows its own index (so no two bakes share a fake
   * name), a slot's bake is in a batch exactly when the slot is routed to it.
   */
  lemma BucketMembership(es: seq<EntryState>, action: UpdateAction, features: set<GameFeature>, k: nat)
    requires forall j :: 0 <= j < |es| ==> es[j].index == j
    requires k < |es|
    ensures Bake(es[k], features) in Bucket(es, action, features) <==> RoutedTo(es[k], action)
  {
    if RoutedTo(es[k], action) {
      BucketComplete(es, action, features, k);
    } else if Bake(es[k], features) in Bucket(es, action, features) {
      var j := BucketSource(es, action, features, Bake(es[k], features));
      if j != k {
        NamesDistinct(j, k);
      }
      assert false;
    }
  }

  /**
   * The routing of one evaluated slot: a changed skin puts it in the ADD
   * batch only, whatever else changed; otherwise it is in the UPDATE_NAME
   * batch iff its text changed and in the UPDATE_LATENCY batch iff its ping
   * changed; it is never in a REMOVE batch.
   */
  lemma Routing(es: seq<EntryState>, features: set<GameFeature>, k: nat)
    requires forall j :: 0 <= j < |es| ==> es[j].index == j
    requires k < |es|
    ensures Bake(es[k], features) in Bucket(es, ADD, features) <==> es[k].skinChanged
    ensures Bake(es[k], features) in Bucket(es, UPDATE_NAME, features) <==> !es[k].skinChanged && es[k].textChanged
    ensures Bake(es[k], features) in Bucket(es, UPDATE_LATENCY, features) <==> !es[k].skinChanged && es[k].pingChanged
    ensures Bake(es[k], features) !in Bucket(es, REMOVE, features)
  {
    BucketMembership(es, ADD, features, k);
    BucketMembership(es, UPDATE_NAME, features, k);
    BucketMembership(es, UPDATE_LATENCY, features, k);
    BucketMembership(es, REMOVE, features, k);
  }

  /** When every slot's skin changed, the ADD batch is all of them in order and the others are empty. */
  lemma {:induction false} AllSkinsChanged(es: seq<EntryState>, features: set<GameFeature>)
    requires forall j :: 0 <= j < |es| ==> es[j].skinChanged
    ensures |Bucket(es, ADD, features)| == |es|
    ensures forall j :: 0 <= j < |es| ==> Bucket(es, ADD, features)[j] == Bake(es[j], features)
    ensures Bucket(es, UPDATE_NAME, features) == [] && Bucket(es, UPDATE_LATENCY, features) == []
    decreases |es|
  {
    if es != [] {
      var init, last := es[..|es| - 1], es[|es| - 1];
      AllSkinsChanged(init, features);
      assert RoutedTo(last, ADD) && !RoutedTo(last, UPDATE_NAME) && !RoutedTo(last, UPDATE_LATENCY);
      assert Bucket(es, ADD, features) == Bucket(init, ADD, features) + [Bake(last, features)];
    }
  }

  /** When no slot changed, every batch is empty. */
  lemma {:induction false} NothingChanged(es: seq<EntryState>, action: UpdateAction, features: set<GameFeature>)
    requires forall j :: 0 <= j < |es| ==> !es[j].AnyChanged()
    ensures Bucket(es, action, features) == []
    decreases |es|
  {
    if es != [] {
      NothingChanged(es[..|es| - 1], action, features);
    }
  }

  /**
   * The first tick after construction, whatever the hook does, re-adds all
   * 80 entries in slot order in one ADD batch (nothing has been committed
   * yet, so every skin counts as changed) and sends empty UPDATE_NAME and
   * UPDATE_LATENCY batches.
   */
  lemma FirstTick(d: Provider, hook: seq<HookOp>, reset: bool, features: set<GameFeature>)
    requires AllInRange(hook)
    ensures var out := Tick(FreshGrid(d), hook, d, reset, features);
      var added := out.sent[0].entries;
      |out.sent| >= 3 && out.sent[0].action == ADD &&
      out.sent[1] == Batch(UPDATE_NAME, []) && out.sent[2] == Batch(UPDATE_LATENCY, []) &&
      |added| == TEMPLATE_MAX_SIZE && forall k :: 0 <= k < |added| ==> added[k].name == Name(k)
  {
    var h := ApplyOps(FreshGrid(d), hook, d);
    var evaluated := EvaluateAll(h.slots, d);
    TickSends(FreshGrid(d), hook, d, reset, features);
    FirstEvaluation(d, hook, evaluated, features);
    var added := BakeAll(evaluated, features);
    forall k | 0 <= k < |added|
      ensures added[k].name == Name(k)
    {
      assert added[k] == Bake(evaluated[k], features);
    }
  }

  /** With a hook that makes no call, the first tick sends the ADD batch of every slot and two empty batches, nothing more. */
  lemma FirstTickOfEmptyHook(d: Provider, reset: bool, features: set<GameFeature>)
    ensures Tick(FreshGrid(d), [], d, reset, features).sent ==
      [Batch(ADD, BakeAll(EvaluateAll(FreshGrid(d).slots, d), features))] + QUIET[1..]
  {
    var g := FreshGrid(d);
    assert ApplyOps(g, [], d) == g;
    TickSends(g, [], d, reset, features);
    FirstEvaluation(d, [], EvaluateAll(g.slots, d), features);
    assert BannerSent(g.banner.Updated()) == [];
  }

  /** The sends of a tick: the three entry batches, then the header and footer if they changed. */
  lemma TickSends(g: Grid, hook: seq<HookOp>, d: Provider, reset: bool, features: set<GameFeature>)
    requires |g.slots| == TEMPLATE_MAX_SIZE && AllInRange(hook)
    ensures var h := ApplyOps(g, hook, d);
      Tick(g, hook, d, reset, features).sent ==
      EntryBatches(EvaluateAll(h.slots, d), features) + BannerSent(h.banner.Updated())
  {
  }

  /** The batches of a first tick: every slot's skin counts as changed. */
  lemma FirstEvaluation(d: Provider, hook: seq<HookOp>, evaluated: seq<EntryState>, features: set<GameFeature>)
    requires AllInRange(hook)
    requires evaluated == EvaluateAll(ApplyOps(FreshGrid(d), hook, d).slots, d)
    ensures Bucket(evaluated, ADD, features) == BakeAll(evaluated, features)
    ensures Bucket(evaluated, UPDATE_NAME, features) == [] && Bucket(evaluated, UPDATE_LATENCY, features) == []
    ensures forall k :: 0 <= k < |evaluated| ==> evaluated[k].index == k
  {
    var g := ApplyOps(FreshGrid(d), hook, d);
    forall j | 0 <= j < |evaluated|
      ensures evaluated[j].skinChanged && evaluated[j].index == j
    {
      assert SameCommitted(FreshGrid(d).slots[j], g.slots[j]);
    }
    AllSkinsChanged(evaluated, features);
  }

  /**
   * A template that overrides nothing: its first tick adds all 80 entries,
   * in slot order, each showing empty text, the question-mark head and
   * ping -1, and sends nothing else but two empty batches.
   */
  lemma StockTemplateFirstTick(features: set<GameFeature>)
    ensures var first := Tick(FreshGrid(DEFAULT_PROVIDER), DEFAULT_HOOK, DEFAULT_PROVIDER,
                              DEFAULT_UPDATE_ENTRY_STATES, features);
      |first.sent| == 3 && first.sent[0].action == ADD && first.sent[1..] == QUIET[1..] &&
      |first.sent[0].entries| == TEMPLATE_MAX_SIZE &&
      forall k :: 0 <= k < TEMPLATE_MAX_SIZE ==>
        first.sent[0].entries[k] == Baked(Name(k), Some(EMPTY), Some(QUESTION_MARK), Some(-1), features)
  {
    var d := DEFAULT_PROVIDER;
    var g := FreshGrid(d);
    FirstTickOfEmptyHook(d, DEFAULT_UPDATE_ENTRY_STATES, features);
    var evaluated := EvaluateAll(g.slots, d);
    var added := BakeAll(evaluated, features);
    forall k | 0 <= k < TEMPLATE_MAX_SIZE
      ensures added[k] == Baked(Name(k), Some(EMPTY), Some(QUESTION_MARK), Some(-1), features)
    {
      assert evaluated[k] == Evaluated(Fresh(k, d), d);
      assert added[k] == Bake(evaluated[k], features);
    }
  }

  /** A template that overrides nothing sends three empty batches on its second tick. */
  lemma StockTemplateSecondTick(features: set<GameFeature>)
    ensures var first := Tick(FreshGrid(DEFAULT_PROVIDER), DEFAULT_HOOK, DEFAULT_PROVIDER,
                              DEFAULT_UPDATE_ENTRY_STATES, features);
      Tick(first.grid, DEFAULT_HOOK, DEFAULT_PROVIDER, DEFAULT_UPDATE_ENTRY_STATES, features).sent == QUIET
  {
    SecondTickIsQuiet(DEFAULT_PROVIDER, DEFAULT_HOOK, DEFAULT_UPDATE_ENTRY_STATES, features);
  }

  /** What the hook leaves in one slot, as far as the next evaluation can tell. */
  datatype SlotEffect =
    | Untouched
    | Bound(provider: Provider)
    | Written(values: Provider, rebound: Option<Provider>)

  /** The slot's effect after one more hook call; `d` is the default provider. */
  function ThenOp(effect: SlotEffect, op: HookOp, k: int, d: Provider): SlotEffect
    requires op.InRange()
  {
    match op
    case SetOp(at, contents) => if at.Index() == k then Written(Resolve(contents), None) else effect
    case ResetOp(at) => if at.Index() == k then Written(d, None) else effect
    case ProviderOp(at, p) =>
      if at.Index() != k then effect
      else if effect.Written? then Written(effect.values, Some(p))
      else Bound(p)
    case _ => effect
  }

  /** The effect of the calls `ops` on slot `k`. */
  function EffectOf(ops: seq<HookOp>, k: int, d: Provider): SlotEffect
    requires AllInRange(ops)
    decreases |ops|
  {
    if ops == [] then Untouched
    else
      assert ops[|ops| - 1] in ops;
      ThenOp(EffectOf(ops[..|ops| - 1], k, d), ops[|ops| - 1], k, d)
  }

  /** A slot with an effect applied. */
  function WithEffect(e: EntryState, effect: SlotEffect): EntryState {
    match effect
    case Untouched => e
    case Bound(p) => e.(provider := Some(p))
    case Written(values, rebound) => e.Assigned(values).(provider := rebound)
  }

  /** One hook call acts on slot `k` as `ThenOp` says. */
  lemma SlotAfterOp(g: Grid, op: HookOp, d: Provider, k: int, e: EntryState, effect: SlotEffect)
    requires |g.slots| == TEMPLATE_MAX_SIZE && op.InRange() && 0 <= k < TEMPLATE_MAX_SIZE
    requires g.slots[k] == WithEffect(e, effect)
    ensures ApplyOp(g, op, d).slots[k] == WithEffect(e, ThenOp(effect, op, k, d))
  {
  }

  /** Whatever the hook does to a slot, it does through that slot's effect, with the same result from any grid. */
  lemma {:induction false} SlotAfterHook(g: Grid, ops: seq<HookOp>, d: Provider, k: int)
    requires |g.slots| == TEMPLATE_MAX_SIZE && AllInRange(ops) && 0 <= k < TEMPLATE_MAX_SIZE
    ensures ApplyOps(g, ops, d).slots[k] == WithEffect(g.slots[k], EffectOf(ops, k, d))
    decreases |ops|
  {
    if ops != [] {
      var init := ops[..|ops| - 1];
      var last := ops[|ops| - 1];
      assert last in ops;
      SlotAfterHook(g, init, d, k);
      SlotAfterOp(ApplyOps(g, init, d), last, d, k, g.slots[k], EffectOf(init, k, d));
    }
  }

  /** The value of the last `header` call among `ops`, if any. */
  function LastHeader(ops: seq<HookOp>): Option<Option<Component>>
    decreases |ops|
  {
    if ops == [] then None
    else if ops[|ops| - 1].HeaderOp? then Some(ops[|ops| - 1].header)
    else LastHeader(ops[..|ops| - 1])
  }

  /** The value of the last `footer` call among `ops`, if any. */
  function LastFooter(ops: seq<HookOp>): Option<Option<Component>>
    decreases |ops|
  {
    if ops == [] then None
    else if ops[|ops| - 1].FooterOp? then Some(ops[|ops| - 1].footer)
    else LastFooter(ops[..|ops| - 1])
  }

  /** `pending`, unless `write` replaces it. */
  function Overwritten(pending: Option<Component>, write: Option<Option<Component>>): Option<Component> {
    if write.Some? then write.value else pending
  }

  /** The hook changes only the header and footer candidates, each to the last value written, if any. */
  lemma {:induction false} BannerAfterHook(g: Grid, ops: seq<HookOp>, d: Provider)
    requires |g.slots| == TEMPLATE_MAX_SIZE && AllInRange(ops)
    ensures ApplyOps(g, ops, d).banner == g.banner.(
      newHeader := Overwritten(g.banner.newHeader, LastHeader(ops)),
      newFooter := Overwritten(g.banner.newFooter, LastFooter(ops)))
    decreases |ops|
  {
    if ops != [] {
      BannerAfterHook(g, ops[..|ops| - 1], d);
    }
  }

  /**
   * A slot to which the hook does the same thing on two ticks in a row
   * reports no change on the second one, unless the template resets entry
   * states and the slot, untouched by the hook, had only a pending write:
   * that write is dropped and the slot falls back to the default provider.
   */
  lemma SlotSteady(e: EntryState, effect: SlotEffect, d: Provider, reset: bool)
    requires e.Consistent()
    requires reset && effect.Untouched? ==> e.provider.Some? || !e.dirty
    ensures var once := Settled(Evaluated(WithEffect(e, effect), d), reset);
      !Evaluated(WithEffect(once, effect), d).AnyChanged()
  {
  }

  /**
   * Steady state: when the hook makes the same calls on two ticks in a row,
   * the second tick sends three empty batches and no header and footer,
   * provided that, if the template resets entry states, no slot the hook
   * leaves alone has only a pending write, and the header and footer the
   * hook does not write have no pending value.
   */
  lemma SteadyState(g: Grid, hook: seq<HookOp>, d: Provider, reset: bool, features: set<GameFeature>)
    requires WellFormed(g.slots) && AllInRange(hook)
    requires reset ==> forall k :: 0 <= k < TEMPLATE_MAX_SIZE && EffectOf(hook, k, d).Untouched? ==>
      g.slots[k].provider.Some? || !g.slots[k].dirty
    requires reset && LastHeader(hook).None? ==> g.banner.newHeader.None?
    requires reset && LastFooter(hook).None? ==> g.banner.newFooter.None?
    ensures Tick(Tick(g, hook, d, reset, features).grid, hook, d, reset, features).sent == QUIET
  {
    var g1 := Tick(g, hook, d, reset, features).grid;
    var h2 := ApplyOps(g1, hook, d);
    var evaluated := EvaluateAll(h2.slots, d);
    forall k | 0 <= k < TEMPLATE_MAX_SIZE
      ensures !evaluated[k].AnyChanged()
    {
      SlotAfterHook(g, hook, d, k);
      SlotAfterHook(g1, hook, d, k);
      SlotSteady(g.slots[k], EffectOf(hook, k, d), d, reset);
    }
    NothingChanged(evaluated, ADD, features);
    NothingChanged(evaluated, UPDATE_NAME, features);
    NothingChanged(evaluated, UPDATE_LATENCY, features);
    BannerAfterHook(g, hook, d);
    BannerAfterHook(g1, hook, d);
  }

  /** From a freshly built template, the second tick with the same hook sends nothing new. */
  lemma SecondTickIsQuiet(d: Provider, hook: seq<HookOp>, reset: bool, features: set<GameFeature>)
    requires AllInRange(hook)
    ensures Tick(Tick(FreshGrid(d), hook, d, reset, features).grid, hook, d, reset, features).sent == QUIET
  {
    SteadyState(FreshGrid(d), hook, d, reset, features);
  }

  /**
   * After any tick every slot has committed text, skin and ping, so the
   * template's reads return them; before the first tick they return the
   * pending values, which a fresh slot does not have (the ping read then
   * fails).
   */
  lemma ReadsAfterTick(g: Grid, hook: seq<HookOp>, d: Provider, reset: bool, features: set<GameFeature>, k: nat)
    requires WellFormed(g.slots) && AllInRange(hook) && k < TEMPLATE_MAX_SIZE
    ensures var s := Tick(g, hook, d, reset, features).grid.slots[k];
      s.currentText.Some? && s.currentSkin.Some? && s.currentPing.Some? &&
      s.ShownText() == s.currentText && s.ShownSkin() == s.currentSkin && s.ShownPing() == s.currentPing
    ensures var f := FreshGrid(d).slots[k];
      f.ShownText().None? && f.ShownSkin().None? && f.ShownPing().None?
  {
    assert WellFormed(ApplyOps(g, hook, d).slots);
  }

  /**
   * A write through `set`, evaluated: the slot shows exactly the written
   * values and is unbound. If the template keeps entry states the write
   * stays in force on later ticks; if it resets them the write lasts one
   * tick, and the next tick falls back to the default provider and reports
   * every field changed.
   */
  lemma OneOffWrite(e: EntryState, values: Provider, d: Provider)
    requires e.Consistent()
    ensures var r := Evaluated(e.Assigned(values), d);
      r.provider.None? && r.currentText == Some(values.text) &&
      r.currentSkin == Some(values.skin) && r.currentPing == Some(values.ping)
    ensures var r := Evaluated(Settled(Evaluated(e.Assigned(values), d), false), d);
      r.currentText == Some(values.text) && r.currentSkin == Some(values.skin) &&
      r.currentPing == Some(values.ping) && !r.AnyChanged()
    ensures var r := Evaluated(Settled(Evaluated(e.Assigned(values), d), true), d);
      r.provider == Some(d) && r.currentText == Some(d.text) && r.currentSkin == Some(d.skin) &&
      r.currentPing == Some(d.ping) && r.textChanged && r.skinChanged && r.pingChanged
  {
  }
}
