/**
 * The platform side the tab list talks to: the feature and action
 * enumerations, the baked form of an entry, and the calls made to the
 * platform provider, recorded in the order they are made.
 */
module Platform {
  import opened Wrappers
  import opened Content
  import opened Entries

  /** `GameFeature`. */
  datatype GameFeature = INFO_PACKETS_ONLY | RGB_COLORS | SEPARATE_INFO_PACKETS

  /** `UpdateAction`. */
  datatype UpdateAction = ADD | REMOVE | UPDATE_LATENCY | UPDATE_NAME

  /**
   * The player-info record `bakeEntry` builds from an entry: its fake name,
   * its committed text, skin and ping, and the feature set that picks the
   * packet format. The packet encoding itself is not part of this model.
   */
  datatype Baked = Baked(
    name: string,
    text: Option<Component>,
    skin: Option<TextureProperty>,
    ping: Option<int>,
    features: set<GameFeature>)

  /** `bakeEntry(entry, gameFeatures)`. */
  function Bake(e: EntryState, features: set<GameFeature>): Baked {
    Baked(Name(e.index), e.currentText, e.currentSkin, e.currentPing, features)
  }

  /**
   * Bakes of two different slots never coincide, whatever they show: the
   * fake name alone tells them apart, so the client sees each slot once.
   */
  lemma BakesDistinct(e: EntryState, f: EntryState, features: set<GameFeature>)
    requires e.index != f.index
    ensures Bake(e, features) != Bake(f, features)
    ensures Bake(e, features).name != Bake(f, features).name
  {
    NamesDistinct(e.index, f.index);
  }

  /** Bakes of all the given entries, in order. */
  function BakeAll(es: seq<EntryState>, features: set<GameFeature>): (baked: seq<Baked>)
    ensures |baked| == |es|
    ensures forall k :: 0 <= k < |es| ==> baked[k] == Bake(es[k], features)
  {
    seq(|es|, k requires 0 <= k < |es| => Bake(es[k], features))
  }

  /** One call into the platform provider: `send` or `sendHeaderAndFooter`. */
  datatype Sent =
    | Batch(action: UpdateAction, entries: seq<Baked>)
    | HeaderAndFooterSent(header: Option<Component>, footer: Option<Component>)
}
