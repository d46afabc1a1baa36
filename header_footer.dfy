/**
 * The header and footer of the tab list: two nullable texts, each with a
 * committed and a pending value, and a change rule of their own.
 */
module HeadersAndFooters {
  import opened Wrappers
  import opened Content
  import Entries

  /**
   * The header/footer change rule, `(current == null && pending != null) ||
   * (current != null && !current.equals(pending))`. It comes down to plain
   * inequality: null to null is no change, a value to null is one.
   */
  function BannerChanged(current: Option<Component>, pending: Option<Component>): (changed: bool)
    ensures changed <==> current != pending
  {
    (current.None? && pending.Some?) || (current.Some? && current != pending)
  }

  /**
   * The slot rule differs from the header/footer rule in one case only:
   * null to null, which a slot reports as a change.
   */
  lemma SlotRuleVersusBannerRule(current: Option<Component>, pending: Option<Component>)
    ensures Entries.EntryChanged(current, pending) <==>
      BannerChanged(current, pending) || (current.None? && pending.None?)
  {
  }

  /** The whole state of the header and footer, field for field. */
  datatype BannerState = BannerState(
    currentHeader: Option<Component>,
    newHeader: Option<Component>,
    currentFooter: Option<Component>,
    newFooter: Option<Component>,
    headerChanged: bool,
    footerChanged: bool)
  {
    /** `anyChanged()`. */
    predicate AnyChanged() {
      headerChanged || footerChanged
    }

    /** `update()`: compute both changed flags, then commit both candidates. */
    function Updated(): (r: BannerState)
      ensures r.currentHeader == newHeader && r.currentFooter == newFooter
      ensures r.newHeader == newHeader && r.newFooter == newFooter
      ensures r.headerChanged <==> currentHeader != newHeader
      ensures r.footerChanged <==> currentFooter != newFooter
    {
      this.(headerChanged := BannerChanged(currentHeader, newHeader), currentHeader := newHeader,
            footerChanged := BannerChanged(currentFooter, newFooter), currentFooter := newFooter)
    }

    /** `resetState()`: null both candidates; committed values and flags stay. */
    function ResetState(): (r: BannerState)
      ensures r.newHeader.None? && r.newFooter.None?
      ensures r.currentHeader == currentHeader && r.currentFooter == currentFooter
      ensures r.headerChanged == headerChanged && r.footerChanged == footerChanged
    {
      this.(newHeader := None, newFooter := None)
    }

    /** The template's `currentHeader()`: the committed header, else the candidate. */
    function ShownHeader(): Option<Component> {
      if currentHeader.Some? then currentHeader else newHeader
    }

    /** The template's `currentFooter()`: the committed footer, else the candidate. */
    function ShownFooter(): Option<Component> {
      if currentFooter.Some? then currentFooter else newFooter
    }
  }

  /** The state the constructor leaves: everything null and unchanged. */
  const FRESH_BANNER: BannerState := BannerState(None, None, None, None, false, false)

  /** Two updates with no write in between report no change the second time. */
  lemma UpdateTwiceIsQuiet(b: BannerState)
    ensures !b.Updated().Updated().AnyChanged()
  {
  }

  /** The header-and-footer object of a template. */
  class HeaderAndFooter {
    var currentHeader: Option<Component>
    var newHeader: Option<Component>
    var currentFooter: Option<Component>
    var newFooter: Option<Component>
    var headerChanged: bool
    var footerChanged: bool

    /** The object's fields as one value. */
    function State(): BannerState
      reads this
    {
      BannerState(currentHeader, newHeader, currentFooter, newFooter, headerChanged, footerChanged)
    }

    constructor ()
      ensures State() == FRESH_BANNER
    {
      currentHeader, newHeader, currentFooter, newFooter := None, None, None, None;
      headerChanged, footerChanged := false, false;
    }

    /** `update()`: the header first, then the footer. */
    method Update()
      modifies this
      ensures State() == old(State()).Updated()
    {
      headerChanged := (currentHeader.None? && newHeader.Some?) ||
                       (currentHeader.Some? && currentHeader != newHeader);
      currentHeader := newHeader;

      footerChanged := (currentFooter.None? && newFooter.Some?) ||
                       (currentFooter.Some? && currentFooter != newFooter);
      currentFooter := newFooter;
    }

    /** `resetState()`. */
    method ResetState()
      modifies this
      ensures State() == old(State()).ResetState()
    {
      newHeader := None;
      newFooter := None;
    }

    /** `anyChanged()`. */
    predicate AnyChanged()
      reads this
    {
      State().AnyChanged()
    }

    /** `setNewHeader(header)`: only the pending header changes. */
    method SetNewHeader(header: Option<Component>)
      modifies this
      ensures State() == old(State()).(newHeader := header)
    {
      newHeader := header;
    }

    /** `setNewFooter(footer)`: only the pending footer changes. */
    method SetNewFooter(footer: Option<Component>)
      modifies this
      ensures State() == old(State()).(newFooter := footer)
    {
      newFooter := footer;
    }
  }
}
