/** Memory-window translation of one device: the RAM alias (fast path) and the MMIO handlers (slow
    path), both computed from the BAR configuration registers. */
module BarWindows {
  import opened Basics

  const APERTURE: nat := 0x40_0000

  datatype BarConfig = BarConfig(setup: Word32, limit: Word32, ltbase: Word32, utbase: Word32)

  /** A window onto peer RAM: BAR offsets below `size` reach `offset` plus the BAR offset. */
  datatype Alias = Alias(offset: nat, size: nat)

  predicate Enabled(setup: Word32) { setup / 0x8000_0000 % 2 == 1 }
  predicate ConfigMode(setup: Word32) { setup / 0x400 % 2 == 1 }

  function PeerOffset(c: BarConfig): Word64 { c.utbase * 0x1_0000_0000 + c.ltbase }

  /** The alias a configuration asks for, given the BAR's base address and the size of peer RAM. */
  function Target(c: BarConfig, base: Word64, ramSize: nat): Option<Alias> {
    if !Enabled(c.setup) || ConfigMode(c.setup) || c.limit <= base then None
    else
      var window := Min(APERTURE, c.limit - base);
      if PeerOffset(c) >= ramSize || window > ramSize - PeerOffset(c) then None
      else Some(Alias(PeerOffset(c), window))
  }

  /** The peer RAM address the MMIO handlers use for an access at `addr`, or a refusal. */
  function SlowPath(c: BarConfig, base: Word64, addr: nat): Option<nat> {
    if c.limit == 0 then None
    else if (base + addr) % 0x1_0000_0000_0000_0000 > c.limit then None
    else Some((PeerOffset(c) + addr) % 0x1_0000_0000_0000_0000)
  }

  /** The fast path: an access wholly inside the alias. */
  function FastPath(alias: Option<Alias>, addr: nat, size: nat): Option<nat> {
    if alias.Some? && addr + size <= alias.value.size then Some(alias.value.offset + addr) else None
  }

  /** The fast path agrees with the slow path: every access the alias serves is one the MMIO handlers
      accept, reaches the same peer RAM address, and stays inside peer RAM. */
  lemma AliasAgreesWithSlowPath(c: BarConfig, base: Word64, ramSize: nat, addr: nat, size: nat)
    requires ramSize < 0x1_0000_0000_0000_0000 && size > 0
    requires FastPath(Target(c, base, ramSize), addr, size).Some?
    ensures var at := FastPath(Target(c, base, ramSize), addr, size).value;
            SlowPath(c, base, addr) == Some(at) && at + size <= ramSize
  {
    hide Enabled, ConfigMode, PeerOffset;
  }

  /** What an update leaves mapped: the target, unless the peer's RAM file cannot be opened. */
  function Mapped(c: BarConfig, base: Word64, ramSize: nat, canMap: bool): Option<Alias> {
    if canMap then Target(c, base, ramSize) else None
  }

  /** The file is tried only for an enabled window with a limit above its base. */
  predicate NeedsRam(c: BarConfig, base: Word64) { Enabled(c.setup) && !ConfigMode(c.setup) && c.limit > base }

  // ------------------------------------------------------------------------ all windows of a device

  type Bar = b: nat | b < 6

  /** BAR registers and aliases of one device. `ramOpen`: the peer's RAM file has been opened; until
      then no alias can be mapped. */
  datatype Windows = Windows(config: seq<BarConfig>, alias: seq<Option<Alias>>, ramOpen: bool)

  type Bars = w: Windows | |w.config| == 6 && |w.alias| == 6
    witness Windows(seq(6, _ => BarConfig(0, 0, 0, 0)), seq(6, _ => None), false)

  /** What a device sees of its surroundings: its BAR base addresses and the size of peer RAM. */
  datatype Layout = Layout(bases: seq<Word64>, ramSize: nat)

  type Site = l: Layout | |l.bases| == 6 && l.ramSize < 0x1_0000_0000_0000_0000
    witness Layout(seq(6, _ => 0), 0)

  /** Recompute the alias of one BAR; only BARs 2 to 4 are memory windows. `canOpen`: an attempt to open
      the peer's RAM file would succeed now. */
  function Update(w: Bars, l: Site, idx: Bar, canOpen: bool): Bars {
    if idx < 2 || idx > 4 then w
    else w.(alias := w.alias[idx := Mapped(w.config[idx], l.bases[idx], l.ramSize, w.ramOpen || canOpen)],
            ramOpen := w.ramOpen || (canOpen && NeedsRam(w.config[idx], l.bases[idx])))
  }

  function Refresh(w: Bars, l: Site, canOpen: bool): Bars {
    Update(Update(Update(w, l, 2, canOpen), l, 3, canOpen), l, 4, canOpen)
  }

  /** Nothing stale: each alias is unmapped or is what the current configuration asks for. */
  ghost predicate FreshAt(w: Bars, l: Site, idx: Bar) {
    w.alias[idx] == None || (2 <= idx <= 4 && w.alias[idx] == Target(w.config[idx], l.bases[idx], l.ramSize))
  }

  ghost predicate Fresh(w: Bars, l: Site) { forall idx: Bar :: FreshAt(w, l, idx) }

  ghost predicate OnlyWindows(w: Bars) { w.alias[0] == None && w.alias[1] == None && w.alias[5] == None }

  lemma RefreshIsFresh(w: Bars, l: Site, canOpen: bool)
    requires OnlyWindows(w)
    ensures Fresh(Refresh(w, l, canOpen), l) && OnlyWindows(Refresh(w, l, canOpen))
    ensures Refresh(w, l, canOpen).config == w.config
  {
    hide Target, NeedsRam;
  }

  /** Where an access to a BAR ends up: the alias takes it if it covers it, else the MMIO handler. */
  function Access(w: Bars, l: Site, idx: Bar, addr: nat, size: nat): Option<nat> {
    var fast := FastPath(w.alias[idx], addr, size);
    if fast.Some? then fast else SlowPath(w.config[idx], l.bases[idx], addr)
  }

  /** With nothing stale, every access has the slow path's meaning. */
  lemma AccessIsSlowPath(w: Bars, l: Site, idx: Bar, addr: nat, size: nat)
    requires FreshAt(w, l, idx) && size > 0
    ensures Access(w, l, idx, addr, size) == SlowPath(w.config[idx], l.bases[idx], addr)
  {
    hide Target, SlowPath;
    if FastPath(w.alias[idx], addr, size).Some? {
      AliasAgreesWithSlowPath(w.config[idx], l.bases[idx], l.ramSize, addr, size);
    }
  }

  // ------------------------------------------------------------------------- windows that are mapped

  /** The set-up words a device is realized with: BAR 0 is the configuration space, BARs 2 to 4 are windows. */
  const CONFIG_SETUP: Word32 := 0x8000_04C0
  const WINDOW_SETUP: Word32 := 0x8000_0160

  lemma SetupBits(setup: Word32)
    ensures Enabled(setup) <==> setup >= 0x8000_0000
    ensures ConfigMode(setup) <==> setup % 0x800 >= 0x400
  {
  }

  lemma RealizedSetups()
    ensures Enabled(WINDOW_SETUP) && !ConfigMode(WINDOW_SETUP) && Enabled(CONFIG_SETUP) && ConfigMode(CONFIG_SETUP)
  {
  }

  /** A refresh maps every window whose range lies in the peer's RAM, if that is open or can be opened, and
      from then on it stays open. */
  lemma RefreshMapsWindow(w: Bars, l: Site, idx: Bar, canOpen: bool)
    requires w.ramOpen || canOpen
    requires 2 <= idx <= 4 && w.config[idx].setup == WINDOW_SETUP && l.bases[idx] < w.config[idx].limit
    requires var c := w.config[idx];
             c.utbase * 0x1_0000_0000 + c.ltbase + Min(APERTURE, c.limit - l.bases[idx]) <= l.ramSize
    ensures var c := w.config[idx];
            Refresh(w, l, canOpen).alias[idx] ==
              Some(Alias(c.utbase * 0x1_0000_0000 + c.ltbase, Min(APERTURE, c.limit - l.bases[idx])))
    ensures Refresh(w, l, canOpen).ramOpen
  {
    RealizedSetups();
    hide Enabled, ConfigMode;
  }
}
