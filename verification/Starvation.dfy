/** With bank refreshes and a queue per bank, two busy banks can keep a third from ever being
    refreshed: runs of any length in which every refresh inserted still waits. */
module Starvation {
  import opened Common
  import opened Timing
  import opened Banks
  import opened Channels
  import opened ChannelProofs
  import opened CommandQueues
  import opened Controllers
  import opened ControllerProofs
  import opened RefreshProofs
  import opened Runs
  import opened Progress
  import opened BankProgress
  import opened Service
  import opened Scenes
  import opened Lone
  import opened Trace
  import opened Options
  import AddressMap
  import Arith
  import RefreshGaps

  /** Cycles from one activation to the next: a refresh would need one more. */
  function Beat(cfg: Config): int { cfg.TRC() - 1 }

  /** From activation to read. */
  function Reach(cfg: Config): int { Max(1, ActToRead(cfg)) }

  /** From precharge to activation. */
  function Gap(cfg: Config): int { Max(1, cfg.tRP) }

  function ActGap(cfg: Config, a: Address, b: Address): int {
    if a.bankgroup == b.bankgroup then ActToActL(cfg) else cfg.tRRD_S
  }

  function ReadGap(cfg: Config, a: Address, b: Address): int {
    if a.bankgroup == b.bankgroup then CcdL(cfg) else CcdS(cfg)
  }

  /** A bank can be opened, read and closed again within two beats: by the read itself, or by a
      precharge before the next activation. */
  predicate RowInTwoBeats(cfg: Config) {
    if cfg.closePage then Reach(cfg) + 2 <= Beat(cfg) && Reach(cfg) + ReadpToAct(cfg) <= 2 * Beat(cfg)
    else
      && 2 <= cfg.rows && Reach(cfg) + Gap(cfg) + 2 <= Beat(cfg)
      && Reach(cfg) + ReadToPrecharge(cfg) + Gap(cfg) <= 2 * Beat(cfg) && cfg.tRAS + Gap(cfg) <= 2 * Beat(cfg)
      && CcdL(cfg) <= 2 * Beat(cfg)
  }

  /** Two banks of the rank that is refreshed first, other than the bank that is. */
  predicate TwoBanks(cfg: Config, a: Address, b: Address) {
    && ValidConfig(cfg) && AddressMap.Fits(cfg, a) && AddressMap.Fits(cfg, b)
    && a.rank == b.rank == 0 && BankOf(a) != BankOf(b) && BankOf(a) != BankOf(ORIGIN) && BankOf(b) != BankOf(ORIGIN)
  }

  /** They can take turns, each activated a beat after the other. */
  predicate CanAlternate(cfg: Config, a: Address, b: Address) {
    && TwoBanks(cfg, a, b) && RowInTwoBeats(cfg) && 2 <= RefreshInterval(cfg)
    && ActGap(cfg, a, b) <= Beat(cfg) && ReadGap(cfg, a, b) <= Beat(cfg) && cfg.tPPD <= Beat(cfg)
    && cfg.tFAW <= 4 * Beat(cfg) && (cfg.IsGDDR() ==> cfg.t32AW <= 32 * Beat(cfg))
  }

  /** `home` is up next and `other` after it. Where pages stay open each turn goes to another row. */
  ghost predicate Pair(cfg: Config, home: Address, other: Address) {
    && CanAlternate(cfg, home, other) && cfg.refreshPolicy == BankLevelStaggered && !cfg.perRankQueues
    && (cfg.closePage || (0 <= home.row <= 1 && 0 <= other.row <= 1))
  }

  /** The same bank and, where pages stay open, the other of two rows. */
  function Flip(cfg: Config, a: Address): Address { if cfg.closePage then a else a.(row := 1 - a.row) }

  lemma PairBanks(cfg: Config, home: Address, other: Address)
    requires Pair(cfg, home, other)
    ensures ValidConfig(cfg) && Sized(cfg)
    ensures ValidBank(cfg, BankOf(home)) && ValidBank(cfg, BankOf(other)) && ValidBank(cfg, BankOf(ORIGIN))
    ensures BankOf(home) != BankOf(other) && BankOf(home) != BankOf(ORIGIN) && BankOf(other) != BankOf(ORIGIN)
    ensures home.rank == other.rank == 0
  {
    FitsBank(cfg, home);
    FitsBank(cfg, other);
  }

  lemma FitsBank(cfg: Config, a: Address)
    requires ValidConfig(cfg) && AddressMap.Fits(cfg, a)
    ensures ValidBank(cfg, BankOf(a)) && AddressMap.ValidMapping(cfg)
  {
    assert 0 <= AddressMap.Coordinate(a, Ra) < AddressMap.Pow2(AddressMap.Width(cfg, Ra));
    assert 0 <= AddressMap.Coordinate(a, Bg) < AddressMap.Pow2(AddressMap.Width(cfg, Bg));
    assert 0 <= AddressMap.Coordinate(a, Ba) < AddressMap.Pow2(AddressMap.Width(cfg, Ba));
    AddressMap.Log2Bounds(cfg.ranks);
    AddressMap.Log2Bounds(cfg.bankgroups);
    AddressMap.Log2Bounds(cfg.banksPerGroup);
  }

  lemma FlipFits(cfg: Config, a: Address)
    requires ValidConfig(cfg) && AddressMap.Fits(cfg, a) && (cfg.closePage || (2 <= cfg.rows && 0 <= a.row <= 1))
    ensures AddressMap.Fits(cfg, Flip(cfg, a)) && BankOf(Flip(cfg, a)) == BankOf(a)
  {
    var a' := Flip(cfg, a);
    AddressMap.Log2Bounds(cfg.rows);
    forall f: Field ensures 0 <= AddressMap.Coordinate(a', f) < AddressMap.Pow2(AddressMap.Width(cfg, f)) {
      assert 0 <= AddressMap.Coordinate(a, f) < AddressMap.Pow2(AddressMap.Width(cfg, f));
    }
  }

  lemma PairTurns(cfg: Config, home: Address, other: Address)
    requires Pair(cfg, home, other)
    ensures Pair(cfg, other, Flip(cfg, home)) && BankOf(Flip(cfg, home)) == BankOf(home)
  {
    FlipFits(cfg, home);
    hide ValidConfig, AddressMap.Fits;
  }

  // ---------------------------------------------------------------- the refresh in front is held back

  ghost predicate Unserved(log: seq<Issued>) { Refreshes(log) == [] }

  /** Up to cycle `until` the bank that is refreshed first cannot be refreshed. */
  ghost predicate Held(cfg: Config, ch: Channel, until: int) {
    && ValidConfig(cfg) && BankOf(ORIGIN) in ch.banks && ch.banks[BankOf(ORIGIN)].state == Closed
    && (ch.banks[BankOf(ORIGIN)].timing[RefreshBank] > until || until < RefreshInterval(cfg))
  }

  lemma WaitingFront(cfg: Config, s: Ctrl)
    requires ValidConfig(cfg) && InOrder(cfg, s) && Unserved(s.log) && cfg.refreshPolicy == BankLevelStaggered
    ensures s.ch.refreshQ != [] ==> s.ch.refreshQ[0] == Target(cfg, 0)
    ensures 0 < s.ref.clk <= RefreshInterval(cfg) ==> s.ch.refreshQ == []
    ensures Target(cfg, 0).ty == RefreshBank && BankOf(Target(cfg, 0).addr) == BankOf(ORIGIN)
  {
    hide AddressMap.ValidMapping;
    CountZero(cfg);
    assert s.ch.refreshQ == Targets(cfg, Insertions(cfg, s.ref.clk));
    if 0 < s.ref.clk <= RefreshInterval(cfg) { Arith.Small(s.ref.clk - 1, RefreshInterval(cfg)); }
  }

  lemma FrontHeld(cfg: Config, ch: Channel, ref: Command, clk: int)
    requires Sized(cfg) && Shaped(cfg, ch) && ref.ty == RefreshBank && BankOf(ref.addr) == BankOf(ORIGIN)
    requires Addressed(cfg, ref)
    requires ch.banks[BankOf(ORIGIN)].state == Closed && clk < ch.banks[BankOf(ORIGIN)].timing[RefreshBank]
    ensures ReadyCommand(cfg, ch, ref, clk) == Wait
  {
  }

  lemma OfferFrame(cfg: Config, ch: Channel, ch': Channel, queue: seq<Command>, home: Address, clk: int)
    requires Shaped(cfg, ch) && Shaped(cfg, ch') && ValidBank(cfg, BankOf(home))
    requires ch' == ch.(refreshQ := ch'.refreshQ)
    ensures Offer(cfg, ch', queue, home, false, clk) == Offer(cfg, ch, queue, home, false, clk)
  {
  }

  /** While the refresh is held back, the busy bank has its way. */
  lemma CrowdPick(cfg: Config, s: Ctrl, home: Address, other: Address, until: int)
    requires Pair(cfg, home, other) && Reaches(cfg, s) && AtHome(cfg, s, home, false)
    requires Held(cfg, s.ch, until) && s.clk <= until && Unserved(s.log)
    ensures HomeDecides(cfg, s, home)
  {
    hide Core, Choose, Shapely, InOrder, HomeQueues, TransHome, Shaped, Offer, QueueIndex, RefreshTick, ReadyCommand,
         ValidConfig, AddressMap.ValidMapping, Unserved, Target, CanAlternate, ValidBank;
    PairBanks(cfg, home, other);
    ShapedNow(cfg, s, home);
    HomeParts(cfg, s, home, false);
    var s1 := RefreshedOk(cfg, s);
    RefreshFrame(cfg, s);
    WaitingFront(cfg, s1);
    assert Shaped(cfg, s1.ch) by { CoreShapely(cfg, s1); }
    if s1.ch.refreshQ == [] {
      ChooseHome(cfg, s1, home, false);
    } else {
      HeldAddressed(cfg, s1);
      FrontHeld(cfg, s1.ch, s1.ch.refreshQ[0], s.clk);
      HeldBeside(cfg, s1.ch.refreshQ[0], home);
      ChooseBeside(cfg, s1, home, false);
    }
    OfferFrame(cfg, s.ch, s1.ch, s1.cq.queues[QueueIndex(cfg, home)], home, s.clk);
  }

  lemma HeldAddressed(cfg: Config, s: Ctrl)
    requires Shapely(cfg, s) && s.ch.refreshQ != []
    ensures Addressed(cfg, s.ch.refreshQ[0])
  {
  }

  lemma HeldBeside(cfg: Config, ref: Command, home: Address)
    requires ref.ty == RefreshBank && BankOf(ref.addr) == BankOf(ORIGIN) && BankOf(home) != BankOf(ORIGIN)
    ensures !Covers(cfg, ref, BankOf(home))
  {
  }

  // ---------------------------------------------------------------- one tick

  ghost predicate Crowded(cfg: Config, s: Ctrl, home: Address) { Single(cfg, s, home) && Unserved(s.log) }

  lemma UnservedMore(log: seq<Issued>, i: Issued)
    requires Unserved(log) && !IsRefresh(i.cmd.ty)
    ensures Unserved(log + [i])
  {
    assert (log + [i])[..|log|] == log;
  }

  lemma CrowdTick(cfg: Config, s: Ctrl, home: Address, other: Address, until: int) returns (s': Ctrl)
    requires Pair(cfg, home, other) && Crowded(cfg, s, home) && Held(cfg, s.ch, until) && s.clk <= until
    ensures AdvancedHome(cfg, s, s', home) && Crowded(cfg, s', home)
  {
    hide Pair, Reaches, AtHome, Spare, QueueIndex, Held, Unserved, Advanced, HomeDecides, Step, Offer;
    PairBanks(cfg, home, other);
    CrowdPick(cfg, s, home, other, until);
    s' := LoneTick(cfg, s, home);
    OfferKind(cfg, s, home);
    var r := HomeOffer(cfg, s, home, false);
    AdvancedParts(cfg, s, s', r);
    if r.Issue? { UnservedMore(s.log, Issued(s.clk, r.cmd)); } else { assert s'.log == s.log; }
  }

  // ---------------------------------------------------------------- the pace of the two banks

  /** The bank of `home` takes an activation at cycle `t` and a read in time after it: it is closed, or
      holds another row and takes a precharge in time before. */
  ghost predicate Set(cfg: Config, ch: Channel, home: Address, t: int) {
    BankOf(home) in ch.banks && SetBank(cfg, ch.banks[BankOf(home)], home.row, t)
  }

  predicate SetBank(cfg: Config, b: BankState, row: int, t: int) {
    && b.timing[Activate] <= t && b.timing[AccessType(cfg, false)] <= t + Reach(cfg)
    && (b.state == Closed || (b.state == Open && b.openRow != row && !cfg.closePage))
    && (!cfg.closePage ==> b.timing[Precharge] <= if b.state == Open then t - Gap(cfg) else t)
  }

  /** Before the activation of `home` at cycle `t`; the other bank follows a beat later. */
  ghost predicate Paced(cfg: Config, ch: Channel, home: Address, other: Address, t: int) {
    Set(cfg, ch, home, t) && Set(cfg, ch, other, t + Beat(cfg)) && Held(cfg, ch, t)
  }

  /** After the activation of `home` at cycle `t`, before its read. */
  ghost predicate Reading(cfg: Config, ch: Channel, home: Address, other: Address, t: int) {
    && BankOf(home) in ch.banks && ReadingBank(cfg, ch.banks[BankOf(home)], home.row, t)
    && Set(cfg, ch, other, t + Beat(cfg)) && Held(cfg, ch, t + Beat(cfg))
  }

  predicate ReadingBank(cfg: Config, b: BankState, row: int, t: int) {
    && b.state == Open && b.openRow == row
    && b.timing[AccessType(cfg, false)] <= t + Reach(cfg) && b.timing[Activate] <= t + 2 * Beat(cfg)
    && (!cfg.closePage ==> b.timing[Precharge] <= t + 2 * Beat(cfg) - Gap(cfg))
  }

  /** What an activation asks of its own bank, and of the others in the rank. */
  lemma ActivateAsks(cfg: Config, cmd: Command, b: BankId)
    requires cmd.ty == Activate && b.rank == cmd.addr.rank
    ensures var t := Consulted(cfg, cmd, b); var acc := AccessType(cfg, false);
      if b == BankOf(cmd.addr) then
        forall e :: e in t ==>
          && (e.ty == Activate ==> e.delay == cfg.TRC()) && (e.ty == acc ==> e.delay == ActToRead(cfg))
          && (e.ty == Precharge ==> e.delay == cfg.tRAS)
      else
        && Entry(RefreshBank, cfg.TRC()) in t
        && forall e :: e in t ==>
          && e.ty != acc && e.ty != Precharge
          && (e.ty == Activate ==>
                e.delay == if b.bankgroup == cmd.addr.bankgroup then ActToActL(cfg) else cfg.tRRD_S)
  {
  }

  /** What a read asks, with auto-precharge or without. */
  lemma ReadAsks(cfg: Config, cmd: Command, b: BankId)
    requires cmd.ty == AccessType(cfg, false) && b.rank == cmd.addr.rank
    ensures var t := Consulted(cfg, cmd, b); var acc := AccessType(cfg, false);
      if b == BankOf(cmd.addr) then
        forall e :: e in t ==>
          && (cfg.closePage ==> e.ty != acc) && (e.ty == acc ==> e.delay == CcdL(cfg))
          && (!cfg.closePage ==> e.ty != Activate) && (e.ty == Activate ==> e.delay == ReadpToAct(cfg))
          && (cfg.closePage ==> e.ty != Precharge) && (e.ty == Precharge ==> e.delay == ReadToPrecharge(cfg))
      else
        forall e :: e in t ==>
          && e.ty != Activate && e.ty != Precharge && e.ty != RefreshBank
          && (e.ty == acc ==> e.delay == if b.bankgroup == cmd.addr.bankgroup then CcdL(cfg) else CcdS(cfg))
  {
  }

  lemma PrechargeAsks(cfg: Config, cmd: Command, b: BankId)
    requires cmd.ty == Precharge && b.rank == cmd.addr.rank
    ensures var t := Consulted(cfg, cmd, b); var acc := AccessType(cfg, false);
      if b == BankOf(cmd.addr) then
        && Entry(Activate, cfg.tRP) in t
        && forall e :: e in t ==> e.ty != acc && e.ty != Precharge && (e.ty == Activate ==> e.delay == cfg.tRP)
      else
        forall e :: e in t ==> e.ty == Precharge && e.delay == cfg.tPPD
  {
  }

  /** What a command does to a timer that its table mentions with no delay above `d`. */
  lemma TimerUpTo(cfg: Config, ch: Channel, cmd: Command, clk: int, b: BankId, ch': Channel, ty: CommandType, d: int)
    requires Shaped(cfg, ch) && Ready(cfg, ch, cmd, clk) && Update(cfg, ch, cmd, clk) == Some(ch') && ValidBank(cfg, b)
    requires forall e :: e in Consulted(cfg, cmd, b) && e.ty == ty ==> e.delay <= d
    ensures b in ch.banks && b in ch'.banks && ch'.banks[b].timing[ty] <= Max(ch.banks[b].timing[ty], clk + d)
  {
    hide Update, Ready, Consulted, BankMoved, Covers;
    UpdateBank(cfg, ch, cmd, clk, b);
    TimerLimit(ch.banks[b], ch'.banks[b], Covers(cfg, cmd, b), cmd, Consulted(cfg, cmd, b), clk, ty, d);
  }

  lemma TimerKeeps(cfg: Config, ch: Channel, cmd: Command, clk: int, b: BankId, ch': Channel, ty: CommandType)
    requires Shaped(cfg, ch) && Ready(cfg, ch, cmd, clk) && Update(cfg, ch, cmd, clk) == Some(ch') && ValidBank(cfg, b)
    requires forall e :: e in Consulted(cfg, cmd, b) ==> e.ty != ty
    ensures b in ch.banks && b in ch'.banks && ch'.banks[b].timing[ty] == ch.banks[b].timing[ty]
  {
    hide Update, Ready, Consulted, BankMoved, Covers;
    UpdateBank(cfg, ch, cmd, clk, b);
    TimerStays(ch.banks[b], ch'.banks[b], Covers(cfg, cmd, b), cmd, Consulted(cfg, cmd, b), clk, ty);
  }

  lemma MovedState(before: BankState, after: BankState, covered: bool, cmd: Command, table: seq<Entry>, clk: int)
    requires BankMoved(before, after, covered, cmd, table, clk)
    ensures covered && cmd.ty == Activate ==> after.state == Open && after.openRow == cmd.addr.row
    ensures covered && cmd.ty in {ReadPrecharge, Precharge} ==> after.state == Closed
    ensures !covered || cmd.ty == Read ==> after.state == before.state && after.openRow == before.openRow
    ensures before.timing[RefreshBank] <= after.timing[RefreshBank]
    ensures forall e :: e in table ==> clk + e.delay <= after.timing[e.ty]
  {
  }

  /** Rows, and the timers that only rise. */
  lemma RowMoves(cfg: Config, ch: Channel, cmd: Command, clk: int, b: BankId, ch': Channel)
    requires Shaped(cfg, ch) && Ready(cfg, ch, cmd, clk) && Update(cfg, ch, cmd, clk) == Some(ch') && ValidBank(cfg, b)
    requires !IsRankCommand(cmd.ty)
    ensures b in ch.banks && b in ch'.banks
    ensures var before, after := ch.banks[b], ch'.banks[b];
      && (b == BankOf(cmd.addr) && cmd.ty == Activate ==> after.state == Open && after.openRow == cmd.addr.row)
      && (b == BankOf(cmd.addr) && cmd.ty in {ReadPrecharge, Precharge} ==> after.state == Closed)
      && (b != BankOf(cmd.addr) || cmd.ty == Read ==> after.state == before.state && after.openRow == before.openRow)
      && before.timing[RefreshBank] <= after.timing[RefreshBank]
      && forall e :: e in Consulted(cfg, cmd, b) ==> clk + e.delay <= after.timing[e.ty]
  {
    hide Update, Ready, Consulted, BankMoved;
    UpdateBank(cfg, ch, cmd, clk, b);
    MovedState(ch.banks[b], ch'.banks[b], Covers(cfg, cmd, b), cmd, Consulted(cfg, cmd, b), clk);
  }

  /** The activation of `home` a beat before that of `other`. */
  lemma ActivatedOther(cfg: Config, ch: Channel, cmd: Command, home: Address, other: Address, t: int, ch': Channel)
    requires Pair(cfg, home, other) && cmd.ty == Activate && cmd.addr == home && Set(cfg, ch, other, t + Beat(cfg))
    requires Shaped(cfg, ch) && Ready(cfg, ch, cmd, t) && Update(cfg, ch, cmd, t) == Some(ch')
    ensures Set(cfg, ch', other, t + Beat(cfg))
  {
    var b := BankOf(other);
    PairBanks(cfg, home, other);
    assert ActGap(cfg, home, other) <= Beat(cfg);
    ActivateAsks(cfg, cmd, b);
    hide Update, Ready, Shaped, Pair, ValidConfig, Consulted, AccessType, Beat, Gap, Reach, ValidBank;
    RowMoves(cfg, ch, cmd, t, b, ch');
    TimerUpTo(cfg, ch, cmd, t, b, ch', Activate, ActGap(cfg, home, other));
    TimerKeeps(cfg, ch, cmd, t, b, ch', AccessType(cfg, false));
    TimerKeeps(cfg, ch, cmd, t, b, ch', Precharge);
  }

  lemma ActivatedHeld(cfg: Config, ch: Channel, cmd: Command, home: Address, other: Address, t: int, ch': Channel)
    requires Pair(cfg, home, other) && cmd.ty == Activate && cmd.addr == home && Held(cfg, ch, t)
    requires Shaped(cfg, ch) && Ready(cfg, ch, cmd, t) && Update(cfg, ch, cmd, t) == Some(ch')
    ensures Held(cfg, ch', t + Beat(cfg))
  {
    PairBanks(cfg, home, other);
    ActivateAsks(cfg, cmd, BankOf(ORIGIN));
    hide Update, Ready, Shaped, Pair, ValidConfig, Consulted, ValidBank, AccessType;
    RowMoves(cfg, ch, cmd, t, BankOf(ORIGIN), ch');
    assert t + Entry(RefreshBank, cfg.TRC()).delay <= ch'.banks[BankOf(ORIGIN)].timing[RefreshBank];
  }

  lemma ActivatedHome(cfg: Config, ch: Channel, cmd: Command, home: Address, other: Address, t: int, ch': Channel)
    requires Pair(cfg, home, other) && cmd.ty == Activate && cmd.addr == home && Set(cfg, ch, home, t)
    requires Shaped(cfg, ch) && Ready(cfg, ch, cmd, t) && Update(cfg, ch, cmd, t) == Some(ch')
    ensures BankOf(home) in ch'.banks && ReadingBank(cfg, ch'.banks[BankOf(home)], home.row, t)
  {
    var b := BankOf(home);
    hide Update, Ready, Shaped, Pair, ValidConfig, Consulted, ValidBank, SetBank, ReadingBank, AccessType;
    PairBanks(cfg, home, other);
    ActivateAsks(cfg, cmd, b);
    RowMoves(cfg, ch, cmd, t, b, ch');
    TimerUpTo(cfg, ch, cmd, t, b, ch', Activate, cfg.TRC());
    TimerUpTo(cfg, ch, cmd, t, b, ch', AccessType(cfg, false), ActToRead(cfg));
    TimerUpTo(cfg, ch, cmd, t, b, ch', Precharge, cfg.tRAS);
    PairPace(cfg, home, other);
    SetToReading(cfg, ch.banks[b], ch'.banks[b], home.row, t);
  }

  lemma SetToReading(cfg: Config, before: BankState, after: BankState, row: int, t: int)
    requires SetBank(cfg, before, row, t) && RowInTwoBeats(cfg) && 1 <= Gap(cfg) && after.state == Open
    requires after.openRow == row
    requires after.timing[Activate] <= Max(before.timing[Activate], t + cfg.TRC())
    requires after.timing[AccessType(cfg, false)] <= Max(before.timing[AccessType(cfg, false)], t + ActToRead(cfg))
    requires after.timing[Precharge] <= Max(before.timing[Precharge], t + cfg.tRAS)
    ensures ReadingBank(cfg, after, row, t)
  {
    hide AccessType, ActToRead, ReadpToAct, ReadToPrecharge, CcdL;
  }

  lemma PacedToReading(cfg: Config, ch: Channel, cmd: Command, home: Address, other: Address, t: int, ch': Channel)
    requires Pair(cfg, home, other) && cmd.ty == Activate && cmd.addr == home && Paced(cfg, ch, home, other, t)
    requires Shaped(cfg, ch) && Ready(cfg, ch, cmd, t) && Update(cfg, ch, cmd, t) == Some(ch')
    ensures Reading(cfg, ch', home, other, t)
  {
    hide Update, Ready, Shaped, Pair, Held, Set, ReadingBank;
    ActivatedOther(cfg, ch, cmd, home, other, t, ch');
    ActivatedHeld(cfg, ch, cmd, home, other, t, ch');
    ActivatedHome(cfg, ch, cmd, home, other, t, ch');
  }

  /** The read of `home` at cycle `r`, in time after its activation at cycle `t`. */
  lemma ReadHome(cfg: Config, ch: Channel, cmd: Command, home: Address, other: Address, t: int, r: int, ch': Channel)
    requires Pair(cfg, home, other) && cmd.ty == AccessType(cfg, false) && cmd.addr == home && r <= t + Reach(cfg)
    requires BankOf(home) in ch.banks && ReadingBank(cfg, ch.banks[BankOf(home)], home.row, t)
    requires Shaped(cfg, ch) && Ready(cfg, ch, cmd, r) && Update(cfg, ch, cmd, r) == Some(ch')
    ensures Set(cfg, ch', Flip(cfg, home), t + 2 * Beat(cfg))
  {
    var b := BankOf(home);
    hide Update, Ready, Shaped, Pair, ValidConfig, Consulted, ValidBank, SetBank, ReadingBank, AccessType;
    ReadKind(cfg);
    PairBanks(cfg, home, other);
    ReadAsks(cfg, cmd, b);
    RowMoves(cfg, ch, cmd, r, b, ch');
    if cfg.closePage {
      TimerUpTo(cfg, ch, cmd, r, b, ch', Activate, ReadpToAct(cfg));
      TimerKeeps(cfg, ch, cmd, r, b, ch', AccessType(cfg, false));
    } else {
      TimerUpTo(cfg, ch, cmd, r, b, ch', AccessType(cfg, false), CcdL(cfg));
      TimerUpTo(cfg, ch, cmd, r, b, ch', Precharge, ReadToPrecharge(cfg));
      TimerKeeps(cfg, ch, cmd, r, b, ch', Activate);
    }
    PairPace(cfg, home, other);
    hide Reach, RowInTwoBeats, Beat;
    ReadingToSet(cfg, ch.banks[b], ch'.banks[b], home.row, Flip(cfg, home).row, t, r);
  }

  lemma ReadKind(cfg: Config)
    ensures AccessType(cfg, false) == if cfg.closePage then ReadPrecharge else Read
  {
  }

  lemma ReadingToSet(cfg: Config, before: BankState, after: BankState, row: int, row': int, t: int, r: int)
    requires ReadingBank(cfg, before, row, t) && RowInTwoBeats(cfg) && 1 <= Reach(cfg) && r <= t + Reach(cfg)
    requires row' != row || cfg.closePage
    requires if cfg.closePage then after.state == Closed
      else after.state == before.state && after.openRow == before.openRow
    requires var acc := AccessType(cfg, false);
      if cfg.closePage then
        && after.timing[acc] == before.timing[acc]
        && after.timing[Activate] <= Max(before.timing[Activate], r + ReadpToAct(cfg))
      else
        && after.timing[acc] <= Max(before.timing[acc], r + CcdL(cfg))
        && after.timing[Activate] == before.timing[Activate]
        && after.timing[Precharge] <= Max(before.timing[Precharge], r + ReadToPrecharge(cfg))
    ensures SetBank(cfg, after, row', t + 2 * Beat(cfg))
  {
    hide AccessType, ActToRead, ReadpToAct, ReadToPrecharge, CcdL, Reach;
  }

  lemma ReadOther(cfg: Config, ch: Channel, cmd: Command, home: Address, other: Address, t: int, r: int, ch': Channel)
    requires Pair(cfg, home, other) && cmd.ty == AccessType(cfg, false) && cmd.addr == home && r <= t + Reach(cfg)
    requires Set(cfg, ch, other, t + Beat(cfg))
    requires Shaped(cfg, ch) && Ready(cfg, ch, cmd, r) && Update(cfg, ch, cmd, r) == Some(ch')
    ensures Set(cfg, ch', other, t + Beat(cfg))
  {
    var b := BankOf(other);
    hide Update, Ready, Shaped, Pair, ValidConfig, Consulted, AccessType, Beat, Gap, Reach, ValidBank;
    ReadKind(cfg);
    PairBanks(cfg, home, other);
    PairPace(cfg, home, other);
    ReadAsks(cfg, cmd, b);
    RowMoves(cfg, ch, cmd, r, b, ch');
    TimerUpTo(cfg, ch, cmd, r, b, ch', AccessType(cfg, false), ReadGap(cfg, home, other));
    TimerKeeps(cfg, ch, cmd, r, b, ch', Activate);
    TimerKeeps(cfg, ch, cmd, r, b, ch', Precharge);
  }

  lemma HeldOn(cfg: Config, ch: Channel, cmd: Command, home: Address, other: Address, clk: int, ch': Channel,
               until: int)
    requires Pair(cfg, home, other) && !IsRankCommand(cmd.ty) && cmd.addr == home && Held(cfg, ch, until)
    requires Shaped(cfg, ch) && Ready(cfg, ch, cmd, clk) && Update(cfg, ch, cmd, clk) == Some(ch')
    ensures Held(cfg, ch', until)
  {
    hide Update, Ready, Shaped, Pair, ValidConfig, Consulted, ValidBank;
    PairBanks(cfg, home, other);
    RowMoves(cfg, ch, cmd, clk, BankOf(ORIGIN), ch');
  }

  lemma ReadingToPaced(cfg: Config, ch: Channel, cmd: Command, home: Address, other: Address, t: int, r: int,
                       ch': Channel)
    requires Pair(cfg, home, other) && cmd.ty == AccessType(cfg, false) && cmd.addr == home && r <= t + Reach(cfg)
    requires Reading(cfg, ch, home, other, t)
    requires Shaped(cfg, ch) && Ready(cfg, ch, cmd, r) && Update(cfg, ch, cmd, r) == Some(ch')
    ensures Paced(cfg, ch', other, Flip(cfg, home), t + Beat(cfg))
  {
    hide Update, Ready, Shaped, Pair, Held, Set, ReadingBank, Flip, Reach, AccessType, Beat;
    ReadKind(cfg);
    assert t + Beat(cfg) + Beat(cfg) == t + 2 * Beat(cfg);
    ReadHome(cfg, ch, cmd, home, other, t, r, ch');
    ReadOther(cfg, ch, cmd, home, other, t, r, ch');
    HeldOn(cfg, ch, cmd, home, other, r, ch', t + Beat(cfg));
  }

  /** After the precharge of `home`: no activation before cycle `t`, and all as it should be then. */
  ghost predicate Precharged(cfg: Config, ch: Channel, home: Address, other: Address, clk: int, t: int) {
    && Paced(cfg, ch, home, other, t) && ch.banks[BankOf(home)].state == Closed
    && (clk < t ==> t <= ch.banks[BankOf(home)].timing[Activate])
  }

  /** The precharge of `home`, just in time before its activation. */
  lemma PacedToShut(cfg: Config, ch: Channel, cmd: Command, home: Address, other: Address, t: int, ch': Channel)
    requires Pair(cfg, home, other) && cmd.ty == Precharge && cmd.addr == home && !cfg.closePage
    requires Paced(cfg, ch, home, other, t) && Shaped(cfg, ch)
    requires Ready(cfg, ch, cmd, t - Gap(cfg)) && Update(cfg, ch, cmd, t - Gap(cfg)) == Some(ch')
    requires ch.banks[BankOf(home)].timing[Precharge] <= t
    ensures Precharged(cfg, ch', home, other, t - Gap(cfg) + 1, t)
  {
    var p := t - Gap(cfg);
    hide Update, Ready, Shaped, Pair, ValidConfig, Consulted, ValidBank, AccessType, Held, Reach, Beat;
    PairBanks(cfg, home, other);
    PairPace(cfg, home, other);
    HeldOn(cfg, ch, cmd, home, other, p, ch', t);
    PrechargedOther(cfg, ch, cmd, home, other, t, ch');
    hide Set;
    PrechargedHome(cfg, ch, cmd, home, other, t, ch');
  }

  lemma PrechargedHome(cfg: Config, ch: Channel, cmd: Command, home: Address, other: Address, t: int, ch': Channel)
    requires Pair(cfg, home, other) && cmd.ty == Precharge && cmd.addr == home && !cfg.closePage
    requires Set(cfg, ch, home, t) && Shaped(cfg, ch)
    requires Ready(cfg, ch, cmd, t - Gap(cfg)) && Update(cfg, ch, cmd, t - Gap(cfg)) == Some(ch')
    requires ch.banks[BankOf(home)].timing[Precharge] <= t
    ensures Set(cfg, ch', home, t) && ch'.banks[BankOf(home)].state == Closed
    ensures t - Gap(cfg) + 1 < t ==> t <= ch'.banks[BankOf(home)].timing[Activate]
  {
    var b, p := BankOf(home), t - Gap(cfg);
    hide Update, Ready, Shaped, Pair, ValidConfig, Consulted, ValidBank, AccessType, Reach;
    PairBanks(cfg, home, other);
    PrechargeAsks(cfg, cmd, b);
    RowMoves(cfg, ch, cmd, p, b, ch');
    TimerUpTo(cfg, ch, cmd, p, b, ch', Activate, cfg.tRP);
    TimerKeeps(cfg, ch, cmd, p, b, ch', AccessType(cfg, false));
    TimerKeeps(cfg, ch, cmd, p, b, ch', Precharge);
    assert p + Entry(Activate, cfg.tRP).delay <= ch'.banks[b].timing[Activate];
  }

  lemma PrechargedOther(cfg: Config, ch: Channel, cmd: Command, home: Address, other: Address, t: int, ch': Channel)
    requires Pair(cfg, home, other) && cmd.ty == Precharge && cmd.addr == home
    requires Set(cfg, ch, other, t + Beat(cfg)) && Shaped(cfg, ch)
    requires Ready(cfg, ch, cmd, t - Gap(cfg)) && Update(cfg, ch, cmd, t - Gap(cfg)) == Some(ch')
    ensures Set(cfg, ch', other, t + Beat(cfg))
  {
    var b, p := BankOf(other), t - Gap(cfg);
    hide Update, Ready, Shaped, Pair, ValidConfig, Consulted, ValidBank, Reach, Beat, Gap;
    PairBanks(cfg, home, other);
    PairPace(cfg, home, other);
    PrechargeAsks(cfg, cmd, b);
    assert AccessType(cfg, false) != Precharge;
    hide AccessType;
    RowMoves(cfg, ch, cmd, p, b, ch');
    TimerUpTo(cfg, ch, cmd, p, b, ch', Precharge, cfg.tPPD);
    TimerKeeps(cfg, ch, cmd, p, b, ch', AccessType(cfg, false));
    TimerKeeps(cfg, ch, cmd, p, b, ch', Activate);
  }

  /** The timing that the pair relies on. */
  lemma PairPace(cfg: Config, home: Address, other: Address)
    requires Pair(cfg, home, other)
    ensures RowInTwoBeats(cfg) && ReadGap(cfg, home, other) <= Beat(cfg) && cfg.tPPD <= Beat(cfg)
    ensures 1 <= Reach(cfg) && 1 <= Gap(cfg) && cfg.tRP <= Gap(cfg) && Reach(cfg) + 2 <= Beat(cfg)
    ensures cfg.closePage || Flip(cfg, home).row != home.row
  {
  }

  // ---------------------------------------------------------------- activation windows

  /** The activations are a beat apart, and the next one is due at `next`. */
  ghost predicate OnBeat(acts: seq<int>, beat: int, next: int) {
    forall i :: 0 <= i < |acts| ==> acts[i] + (|acts| - i) * beat <= next
  }

  lemma BeatGoesOn(acts: seq<int>, beat: int, next: int)
    requires OnBeat(acts, beat, next)
    ensures OnBeat(acts + [next], beat, next + beat)
  {
    var acts' := acts + [next];
    forall i | 0 <= i < |acts'| ensures acts'[i] + (|acts'| - i) * beat <= next + beat {
      if i < |acts| { assert (|acts| + 1 - i) * beat == (|acts| - i) * beat + beat; }
    }
  }

  lemma WindowPasses(window: seq<int>, acts: seq<int>, n: nat, span: int, beat: int, next: int)
    requires WindowMatch(window, acts, n, span) && OnBeat(acts, beat, next) && span <= n * beat && 0 < n
    ensures WindowOk(window, next, n)
  {
    if |window| == n {
      assert window[0] == acts[|acts| - n] + span;
      assert acts[|acts| - n] + n * beat <= next;
    }
  }

  lemma WindowsPass(cfg: Config, s: Ctrl, home: Address, other: Address, t: int)
    requires Reaches(cfg, s) && Pair(cfg, home, other) && OnBeat(Activations(s.log, 0), Beat(cfg), t)
    ensures 0 < |s.ch.fourAw| && 0 < |s.ch.thirtyTwoAw| && ActivationWindowOk(cfg, s.ch, 0, t)
  {
    hide Books, RowsMatch, TimersMatch, TraceOk, InOrder, RefreshState, Past, AddressMap.ValidMapping, QueuesShaped,
         WindowMatch, WindowOk, OnBeat, RowInTwoBeats, AddressMap.Fits, ActGap, ReadGap;
    assert WindowMatch(s.ch.fourAw[0], Activations(s.log, 0), 4, cfg.tFAW);
    WindowPasses(s.ch.fourAw[0], Activations(s.log, 0), 4, cfg.tFAW, Beat(cfg), t);
    if cfg.IsGDDR() {
      assert WindowMatch(s.ch.thirtyTwoAw[0], Activations(s.log, 0), 32, cfg.t32AW);
      WindowPasses(s.ch.thirtyTwoAw[0], Activations(s.log, 0), 32, cfg.t32AW, Beat(cfg), t);
    }
  }

  lemma ActivationsMore(log: seq<Issued>, i: Issued, rank: int)
    ensures var act := i.cmd.ty == Activate && i.cmd.addr.rank == rank;
      Activations(log + [i], rank) == Activations(log, rank) + if act then [i.clk] else []
  {
    assert (log + [i])[..|log|] == log;
  }

  // ---------------------------------------------------------------- one turn of a busy bank

  /** When the read of `home` has to wait in the queue: at the activation, or at the precharge before. */
  function QueueAt(cfg: Config, ch: Channel, home: Address, t: int): int {
    if BankOf(home) in ch.banks && ch.banks[BankOf(home)].state == Open then t - Gap(cfg) else t
  }

  /** Nothing waits, and `home` is activated at cycle `t`. */
  ghost predicate Lull(cfg: Config, s: Ctrl, home: Address, other: Address, t: int) {
    && Pair(cfg, home, other) && Crowded(cfg, s, home) && QueueEmpty(s.cq) && s.clk < QueueAt(cfg, s.ch, home, t)
    && Paced(cfg, s.ch, home, other, t) && OnBeat(Activations(s.log, 0), Beat(cfg), t)
  }

  lemma PacedFrame(cfg: Config, ch: Channel, ch': Channel, home: Address, other: Address, t: int)
    requires Paced(cfg, ch, home, other, t) && ch'.banks == ch.banks
    ensures Paced(cfg, ch', home, other, t) && Held(cfg, ch', t)
    ensures QueueAt(cfg, ch', home, t) == QueueAt(cfg, ch, home, t)
  {
    hide ValidConfig, SetBank;
  }

  lemma QueueAtMost(cfg: Config, ch: Channel, home: Address, t: int)
    ensures QueueAt(cfg, ch, home, t) <= t
  {
  }

  lemma {:induction false} Rest(cfg: Config, s: Ctrl, home: Address, other: Address, t: int) returns (s': Ctrl)
    requires Lull(cfg, s, home, other, t)
    ensures Lull(cfg, s', home, other, t) && s'.clk == QueueAt(cfg, s'.ch, home, t) - 1
    decreases t - s.clk
  {
    hide Pair, Single, Unserved, Paced, OnBeat, Held, Update, Ready, Shaped, QueueAt, QueueIndex;
    s' := s;
    QueueAtMost(cfg, s.ch, home, t);
    if s.clk < QueueAt(cfg, s.ch, home, t) - 1 {
      PacedFrame(cfg, s.ch, s.ch, home, other, t);
      s' := CrowdTick(cfg, s, home, other, t);
      assert HomeOffer(cfg, s, home, false) == Wait;
      PacedFrame(cfg, s.ch, s'.ch, home, other, t);
      s' := Rest(cfg, s', home, other, t);
    }
  }

  /** One read of `home` waits in the queue. */
  ghost predicate Fed(cfg: Config, s: Ctrl, home: Address) {
    Crowded(cfg, s, home) && |s.cq.queues[QueueIndex(cfg, home)]| == 1
  }

  /** A read of `home` arrives and becomes a command. */
  lemma Supply(cfg: Config, s: Ctrl, home: Address, other: Address, t: int) returns (s': Ctrl)
    requires Lull(cfg, s, home, other, t)
    ensures Fed(cfg, s', home) && s'.clk == s.clk + 1 && s'.log == s.log && s'.ch.banks == s.ch.banks
  {
    hide Pair, Reaches, AtHome, Spare, Unserved, Held, Shaped, QueueIndex, OnBeat, Activations, Paced, ValidConfig,
         Goes, OneWaits, QueueEmpty, QueueAt, HomeDecides, Step, Empty, AddTransaction, WillAcceptTransaction;
    PairBanks(cfg, home, other);
    var a := BusyAddress(cfg, home, other);
    EmptyNow(cfg, s, home);
    QueueAtMost(cfg, s.ch, home, t);
    PacedFrame(cfg, s.ch, s.ch, home, other, t);
    s' := Arrives(cfg, s, home, a);
    CrowdPick(cfg, s', home, other, t);
    s' := Feeds(cfg, s', home, Transaction(a, false, s.clk, 0));
  }

  /** Some address goes to each busy bank. */
  lemma BusyAddress(cfg: Config, home: Address, other: Address) returns (a: nat)
    requires Pair(cfg, home, other)
    ensures AddressMap.ValidMapping(cfg) && Goes(cfg, a, home)
  {
    FitsBank(cfg, home);
    hide AddressMap.ValidMapping, ValidConfig, AddressMap.Fits, RowInTwoBeats;
    AddressMap.DecodeEncode(cfg, home);
    a := AddressMap.Compose(cfg, home);
  }

  /** The row that is open is closed just in time. */
  lemma Closes(cfg: Config, s: Ctrl, home: Address, other: Address, t: int) returns (s': Ctrl)
    requires Pair(cfg, home, other) && Fed(cfg, s, home) && s.clk == t - Gap(cfg)
    requires Paced(cfg, s.ch, home, other, t) && s.ch.banks[BankOf(home)].state == Open
    ensures Fed(cfg, s', home) && s'.clk == s.clk + 1 && Precharged(cfg, s'.ch, home, other, s'.clk, t)
    ensures Activations(s'.log, 0) == Activations(s.log, 0)
  {
    hide Pair, Single, Unserved, Held, Update, Ready, Shaped, QueueIndex, Activations, Precharged, Beat, Gap, Reach;
    PairBanks(cfg, home, other);
    PairPace(cfg, home, other);
    PacedFrame(cfg, s.ch, s.ch, home, other, t);
    s' := CrowdTick(cfg, s, home, other, t);
    var c := Command(Precharge, home, s.cq.queues[QueueIndex(cfg, home)][0].hexAddr);
    assert HomeOffer(cfg, s, home, false) == Issue(c);
    hide Offer;
    var ch := AdvancedFrom(cfg, s, s', c);
    PacedFrame(cfg, s.ch, ch, home, other, t);
    PacedToShut(cfg, ch, c, home, other, t, s'.ch);
    ActivationsMore(s.log, Issued(s.clk, c), 0);
  }

  lemma ShutFrame(cfg: Config, ch: Channel, ch': Channel, home: Address, other: Address, clk: int, t: int)
    requires Precharged(cfg, ch, home, other, clk, t) && ch'.banks == ch.banks
    ensures Precharged(cfg, ch', home, other, clk + 1, t)
  {
    hide SetBank, ValidConfig;
  }

  lemma {:induction false} Settles(cfg: Config, s: Ctrl, home: Address, other: Address, t: int) returns (s': Ctrl)
    requires Pair(cfg, home, other) && Fed(cfg, s, home) && s.clk <= t && Precharged(cfg, s.ch, home, other, s.clk, t)
    ensures Fed(cfg, s', home) && s'.clk == t && Precharged(cfg, s'.ch, home, other, t, t) && s'.log == s.log
    decreases t - s.clk
  {
    hide Pair, Single, Unserved, Held, Update, Ready, Shaped, QueueIndex, Set, Beat;
    s' := s;
    if s.clk < t {
      s' := CrowdTick(cfg, s, home, other, t);
      assert HomeOffer(cfg, s, home, false) == Wait;
      hide Offer;
      ShutFrame(cfg, s.ch, s'.ch, home, other, s.clk, t);
      s' := Settles(cfg, s', home, other, t);
    }
  }

  /** The bank is activated on the beat. */
  lemma Activates(cfg: Config, s: Ctrl, home: Address, other: Address, t: int) returns (s': Ctrl)
    requires Pair(cfg, home, other) && Fed(cfg, s, home) && s.clk == t
    requires Paced(cfg, s.ch, home, other, t) && s.ch.banks[BankOf(home)].state == Closed
    requires OnBeat(Activations(s.log, 0), Beat(cfg), t)
    ensures Fed(cfg, s', home) && s'.clk == t + 1
    ensures Reading(cfg, s'.ch, home, other, t) && OnBeat(Activations(s'.log, 0), Beat(cfg), t + Beat(cfg))
  {
    hide Pair, Reaches, AtHome, Spare, Unserved, Held, Update, Ready, Shaped, QueueIndex, OnBeat, Activations,
         ActivationWindowOk, Reading, AccessType, Beat, Gap, Reach;
    PairBanks(cfg, home, other);
    PacedFrame(cfg, s.ch, s.ch, home, other, t);
    WindowsPass(cfg, s, home, other, t);
    s' := CrowdTick(cfg, s, home, other, t);
    var act := Command(Activate, home, s.cq.queues[QueueIndex(cfg, home)][0].hexAddr);
    assert HomeOffer(cfg, s, home, false) == Issue(act);
    hide Offer, Paced, Single;
    var ch := AdvancedFrom(cfg, s, s', act);
    PacedFrame(cfg, s.ch, ch, home, other, t);
    PacedToReading(cfg, ch, act, home, other, t, s'.ch);
    ActivationsMore(s.log, Issued(t, act), 0);
    BeatGoesOn(Activations(s.log, 0), Beat(cfg), t);
  }

  lemma ReadingFrame(cfg: Config, ch: Channel, ch': Channel, home: Address, other: Address, t: int)
    requires Reading(cfg, ch, home, other, t) && ch'.banks == ch.banks
    ensures Reading(cfg, ch', home, other, t) && Held(cfg, ch', t + Beat(cfg))
    ensures BankOf(home) in ch'.banks && ch'.banks[BankOf(home)].state == Open
    ensures ch'.banks[BankOf(home)].openRow == home.row
    ensures ch'.banks[BankOf(home)].timing[AccessType(cfg, false)] <= t + Reach(cfg)
  {
    hide ValidConfig, SetBank;
  }

  lemma SwitchHome(cfg: Config, s: Ctrl, home: Address, other: Address)
    requires Crowded(cfg, s, home) && QueueEmpty(s.cq) && ValidBank(cfg, BankOf(other))
    ensures Crowded(cfg, s, other)
  {
    hide Reaches, AtHome, Spare, QueueIndex, Unserved, Empty;
    EmptyNow(cfg, s, home);
    EmptySingle(cfg, s, other);
  }

  /** After the read of `home` at cycle `r` the other bank is next. */
  lemma NextTurn(cfg: Config, s: Ctrl, home: Address, other: Address, t: int)
    requires Pair(cfg, home, other) && Crowded(cfg, s, home) && QueueEmpty(s.cq) && s.clk <= t + Reach(cfg) + 1
    requires Paced(cfg, s.ch, other, Flip(cfg, home), t + Beat(cfg))
    requires OnBeat(Activations(s.log, 0), Beat(cfg), t + Beat(cfg))
    ensures Lull(cfg, s, other, Flip(cfg, home), t + Beat(cfg))
  {
    PairPace(cfg, home, other);
    EarlyEnough(cfg, s.ch, other, t);
    hide Pair, Crowded, Held, OnBeat, Activations, Paced, Flip, QueueAt, Reach, Beat;
    PairBanks(cfg, home, other);
    PairTurns(cfg, home, other);
    SwitchHome(cfg, s, home, other);
  }

  lemma EarlyEnough(cfg: Config, ch: Channel, home: Address, t: int)
    requires RowInTwoBeats(cfg) && Set(cfg, ch, home, t + Beat(cfg)) && 1 <= Gap(cfg)
    ensures t + Reach(cfg) + 1 < QueueAt(cfg, ch, home, t + Beat(cfg))
  {
    hide Reach, Gap, ReadpToAct, ReadToPrecharge, CcdL;
  }

  /** The read goes out in time; the other bank is next. */
  lemma {:induction false} Reads(cfg: Config, s: Ctrl, home: Address, other: Address, t: int) returns (s': Ctrl)
    requires Pair(cfg, home, other) && Fed(cfg, s, home) && t < s.clk <= t + Reach(cfg)
    requires Reading(cfg, s.ch, home, other, t) && OnBeat(Activations(s.log, 0), Beat(cfg), t + Beat(cfg))
    ensures Lull(cfg, s', other, Flip(cfg, home), t + Beat(cfg)) && s'.clk > s.clk
    decreases t + Reach(cfg) - s.clk
  {
    hide Pair, Reaches, AtHome, Spare, Unserved, Held, Update, Ready, Shaped, QueueIndex, OnBeat, Activations, Reading,
         Paced, ValidConfig, AccessType, Reach, Beat, Lull, Flip;
    PairPace(cfg, home, other);
    ReadingFrame(cfg, s.ch, s.ch, home, other, t);
    var c;
    s', c := ReadTick(cfg, s, home, other, t);
    hide Single;
    if s.clk < s.ch.banks[BankOf(home)].timing[AccessType(cfg, false)] {
      ReadingFrame(cfg, s.ch, s'.ch, home, other, t);
      s' := Reads(cfg, s', home, other, t);
    } else {
      ReadDone(cfg, s, s', c, home, other, t);
    }
  }

  lemma ReadTick(cfg: Config, s: Ctrl, home: Address, other: Address, t: int) returns (s': Ctrl, c: Command)
    requires Pair(cfg, home, other) && Fed(cfg, s, home) && s.clk <= t + Beat(cfg) && Reading(cfg, s.ch, home, other, t)
    ensures Shaped(cfg, s.ch) && Crowded(cfg, s', home) && c.ty == AccessType(cfg, false) && c.addr == home
    ensures BankOf(home) in s.ch.banks
    ensures var r := if s.clk >= s.ch.banks[BankOf(home)].timing[AccessType(cfg, false)] then Issue(c) else Wait;
      Advanced(cfg, s, s', r)
  {
    hide Pair, Reaches, AtHome, Spare, Unserved, Held, Shaped, QueueIndex, Reading, AccessType, Reach, Beat, Advanced;
    ReadingFrame(cfg, s.ch, s.ch, home, other, t);
    WaitingRead(cfg, s, home);
    c := s.cq.queues[QueueIndex(cfg, home)][0];
    s' := CrowdTick(cfg, s, home, other, t + Beat(cfg));
  }

  lemma ReadDone(cfg: Config, s: Ctrl, s': Ctrl, c: Command, home: Address, other: Address, t: int)
    requires Pair(cfg, home, other) && Crowded(cfg, s', home) && t < s.clk <= t + Reach(cfg)
    requires Reading(cfg, s.ch, home, other, t) && OnBeat(Activations(s.log, 0), Beat(cfg), t + Beat(cfg))
    requires c.ty == AccessType(cfg, false) && c.addr == home && Shaped(cfg, s.ch) && Advanced(cfg, s, s', Issue(c))
    ensures Lull(cfg, s', other, Flip(cfg, home), t + Beat(cfg)) && s'.clk > s.clk
  {
    hide Pair, Crowded, Held, Update, Ready, Shaped, OnBeat, Activations, Reading, Paced, AccessType, Reach, Beat, Lull,
         Flip, QueueEmpty, Answers;
    ReadKind(cfg);
    var ch := AdvancedFrom(cfg, s, s', c);
    ReadingFrame(cfg, s.ch, ch, home, other, t);
    ReadingToPaced(cfg, ch, c, home, other, t, s.clk, s'.ch);
    ActivationsMore(s.log, Issued(s.clk, c), 0);
    assert Activations(s'.log, 0) == Activations(s.log, 0);
    NextTurn(cfg, s', home, other, t);
  }

  /** One turn: a bank is activated a beat after the other, and read. */
  lemma Turn(cfg: Config, s: Ctrl, home: Address, other: Address, t: int) returns (s': Ctrl)
    requires Lull(cfg, s, home, other, t)
    ensures Lull(cfg, s', other, Flip(cfg, home), t + Beat(cfg)) && s'.clk > t
  {
    hide Pair, Crowded, Held, OnBeat, Activations, Reading, ValidConfig, SetBank, QueueEmpty, Reach, Beat, Gap, Flip;
    PairPace(cfg, home, other);
    s' := Rest(cfg, s, home, other, t);
    var ch := s'.ch;
    s' := Supply(cfg, s', home, other, t);
    PacedFrame(cfg, ch, s'.ch, home, other, t);
    if s'.ch.banks[BankOf(home)].state == Open {
      s' := Closes(cfg, s', home, other, t);
      s' := Settles(cfg, s', home, other, t);
    } else {
      ClosedThen(cfg, s'.ch, home, t);
    }
    hide Lull, QueueAt;
    s' := Activates(cfg, s', home, other, t);
    s' := Reads(cfg, s', home, other, t);
  }

  lemma ClosedThen(cfg: Config, ch: Channel, home: Address, t: int)
    requires Set(cfg, ch, home, t) && ch.banks[BankOf(home)].state != Open
    ensures ch.banks[BankOf(home)].state == Closed
  {
  }

  lemma FreshPaced(cfg: Config, home: Address, other: Address)
    requires Pair(cfg, home, other)
    ensures Paced(cfg, InitialChannel(cfg), home, other, 1) && 0 < QueueAt(cfg, InitialChannel(cfg), home, 1)
  {
    PairBanks(cfg, home, other);
    PairPace(cfg, home, other);
    SizedConfig(cfg);
    FreshChannel(cfg, ORIGIN);
    assert 2 <= RefreshInterval(cfg);
    hide AddressMap.ValidMapping, Pair, InitialChannel, Reach, Gap, Beat, AccessType, RowInTwoBeats;
  }

  lemma FirstLull(cfg: Config, home: Address, other: Address)
    requires Pair(cfg, home, other)
    ensures Lull(cfg, Initial(cfg), home, other, 1)
  {
    hide Pair, Inv, Paced, ValidConfig, InitialChannel, QueueIndex, QueueAt, Single;
    PairBanks(cfg, home, other);
    var s := Initial(cfg);
    FreshPaced(cfg, home, other);
    ReachInitial(cfg);
    EmptySingle(cfg, s, home);
  }

  lemma {:induction false} Turns(cfg: Config, a: Address, b: Address, n: nat)
    returns (s: Ctrl, home: Address, other: Address, t: int)
    requires Pair(cfg, a, b)
    ensures Lull(cfg, s, home, other, t) && t > n && s.clk >= n
    decreases n
  {
    hide Lull, Pair, Beat;
    if n == 0 {
      PairBanks(cfg, a, b);
      s, home, other, t := Initial(cfg), a, b, 1;
      FirstLull(cfg, a, b);
    } else {
      s, home, other, t := Turns(cfg, a, b, n - 1);
      LullPair(cfg, s, home, other, t);
      PairPace(cfg, home, other);
      s := Turn(cfg, s, home, other, t);
      home, other, t := other, Flip(cfg, home), t + Beat(cfg);
    }
  }

  lemma LullPair(cfg: Config, s: Ctrl, home: Address, other: Address, t: int)
    requires Lull(cfg, s, home, other, t)
    ensures Pair(cfg, home, other)
  {
  }

  /** Nothing that was inserted has been served. */
  ghost predicate AllWait(cfg: Config, s: Ctrl)
    requires ValidConfig(cfg)
  {
    Refreshes(s.log) == [] && s.ch.refreshQ == Targets(cfg, Insertions(cfg, s.clk))
  }

  /** Two busy banks keep the refresh in front from being issued for as long as one likes: for every
      `n` there is a run of at least `n` cycles in which no refresh is ever issued, and all those
      inserted wait. */
  lemma Starves(cfg: Config, a: Address, b: Address, n: nat) returns (ops: seq<Op>)
    requires CanAlternate(cfg, a, b) && cfg.refreshPolicy == BankLevelStaggered && !cfg.perRankQueues
    ensures Run(cfg, ops).Some? && Run(cfg, ops).value.clk >= n && AllWait(cfg, Run(cfg, ops).value)
  {
    RowZero(cfg, a, b);
    hide CanAlternate;
    var s, home, other, t := Turns(cfg, a.(row := 0), b.(row := 0), n);
    hide Core, Past, Pair, AtHome, Spare, ValidConfig, Targets, Insertions, Refreshes, Run, Paced, OnBeat, Counters,
         QueueAt;
    ops :| Run(cfg, ops) == Some(s);
  }

  lemma RowZero(cfg: Config, a: Address, b: Address)
    requires CanAlternate(cfg, a, b) && cfg.refreshPolicy == BankLevelStaggered && !cfg.perRankQueues
    ensures Pair(cfg, a.(row := 0), b.(row := 0))
  {
    ZeroFits(cfg, a);
    ZeroFits(cfg, b);
    hide RowInTwoBeats, ValidConfig, AddressMap.Fits;
  }

  lemma ZeroFits(cfg: Config, a: Address)
    requires ValidConfig(cfg) && AddressMap.Fits(cfg, a)
    ensures AddressMap.Fits(cfg, a.(row := 0))
  {
    forall f: Field ensures 0 <= AddressMap.Coordinate(a.(row := 0), f) < AddressMap.Pow2(AddressMap.Width(cfg, f)) {
      assert 0 <= AddressMap.Coordinate(a, f) < AddressMap.Pow2(AddressMap.Width(cfg, f));
    }
  }

  /** So any number of refreshes can wait at once. */
  lemma Piles(cfg: Config, a: Address, b: Address, n: nat) returns (ops: seq<Op>)
    requires CanAlternate(cfg, a, b) && cfg.refreshPolicy == BankLevelStaggered && !cfg.perRankQueues
    ensures Run(cfg, ops).Some? && Refreshes(Run(cfg, ops).value.log) == [] && |Run(cfg, ops).value.ch.refreshQ| >= n
  {
    var interval := RefreshInterval(cfg);
    Arith.MulMono(0, n, interval);
    ops := Starves(cfg, a, b, n * interval + 1);
    var clk := Run(cfg, ops).value.clk;
    hide Run, ValidConfig, CanAlternate;
    Arith.DivAdd(n, clk - 1 - n * interval, interval);
    Arith.QuotNonNeg(clk - 1 - n * interval, interval);
  }

  // ---------------------------------------------------------------- the exact condition

  /** A run without a refresh that is long enough breaks a bound on the wait in front. */
  lemma LongWait(cfg: Config, ops: seq<Op>, n: int)
    requires ValidConfig(cfg) && Run(cfg, ops).Some? && Refreshes(Run(cfg, ops).value.log) == []
    requires Run(cfg, ops).value.clk >= RefreshInterval(cfg) + Max(n, 0)
    ensures !Prompt(cfg, n)
  {
    hide ValidConfig, Run, Refreshes, Prompt, RefreshInterval, Inv;
    SizedNow(cfg);
    IntervalPos(cfg);
    var m := PartAt(cfg, ops, RefreshInterval(cfg));
    RunExec(cfg, ops, m);
    CountNow(cfg, ops[..m]);
    var s := Run(cfg, ops[..m]).value;
    RefreshesGrow(s.log, Run(cfg, ops).value.log);
    NoneYet(cfg, s.clk);
    assert s.ch.refreshQ == [];
    if Prompt(cfg, n) {
      IssuedInRest(cfg, n, ops, m, 0);
      assert false;
    }
  }

  lemma NoBound(cfg: Config, a: Address, b: Address, n: int)
    requires CanAlternate(cfg, a, b) && cfg.refreshPolicy == BankLevelStaggered && !cfg.perRankQueues
    ensures !Prompt(cfg, n)
  {
    var t := RefreshInterval(cfg);
    assert ValidConfig(cfg) && 0 < t;
    hide CanAlternate, ValidConfig, Run, Refreshes, Prompt, RefreshInterval;
    var ops := Starves(cfg, a, b, t + Max(n, 0));
    LongWait(cfg, ops, n);
  }

  lemma NoneYet(cfg: Config, clk: nat)
    requires ValidConfig(cfg) && clk == RefreshInterval(cfg)
    ensures Insertions(cfg, clk) == 0
  {
    Arith.Small(clk - 1, clk);
  }

  /** Where two banks can take turns, there is a bound on the wait in front that holds for every refresh
      in every run if and only if refreshes are by rank or there is one queue per rank. */
  lemma PromptIff(cfg: Config, k: nat, a: Address, b: Address)
    requires CanAlternate(cfg, a, b) && DelaysWithin(cfg, k)
    ensures (exists n :: Prompt(cfg, n)) <==> cfg.refreshPolicy == RankLevelStaggered || cfg.perRankQueues
  {
    assert ValidConfig(cfg);
    hide CanAlternate, DelaysWithin, Prompt, ServiceTime, ValidConfig;
    if cfg.refreshPolicy == RankLevelStaggered || cfg.perRankQueues {
      PromptHolds(cfg, k);
    } else {
      forall n ensures !Prompt(cfg, n) { NoBound(cfg, a, b, n); }
    }
  }

  /** The memory of the runtime with BANK_LEVEL_STAGGERED, pages open or closed, has two such banks. */
  lemma RuntimeAlternates(closed: bool) returns (a: Address, b: Address)
    ensures CanAlternate(RefreshGaps.DDR4_3200.(closePage := closed, refreshPolicy := BankLevelStaggered), a, b)
  {
    var cfg := RefreshGaps.DDR4_3200.(closePage := closed, refreshPolicy := BankLevelStaggered);
    RefreshGaps.RuntimeValid(closed, BankLevelStaggered);
    hide ValidConfig;
    a, b := Address(0, 0, 0, 1, 0, 0), Address(0, 0, 0, 2, 0, 0);
    BankFits(cfg, 1);
    BankFits(cfg, 2);
  }

  lemma BankFits(cfg: Config, bank: int)
    requires ValidConfig(cfg) && 0 <= bank < 4 <= cfg.banksPerGroup
    ensures AddressMap.Fits(cfg, Address(0, 0, 0, bank, 0, 0))
  {
    var a := Address(0, 0, 0, bank, 0, 0);
    AddressMap.Log2Bounds(cfg.banksPerGroup);
    FourBanks(AddressMap.Log2(cfg.banksPerGroup), cfg.banksPerGroup);
    forall f: Field ensures 0 <= AddressMap.Coordinate(a, f) < AddressMap.Pow2(AddressMap.Width(cfg, f)) {
      assert f != Ba ==> AddressMap.Coordinate(a, f) == 0;
    }
  }

  lemma FourBanks(w: nat, n: int)
    requires 4 <= n < 2 * AddressMap.Pow2(w)
    ensures 4 <= AddressMap.Pow2(w)
  {
    if w >= 2 { assert AddressMap.Pow2(w) == 4 * AddressMap.Pow2(w - 2); }
  }

  /** So any number of refreshes can come to wait in it. */
  lemma RuntimePiles(closed: bool, n: nat) returns (ops: seq<Op>)
    ensures var cfg := RefreshGaps.DDR4_3200.(closePage := closed, refreshPolicy := BankLevelStaggered);
      && ValidConfig(cfg) && Run(cfg, ops).Some?
      && Refreshes(Run(cfg, ops).value.log) == [] && |Run(cfg, ops).value.ch.refreshQ| >= n
  {
    RefreshGaps.RuntimeValid(closed, BankLevelStaggered);
    var a, b := RuntimeAlternates(closed);
    hide Run, ValidConfig, CanAlternate;
    ops := Piles(RefreshGaps.DDR4_3200.(closePage := closed, refreshPolicy := BankLevelStaggered), a, b, n);
  }
}
