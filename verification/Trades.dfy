/** Matches: each keeps the equalities, and fails on the ledger only through the taker fee. */
module Trades {
  import opened FixedPoint
  import opened Ledger
  import opened Operations

  lemma InvFits(st: State)
    requires Inv(st)
    ensures Fit(st) && OrdersOk(st) && PositionsOk(st) && MarketsOk(st) && st.treasury >= 0 && st.vault < U64
  {
  }

  lemma MatchLevel(st: State, kl: Key, ks: Key, pk: Key, p: Position, fee: nat, u: nat)
    requires Inv(st) && kl != ks && kl.0 == ks.0 && kl in st.orders && ks in st.orders && pk !in st.positions
    requires OrderOk(st, kl, st.orders[kl]) && OrderOk(st, ks, st.orders[ks]) && u in st.accounts
    requires p.status == LIVE && p.longOwner == st.orders[kl].owner && p.shortOwner == st.orders[ks].owner
    requires p.collateral == st.markets[kl.0].bucket
    ensures var st' := Matched(st, kl, ks, pk, p, fee);
      && u in st'.accounts && ReservedGap(st', u) == 0 && LockedGap(st', u) == 0 && VaultGap(st') == 0
      && st'.accounts[u].free == st.accounts[u].free + Gain(st, kl, ks, fee, u)
  {
    var d, e := LongDelta(st, kl, ks, fee), ShortDelta(st, kl, ks, fee);
    assert Level(st, u) && VaultGap(st) == 0;
    hide Inv, Level, OrdersOk, PositionsOk, MarketsOk, ReservedGap, LockedGap, VaultGap, Consumed2, Exchanged, OrderOk,
      ReleaseOfOne;
    ExchangeLevel(st, kl, ks, d, e, pk, p, fee, u);
  }

  /** What a match adds to u's free balance. */
  function Gain(st: State, kl: Key, ks: Key, fee: nat, u: nat): int
    requires kl in st.orders && ks in st.orders && OrderOk(st, kl, st.orders[kl]) && OrderOk(st, ks, st.orders[ks])
  {
    var (d, e) := (LongDelta(st, kl, ks, fee), ShortDelta(st, kl, ks, fee));
    For(d, u, d.free) + For(e, u, e.free)
  }

  /** A fee within the taker's purse leaves nobody's free balance below zero. */
  lemma GainsCovered(st: State, kl: Key, ks: Key, fee: nat, u: nat)
    requires Inv(st) && kl.0 == ks.0 && kl in st.orders && ks in st.orders && u in st.accounts
    requires OrderOk(st, kl, st.orders[kl]) && OrderOk(st, ks, st.orders[ks]) && fee <= Purse(st, kl, ks)
    ensures st.accounts[u].free + Gain(st, kl, ks, fee, u) >= 0
  {
    assert Level(st, u);
  }

  lemma MatchFrame(st: State, kl: Key, ks: Key, pk: Key, p: Position, fee: nat)
    requires kl != ks && kl.0 == ks.0 && kl in st.orders && ks in st.orders
    requires OrderOk(st, kl, st.orders[kl]) && OrderOk(st, ks, st.orders[ks])
    ensures var st' := Matched(st, kl, ks, pk, p, fee);
      && st'.accounts.Keys == st.accounts.Keys && st'.vault == st.vault && st'.treasury == st.treasury + fee
      && (OrdersOk(st) ==> OrdersOk(st')) && (MarketsOk(st) ==> MarketsOk(st'))
      && st'.nextIds == st.nextIds && st'.nonces == st.nonces
      && st'.markets == st.markets && st'.positions == st.positions[pk := p] && st'.swept == st.swept
  {
    var d, e := LongDelta(st, kl, ks, fee), ShortDelta(st, kl, ks, fee);
    assert d.owner in st.accounts && e.owner in st.accounts;
    Consumed2Gaps(st, kl, ks, d.owner);
    hide ReservedGap, LockedGap, VaultGap, Consumed2, Level, ReleaseOfOne;
    ExchangedFrame(Consumed2(st, kl, ks), d, e, pk, p, fee);
  }

  lemma MatchPositionsOk(st: State, st': State, pk: Key, p: Position, m: nat)
    requires PositionsOk(st) && m in st.nextIds && PositionOk(Numbered(st, m), pk, p)
    requires st'.accounts.Keys == st.accounts.Keys && st'.positions == st.positions[pk := p]
    requires st'.nextIds == Numbered(st, m).nextIds && st'.markets == st.markets
    ensures PositionsOk(st')
  {
  }

  lemma {:induction false} ContractSized(market: Market, entry: nat)
    requires SizeOf(market, entry).Ok?
    ensures SizeOf(market, entry).value < U128
  {
    var notional := NotionalAtoms(market.bucket, market.leverageBps).value;
    QuotientAtMost(notional * PRICE_ONE, entry);
  }

  lemma NewKey(st: State, m: nat)
    requires PositionsOk(st) && m in st.nextIds
    ensures (m, st.nextIds[m]) !in st.positions
  {
    assert forall k :: k in st.positions ==> PositionOk(st, k, st.positions[k]);
  }

  lemma MatchLevels(st: State, kl: Key, ks: Key, pk: Key, p: Position, fee: nat)
    requires Inv(st) && kl != ks && kl.0 == ks.0 && kl in st.orders && ks in st.orders && pk !in st.positions
    requires OrderOk(st, kl, st.orders[kl]) && OrderOk(st, ks, st.orders[ks]) && fee <= Purse(st, kl, ks)
    requires p.status == LIVE && p.longOwner == st.orders[kl].owner && p.shortOwner == st.orders[ks].owner
    requires p.collateral == st.markets[kl.0].bucket
    ensures var st' := Matched(st, kl, ks, pk, p, fee);
      && (forall u ::
        u in st.accounts ==>
          u in st'.accounts && ReservedGap(st', u) == 0 && LockedGap(st', u) == 0 && st'.accounts[u].free >= 0)
      && VaultGap(st') == 0
  {
    var st' := Matched(st, kl, ks, pk, p, fee);
    hide *;
    forall u | u in st.accounts
      ensures u in st'.accounts && ReservedGap(st', u) == 0 && LockedGap(st', u) == 0 && VaultGap(st') == 0
      ensures st'.accounts[u].free >= 0
    {
      MatchLevel(st, kl, ks, pk, p, fee, u);
      GainsCovered(st, kl, ks, fee, u);
    }
    MatchLevel(st, kl, ks, pk, p, fee, p.longOwner);
  }

  /** The position a match opens is a fresh one, of one bucket a side, owned by the two posters. */
  lemma MatchOpens(st: State, kl: Key, ks: Key, fee: nat, now: nat) returns (pk: Key, p: Position)
    requires PositionsOk(st) && CanMatch(st, kl, ks, fee, now)
    ensures MatchedPair(st, kl, ks, fee, now) == Numbered(Matched(st, kl, ks, pk, p, fee), kl.0)
    ensures pk == (kl.0, st.nextIds[kl.0]) && pk !in st.positions && PositionOk(Numbered(st, kl.0), pk, p)
    ensures p.status == LIVE && p.longOwner == st.orders[kl].owner && p.shortOwner == st.orders[ks].owner
    ensures p.collateral == st.markets[kl.0].bucket && fee <= Purse(st, kl, ks)
  {
    var entry := PriceMidpoint(st.orders[kl].data.price, st.orders[ks].data.price);
    hide PositionsOk, SizeOf, Matched, Purse;
    pk, p := (kl.0, st.nextIds[kl.0]), Contract(st, kl, ks, SizeOf(st.markets[kl.0], entry).value);
    NewKey(st, kl.0);
    ContractSized(st.markets[kl.0], entry);
    assert kl != ks;
    MatchFrame(st, kl, ks, pk, p, fee);
  }

  lemma MatchKeepsInv(st: State, kl: Key, ks: Key, fee: nat, now: nat)
    requires Inv(st) && CanMatch(st, kl, ks, fee, now)
    ensures Inv(MatchedPair(st, kl, ks, fee, now))
  {
    hide Matched, Inv, Fit, OrderOk, PositionOk, PositionsOk, OrdersOk, MarketsOk, ReservedGap, LockedGap, VaultGap,
      Purse, MatchedPair, SizeOf, PriceMidpoint, Level;
    InvFits(st);
    var pk, p := MatchOpens(st, kl, ks, fee, now);
    MatchFrame(st, kl, ks, pk, p, fee);
    MatchLevels(st, kl, ks, pk, p, fee);
    var raw := Matched(st, kl, ks, pk, p, fee);
    var st' := Numbered(raw, kl.0);
    MatchPositionsOk(st, st', pk, p, kl.0);
    CountersAside(raw, st'.nextIds);
  }

  lemma CountersAside(st: State, nextIds: map<nat, nat>)
    requires forall u ::
      u in st.accounts ==> ReservedGap(st, u) == 0 && LockedGap(st, u) == 0 && st.accounts[u].free >= 0
    requires VaultGap(st) == 0 && OrdersOk(st) && MarketsOk(st) && st.treasury >= 0 && st.vault < U64
    requires PositionsOk(st.(nextIds := nextIds)) && nextIds.Keys == st.nextIds.Keys
    ensures Inv(st.(nextIds := nextIds))
  {
    forall u | u in st.accounts
      ensures Level(st.(nextIds := nextIds), u)
    {
      assert ReservedGap(st, u) == 0 && LockedGap(st, u) == 0;
    }
  }

  // ----- a match tried as part of a post ---------------------------------------------------------------------

  /** How a match of a crossing pair ends: what the source checks once it has taken the two contracts off
      the book, in its order. `served` says that the accounts given are those of the pair and that both
      volume counters can take the trade. */
  datatype Ending = NoId | Unserved | FeeUnpaid | Unsized | Done

  function EndingOf(st: State, kl: Key, ks: Key, fee: nat, served: bool): Ending
    requires kl in st.orders && ks in st.orders && OrderOk(st, kl, st.orders[kl]) && OrderOk(st, ks, st.orders[ks])
  {
    if !HasId(st, kl.0) then NoId
    else if !served then Unserved
    else if fee > Purse(st, kl, ks) then FeeUnpaid
    else
      var entry := PriceMidpoint(st.orders[kl].data.price, st.orders[ks].data.price);
      if SizeOf(st.markets[kl.0], entry).Err? then Unsized
    else Done
  }

  /** The two contracts are off the book and the id is used. */
  function Gone(st: State, kl: Key, ks: Key): State
    requires kl != ks && kl in st.orders && ks in st.orders && kl.0 in st.nextIds
    requires OrderOk(st, kl, st.orders[kl]) && OrderOk(st, ks, st.orders[ks])
  {
    Numbered(Consumed2(st, kl, ks), kl.0)
  }

  /** Exchange of an order's contract for a stake, with the fee buffer freed and no fee paid. */
  function Staked(st: State, k: Key): Delta
    requires k in st.orders && OrderOk(st, k, st.orders[k])
  {
    Delta(st.orders[k].owner, ReleaseOfOne(st.orders[k].data), 0 - Portion(st, k), st.markets[k.0].bucket)
  }

  /** The fee is accrued, if the treasury can take it, and the accounts served before the failing debit
      have moved. */
  function Unpaid(st: State, kl: Key, ks: Key, fee: nat): State
    requires kl != ks && kl in st.orders && ks in st.orders && kl.0 in st.nextIds
    requires OrderOk(st, kl, st.orders[kl]) && OrderOk(st, ks, st.orders[ks])
  {
    var gone := Gone(st, kl, ks);
    if st.treasury + fee >= U64 then gone else
      var moved := Adjust(gone, Staked(st, kl));
      var st' := if TakerIsLong(st, kl, ks) then moved else Adjust(moved, Staked(st, ks));
      st'.(treasury := st'.treasury + fee)
  }

  /** Both sides have moved and the fee is paid, but no position is opened. */
  function Unopened(st: State, kl: Key, ks: Key, fee: nat): State
    requires kl != ks && kl in st.orders && ks in st.orders && kl.0 in st.nextIds
    requires OrderOk(st, kl, st.orders[kl]) && OrderOk(st, ks, st.orders[ks])
  {
    var moved := Adjust2(Gone(st, kl, ks), LongDelta(st, kl, ks, fee), ShortDelta(st, kl, ks, fee));
    moved.(treasury := moved.treasury + fee)
  }

  /** What a match leaves, whether it succeeds or its failure is swallowed. */
  function LeftAfter(st: State, kl: Key, ks: Key, fee: nat, served: bool, now: nat): State
    requires Crossing(st, kl, ks, now) && kl.0 in st.nextIds
  {
    assert kl != ks;
    match EndingOf(st, kl, ks, fee, served)
    case NoId => Consumed2(st, kl, ks)
    case Unserved => Gone(st, kl, ks)
    case FeeUnpaid => Unpaid(st, kl, ks, fee)
    case Unsized => Unopened(st, kl, ks, fee)
    case Done => MatchedPair(st, kl, ks, fee, now)
  }

  /** Contracts taken off the book leave their collateral reserved for nothing. */
  lemma GoneBreaks(st: State, kl: Key, ks: Key)
    requires Inv(st) && kl != ks && kl in st.orders && ks in st.orders && kl.0 in st.nextIds
    ensures OrderOk(st, kl, st.orders[kl]) && OrderOk(st, ks, st.orders[ks])
    ensures !Inv(Consumed2(st, kl, ks)) && !Inv(Gone(st, kl, ks))
  {
    assert OrderOk(st, kl, st.orders[kl]) && OrderOk(st, ks, st.orders[ks]);
    var t := st.orders[kl].owner;
    assert Level(st, t) && Portion(st, kl) > 0 && Portion(st, ks) > 0;
    Consumed2Gaps(st, kl, ks, t);
    hide Fit, VaultGap, LockedGap, Consumed2, Portion, OrderOk;
    assert ReservedGap(Gone(st, kl, ks), t) == ReservedGap(Consumed2(st, kl, ks), t) > 0;
    assert !Level(Consumed2(st, kl, ks), t) && !Level(Gone(st, kl, ks), t);
  }

  lemma UnpaidGap(st: State, kl: Key, ks: Key, fee: nat)
    requires kl != ks && kl in st.orders && ks in st.orders && kl.0 in st.nextIds && st.treasury + fee < U64
    requires OrderOk(st, kl, st.orders[kl]) && OrderOk(st, ks, st.orders[ks])
    ensures VaultGap(Unpaid(st, kl, ks, fee)) == VaultGap(st) - fee
  {
    var gone := Gone(st, kl, ks);
    assert st.orders[kl].owner in st.accounts && st.orders[ks].owner in st.accounts;
    assert VaultGap(gone) == VaultGap(Consumed2(st, kl, ks));
    hide OrderOk, Consumed2, ReservedGap, LockedGap, ReleaseOfOne;
    Consumed2Gaps(st, kl, ks, st.orders[kl].owner);
    AdjustGaps(gone, Staked(st, kl), st.orders[kl].owner);
    AdjustGaps(Adjust(gone, Staked(st, kl)), Staked(st, ks), st.orders[kl].owner);
  }

  /** A fee accrued and not paid is not in the vault. */
  lemma UnpaidBreaks(st: State, kl: Key, ks: Key, fee: nat)
    requires Inv(st) && kl != ks && kl in st.orders && ks in st.orders && kl.0 in st.nextIds
    requires OrderOk(st, kl, st.orders[kl]) && OrderOk(st, ks, st.orders[ks]) && fee > Purse(st, kl, ks)
    ensures !Inv(Unpaid(st, kl, ks, fee))
  {
    PurseNonNegative(st, kl, ks);
    hide AllLevel, Fit, Purse, VaultGap;
    if st.treasury + fee < U64 {
      UnpaidGap(st, kl, ks, fee);
    } else {
      GoneBreaks(st, kl, ks);
    }
  }

  /** Collateral locked for a position that was not opened. */
  lemma UnopenedBreaks(st: State, kl: Key, ks: Key, fee: nat)
    requires Inv(st) && kl != ks && kl.0 == ks.0 && kl in st.orders && ks in st.orders && kl.0 in st.nextIds
    requires OrderOk(st, kl, st.orders[kl]) && OrderOk(st, ks, st.orders[ks])
    ensures !Inv(Unopened(st, kl, ks, fee))
  {
    var (t, gone) := (st.orders[kl].owner, Gone(st, kl, ks));
    assert Level(st, t) && st.markets[kl.0].bucket > 0;
    assert LockedGap(gone, t) == LockedGap(Consumed2(st, kl, ks), t);
    var (d, e) := (LongDelta(st, kl, ks, fee), ShortDelta(st, kl, ks, fee));
    hide Fit, VaultGap, ReservedGap, Consumed2, ReleaseOfOne, Gone, Portion;
    Consumed2Gaps(st, kl, ks, t);
    GoneFrame(st, kl, ks);
    Adjust2Gaps(gone, d, e, t);
    hide OrderOk;
    assert LockedGap(Unopened(st, kl, ks, fee), t) == LockedGap(Adjust2(gone, d, e), t) > 0;
    assert !Level(Unopened(st, kl, ks, fee), t);
  }

  lemma GoneFrame(st: State, kl: Key, ks: Key)
    requires kl != ks && kl in st.orders && ks in st.orders && kl.0 in st.nextIds
    requires OrderOk(st, kl, st.orders[kl]) && OrderOk(st, ks, st.orders[ks])
    ensures var gone := Gone(st, kl, ks); gone == st.(orders := gone.orders, nextIds := gone.nextIds)
  {
  }

  /** A post's own match is not rolled back when it fails, and it fails only after its book part: what it
      leaves meets the equalities exactly when it could go through, that is, when an id is left, the
      accounts and volume counters serve, the taker can pay the fee, and the position can be sized. */
  lemma InlineMatchKeepsInvIff(st: State, kl: Key, ks: Key, fee: nat, served: bool, now: nat)
    requires Inv(st) && Crossing(st, kl, ks, now)
    ensures kl.0 in st.nextIds
    ensures Inv(LeftAfter(st, kl, ks, fee, served, now)) <==>
      && HasId(st, kl.0) && served && fee <= Purse(st, kl, ks)
      && SizeOf(st.markets[kl.0], PriceMidpoint(st.orders[kl].data.price, st.orders[ks].data.price)).Ok?
  {
    InvFits(st);
    assert kl.0 in st.nextIds && kl != ks;
    hide Inv, Purse, Consumed2, Gone, Unpaid, Unopened, MatchedPair, SizeOf, PriceMidpoint;
    match EndingOf(st, kl, ks, fee, served)
    case NoId => GoneBreaks(st, kl, ks);
    case Unserved => GoneBreaks(st, kl, ks);
    case FeeUnpaid => UnpaidBreaks(st, kl, ks, fee);
    case Unsized => UnopenedBreaks(st, kl, ks, fee);
    case Done => MatchKeepsInv(st, kl, ks, fee, now);
  }

  lemma PurseNonNegative(st: State, kl: Key, ks: Key)
    requires Inv(st) && kl in st.orders && ks in st.orders
    requires OrderOk(st, kl, st.orders[kl]) && OrderOk(st, ks, st.orders[ks])
    ensures Purse(st, kl, ks) >= 0
  {
    assert Level(st, st.orders[kl].owner) && Level(st, st.orders[ks].owner);
  }
}
