/** The settlement and novation instructions on the exchange's own fields: each goes through exactly
    when the ledger says it can, and does to the fields what the ledger says. */
module Settling {
  import opened FixedPoint
  import opened Attestations
  import opened Ledger
  import opened Settlements
  import opened Handovers
  import opened Reentry
  import opened Margin
  import opened Exchange

  /** Two accounts changed and a position rewritten, on the fields. */
  lemma ExchangedFields(st: State, d: Delta, e: Delta, pk: Key, p: Position, fee: nat)
    requires d.owner in st.accounts && e.owner in st.accounts
    ensures Exchanged(st, d, e, pk, p, fee)
         == st.(accounts := Credited(Credited(st.accounts, d), e), positions := st.positions[pk := p],
                treasury := st.treasury + fee)
  {
  }

  /** Room in the two owners' accounts for the pot. */
  lemma PotRoom(st: State, pk: Key)
    requires Inv(st) && LiveAt(st, pk)
    ensures var (p, a) := (st.positions[pk], st.accounts);
      && Rich(a[p.longOwner], 0, p.collateral) && Rich(a[p.shortOwner], 0, p.collateral) && 2 * p.collateral < U64
      && (p.longOwner != p.shortOwner ==>
            a[p.longOwner].free + 2 * p.collateral < U64 && a[p.shortOwner].free + 2 * p.collateral < U64)
  {
    var p := st.positions[pk];
    PotFits(st, pk);
    RichAccount(st, p.longOwner);
    RichAccount(st, p.shortOwner);
    AccountsFit(st, p.longOwner, p.shortOwner);
    hide Inv;
  }

  lemma MarketOf(st: State, pk: Key)
    requires Inv(st) && pk in st.positions
    ensures pk.0 in st.markets && st.markets[pk.0].marketId in st.nonces && st.positions[pk].size < U128
    ensures st.positions[pk].status == LIVE ==> LiveAt(st, pk)
  {
    assert PositionOk(st, pk, st.positions[pk]);
  }

  /** The attestation guard; an accepted nonce is noted. */
  method AcceptAttestation(x: Exchange, m: nat, att: Attestation, now: nat) returns (ok: bool)
    requires m in x.markets && x.markets[m].marketId in x.nonces
    modifies x`nonces
    ensures ok <==>
      ValidateFreshnessAndNonce(att, x.markets[m].marketId, old(x.nonces)[x.markets[m].marketId], now,
                                x.markets[m].maxStaleness) == Accepted
    ensures x.nonces == if ok then old(x.nonces)[x.markets[m].marketId := att.nonce] else old(x.nonces)
  {
    var q := x.markets[m].marketId;
    ok := ValidateFreshnessAndNonce(att, q, x.nonces[q], now, x.markets[m].maxStaleness) == Accepted;
    if ok { x.nonces := x.nonces[q := att.nonce]; }
  }

  /** One owner's stake unlocked and its payment credited. */
  method Redeem(b: Balance, stake: nat, pay: nat) returns (ok: bool, b': Balance)
    requires Stored(b)
    ensures ok <==> stake <= b.locked && b.free + pay < U64
    ensures ok ==> b' == Balance(b.free + pay, b.reserved, b.locked - stake)
  {
    var account := new MarginAccount(b);
    ok := account.DebitLocked(stake);
    if ok { ok := account.CreditFree(pay); }
    b' := account.Data();
  }

  /** Debits both stakes and credits both payments, holding both accounts at once. */
  method PayBoth(x: Exchange, pk: Key, status: Status, payLong: nat, payShort: nat) returns (ok: bool)
    requires Inv(x.View()) && LiveAt(x.View(), pk) && status != LIVE
    requires payLong + payShort <= 2 * x.positions[pk].collateral
    modifies x`accounts, x`positions
    ensures ok <==> old(x.positions)[pk].longOwner != old(x.positions)[pk].shortOwner
    ensures ok ==> x.View() == Settled(old(x.View()), pk, status, payLong, payShort)
  {
    hide Inv, Settled;
    PotRoom(x.View(), pk);
    SettledFields(x.View(), pk, status, payLong, payShort);
    var p := x.positions[pk];
    if p.longOwner == p.shortOwner { return false; }
    var long, short;
    ok, long := Redeem(x.accounts[p.longOwner], p.collateral, payLong);
    assert ok;
    ok, short := Redeem(x.accounts[p.shortOwner], p.collateral, payShort);
    assert ok;
    x.accounts := x.accounts[p.longOwner := long][p.shortOwner := short];
    x.positions := x.positions[pk := p.(status := status)];
  }

  lemma SettledFields(st: State, pk: Key, status: Status, payLong: nat, payShort: nat)
    requires LiveAt(st, pk)
    ensures var p := st.positions[pk];
      Settled(st, pk, status, payLong, payShort) == st.(
        accounts := Credited(Credited(st.accounts, Delta(p.longOwner, payLong, 0, 0 - p.collateral)),
                             Delta(p.shortOwner, payShort, 0, 0 - p.collateral)),
        positions := st.positions[pk := p.(status := status)])
  {
    var p := st.positions[pk];
    ExchangedFields(st, Delta(p.longOwner, payLong, 0, 0 - p.collateral),
                    Delta(p.shortOwner, payShort, 0, 0 - p.collateral), pk, p.(status := status), 0);
    hide Exchanged;
  }

  /** What is known of a live position when its attestation has been accepted. */
  lemma Accepting(st: State, pk: Key, att: Attestation)
    requires Inv(st) && LiveAt(st, pk) && pk.0 in st.markets
    ensures Inv(Noted(st, pk, att)) && LiveAt(Noted(st, pk, att), pk)
  {
    NotedKeepsInv(st, pk, att);
  }

  /** Settling commutes with noting the nonce. */
  lemma NotedFirst(st: State, pk: Key, status: Status, payLong: nat, payShort: nat, att: Attestation)
    requires LiveAt(st, pk) && pk.0 in st.markets
    ensures Settled(st, pk, status, payLong, payShort).markets == st.markets
    ensures Settled(Noted(st, pk, att), pk, status, payLong, payShort)
         == Noted(Settled(st, pk, status, payLong, payShort), pk, att)
  {
    SettledFields(st, pk, status, payLong, payShort);
    SettledFields(Noted(st, pk, att), pk, status, payLong, payShort);
    hide Settled;
  }

  /** Resolve. */
  method ResolvePosition(x: Exchange, pk: Key, att: Attestation, now: nat) returns (ok: bool)
    requires Inv(x.View()) && pk.0 in x.markets
    modifies x`accounts, x`positions, x`nonces
    ensures ok <==> CanResolve(old(x.View()), pk, att, now)
    ensures ok ==> x.View() == Resolved(old(x.View()), pk, att, now)
  {
    hide Inv, Settled, ResolvedEquities, ValidateFreshnessAndNonce;
    ghost var was := x.View();
    MarketKnown(was, pk.0);
    if !att.Resolution? { return false; }
    ok := AcceptAttestation(x, pk.0, att, now);
    if !ok { return; }
    if pk !in x.positions { return false; }
    var p := x.positions[pk];
    if p.status != LIVE { return false; }
    MarketOf(was, pk);
    var eq := ResolvedEquities(p, att.outcomeBps);
    if eq.Err? { return false; }
    EquitiesShareThePot(was, pk, 0, att.outcomeBps);
    Accepting(was, pk, att);
    ok := PayBoth(x, pk, RESOLVED, eq.value.0, eq.value.1);
    NotedFirst(was, pk, RESOLVED, eq.value.0, eq.value.1, att);
  }

  lemma MarketKnown(st: State, m: nat)
    requires Inv(st) && m in st.markets
    ensures st.markets[m].marketId in st.nonces && m in st.nextIds && 0 < st.markets[m].bucket < U64
    ensures 0 < st.markets[m].tick
  {
  }

  /** CloseMutual; both owners sign. */
  method CloseMutual(x: Exchange, pk: Key, att: Attestation, now: nat) returns (ok: bool)
    requires Inv(x.View()) && pk.0 in x.markets
    modifies x`accounts, x`positions, x`nonces
    ensures ok <==> CanCloseMutual(old(x.View()), pk, att, now)
    ensures ok ==> x.View() == ClosedMutually(old(x.View()), pk, att, now)
  {
    hide Inv, Settled, Equities, ValidateFreshnessAndNonce;
    ghost var was := x.View();
    MarketKnown(was, pk.0);
    if !att.PriceTwap? || att.window != x.markets[pk.0].twapWindow { return false; }
    ok := AcceptAttestation(x, pk.0, att, now);
    if !ok { return; }
    if pk !in x.positions { return false; }
    var p := x.positions[pk];
    if p.status != LIVE { return false; }
    MarketOf(was, pk);
    var eq := Equities(p, att.price);
    if eq.Err? { return false; }
    EquitiesShareThePot(was, pk, att.price, 0);
    Accepting(was, pk, att);
    ok := PayBoth(x, pk, CLOSED, eq.value.0, eq.value.1);
    NotedFirst(was, pk, CLOSED, eq.value.0, eq.value.1, att);
  }

  /** The balance the keeper's credit finds is a stored one. */
  lemma KeeperStored(st: State, pk: Key, payLong: nat, payShort: nat, keeper: nat)
    requires Inv(st) && LiveAt(st, pk) && keeper in st.accounts && payLong + payShort <= 2 * st.positions[pk].collateral
    ensures var st1 := Settled(st, pk, LIQUIDATED, payLong, payShort);
      keeper in st1.accounts && Stored(st1.accounts[keeper])
  {
    var rest := 2 * st.positions[pk].collateral - payLong - payShort;
    hide AllLevel, Fit, VaultGap, Settled;
    SettlementConserves(st, pk, LIQUIDATED, payLong, payShort, keeper, rest);
    SettleFrame(st, pk, LIQUIDATED, payLong, payShort);
    RichAccount(PaidOut(st, pk, LIQUIDATED, payLong, payShort, keeper, rest), keeper);
    PaidFreeNonNegative(st, pk, LIQUIDATED, payLong, payShort, keeper);
  }

  lemma PaidFreeNonNegative(st: State, pk: Key, status: Status, payLong: nat, payShort: nat, keeper: nat)
    requires Inv(st) && LiveAt(st, pk) && status != LIVE && keeper in st.accounts
    ensures keeper in Settled(st, pk, status, payLong, payShort).accounts
    ensures Settled(st, pk, status, payLong, payShort).accounts[keeper].free >= 0
  {
    hide Settled;
    SettleLevel(st, pk, status, payLong, payShort, keeper);
  }

  /** A bounty within the pot always fits the keeper's balance. */
  lemma KeeperHasRoom(st: State, pk: Key, spoils: Spoils, keeper: nat)
    requires Inv(st) && LiveAt(st, pk) && keeper in st.accounts
    requires spoils.long + spoils.short + spoils.bounty == 2 * st.positions[pk].collateral
    ensures KeeperFits(st, pk, spoils, keeper)
  {
    hide AllLevel, Fit, VaultGap, Settled;
    SettlementConserves(st, pk, LIQUIDATED, spoils.long, spoils.short, keeper, spoils.bounty);
    SettleFrame(st, pk, LIQUIDATED, spoils.long, spoils.short);
    RichAccount(PaidOut(st, pk, LIQUIDATED, spoils.long, spoils.short, keeper, spoils.bounty), keeper);
  }

  /** Pays the winner, then the keeper. Only a bounty above the pot can be too much for the keeper. */
  method PaySpoils(x: Exchange, pk: Key, spoils: Spoils, keeper: nat) returns (ok: bool)
    requires Inv(x.View()) && LiveAt(x.View(), pk) && keeper in x.accounts
    requires spoils.long + spoils.short <= 2 * x.positions[pk].collateral
    modifies x`accounts, x`positions
    ensures ok <==>
      old(x.positions)[pk].longOwner != old(x.positions)[pk].shortOwner && KeeperFits(old(x.View()), pk, spoils, keeper)
    ensures ok ==> x.View() == PaidOut(old(x.View()), pk, LIQUIDATED, spoils.long, spoils.short, keeper, spoils.bounty)
  {
    hide Inv, Settled;
    KeeperStored(x.View(), pk, spoils.long, spoils.short, keeper);
    ok := PayBoth(x, pk, LIQUIDATED, spoils.long, spoils.short);
    if !ok { return; }
    if spoils.bounty > 0 {
      var account := new MarginAccount(x.accounts[keeper]);
      ok := account.CreditFree(spoils.bounty);
      if ok { x.accounts := x.accounts[keeper := account.Data()]; }
    } else {
      AdjustNothing(x.View(), keeper);
    }
  }

  lemma NotedSpoils(st: State, pk: Key, status: Status, spoils: Spoils, keeper: nat, att: Attestation)
    requires LiveAt(st, pk) && pk.0 in st.markets && keeper in st.accounts
    ensures PaidOut(st, pk, status, spoils.long, spoils.short, keeper, spoils.bounty).markets == st.markets
    ensures PaidOut(Noted(st, pk, att), pk, status, spoils.long, spoils.short, keeper, spoils.bounty)
         == Noted(PaidOut(st, pk, status, spoils.long, spoils.short, keeper, spoils.bounty), pk, att)
    ensures KeeperFits(Noted(st, pk, att), pk, spoils, keeper) == KeeperFits(st, pk, spoils, keeper)
  {
    hide Settled;
    NotedFirst(st, pk, status, spoils.long, spoils.short, att);
    NotedFirst(st, pk, LIQUIDATED, spoils.long, spoils.short, att);
    SettleFrame(st, pk, status, spoils.long, spoils.short);
  }

  /** Liquidate. */
  method LiquidatePosition(x: Exchange, pk: Key, att: Attestation, keeper: nat, now: nat) returns (ok: bool)
    requires Inv(x.View()) && pk.0 in x.markets
    modifies x`accounts, x`positions, x`nonces
    ensures ok <==> CanLiquidate(old(x.View()), pk, att, keeper, now)
    ensures ok ==> x.View() == Liquidated(old(x.View()), pk, att, keeper, now)
  {
    hide Inv, Settled, PaidOut, Equities, ValidateFreshnessAndNonce, SpoilsOf, Share, Min, KeeperFits;
    ghost var was := x.View();
    MarketKnown(was, pk.0);
    if keeper !in x.accounts || !att.HistoricalLiquidation? || att.pmlc != pk { return false; }
    if att.breachTs < 0 || att.breachTs > now { return false; }
    ok := AcceptAttestation(x, pk.0, att, now);
    if !ok { return; }
    if pk !in x.positions { return false; }
    var p := x.positions[pk];
    if p.status != LIVE { return false; }
    MarketOf(was, pk);
    var eq := Equities(p, att.mark);
    if eq.Err? || Min(eq.value.0, eq.value.1) > Share(p.collateral, x.markets[pk.0].liquidationBps) { return false; }
    var spoils := SpoilsOf(p, eq.value, x.markets[pk.0].bountyBps);
    PotFits(was, pk);
    SpoilsShareThePot(p, eq.value, x.markets[pk.0].bountyBps);
    Accepting(was, pk, att);
    NotedSpoils(was, pk, LIQUIDATED, spoils, keeper, att);
    ok := PaySpoils(x, pk, spoils, keeper);
  }

  // ----- novation and removal ------------------------------------------------------------------------------------

  lemma NovatedFields(st: State, pk: Key, long: bool, t: nat)
    requires LiveAt(st, pk) && t in st.accounts
    ensures var p := st.positions[pk];
      Novated(st, pk, long, t) == st.(
        accounts := Credited(Credited(st.accounts, Delta(OwnerOf(p, long), p.collateral, 0, 0 - p.collateral)),
                             Delta(t, 0 - p.collateral, 0, p.collateral)),
        positions := st.positions[pk := WithOwner(p, long, t)])
  {
    var p := st.positions[pk];
    ExchangedFields(st, Delta(OwnerOf(p, long), p.collateral, 0, 0 - p.collateral),
                    Delta(t, 0 - p.collateral, 0, p.collateral), pk, WithOwner(p, long, t), 0);
    hide Exchanged;
  }

  /** The old owner's stake unlocked. */
  method Vacate(b: Balance, stake: nat) returns (ok: bool, b': Balance)
    requires Stored(b)
    ensures ok <==> stake <= b.locked && b.free + stake < U64
    ensures ok ==> b' == Balance(b.free + stake, b.reserved, b.locked - stake)
  {
    var account := new MarginAccount(b);
    ok := account.MoveLockedToFree(stake);
    b' := account.Data();
  }

  /** The new owner's stake locked. */
  method Occupy(b: Balance, stake: nat) returns (ok: bool, b': Balance)
    requires Stored(b)
    ensures ok <==> stake <= b.free && b.locked + stake < U64
    ensures ok ==> b' == Balance(b.free - stake, b.reserved, b.locked + stake)
  {
    var account := new MarginAccount(b);
    ok := account.DebitFree(stake);
    if ok { ok := account.CreditLocked(stake); }
    b' := account.Data();
  }

  /** Novate; the current and the new owner sign. */
  method Novate(x: Exchange, pk: Key, long: bool, t: nat) returns (ok: bool)
    requires Inv(x.View()) && t in x.accounts
    modifies x`accounts, x`positions
    ensures ok <==> CanNovate(old(x.View()), pk, long, t)
    ensures ok ==> x.View() == Novated(old(x.View()), pk, long, t)
  {
    hide Inv, Novated, Fit;
    ghost var was := x.View();
    if pk !in x.positions { return false; }
    var p := x.positions[pk];
    if p.status != LIVE { return false; }
    MarketOf(was, pk);
    PotRoom(was, pk);
    RichAccount(was, t);
    NovatedFields(was, pk, long, t);
    var leaving, coming;
    ok, leaving := Vacate(x.accounts[OwnerOf(p, long)], p.collateral);
    assert ok;
    x.accounts := x.accounts[OwnerOf(p, long) := leaving];
    ok, coming := Occupy(x.accounts[t], p.collateral);
    if !ok { return; }
    x.accounts := x.accounts[t := coming];
    x.positions := x.positions[pk := WithOwner(p, long, t)];
  }

  /** ClosePmlc: a closed position's account is removed. */
  method ClosePmlc(x: Exchange, pk: Key) returns (ok: bool)
    modifies x`positions
    ensures ok <==> CanRemove(old(x.View()), pk)
    ensures x.View() == if ok then Removed(old(x.View()), pk) else old(x.View())
  {
    if pk !in x.positions || x.positions[pk].status == LIVE { return false; }
    x.positions := x.positions - {pk};
    ok := true;
  }
}
