/** Novation, substitution, and re-entry: one side of a position changes hands, or a closed side's
    owner posts again. */
module Handovers {
  import opened FixedPoint
  import opened Ledger
  import opened Operations
  import opened Settlements

  function OwnerOf(p: Position, long: bool): nat { if long then p.longOwner else p.shortOwner }

  function WithOwner(p: Position, long: bool, t: nat): Position {
    if long then p.(longOwner := t) else p.(shortOwner := t)
  }

  // ----- novation -------------------------------------------------------------------------------------------

  /** The new owner must have the collateral free, or be the old one, whose own stake unlocks first. */
  predicate CanNovate(st: State, pk: Key, long: bool, t: nat) {
    && LiveAt(st, pk) && t in st.accounts
    && (t == OwnerOf(st.positions[pk], long) || st.positions[pk].collateral <= st.accounts[t].free)
  }

  function Novated(st: State, pk: Key, long: bool, t: nat): State
    requires LiveAt(st, pk) && t in st.accounts
  {
    var p := st.positions[pk];
    Exchanged(st, Delta(OwnerOf(p, long), p.collateral, 0, 0 - p.collateral),
              Delta(t, 0 - p.collateral, 0, p.collateral),
              pk, WithOwner(p, long, t), 0)
  }

  lemma NovateLevel(st: State, pk: Key, long: bool, t: nat, u: nat)
    requires CanNovate(st, pk, long, t) && u in st.accounts && Level(st, u) && VaultGap(st) == 0
    ensures var st' := Novated(st, pk, long, t); u in st'.accounts && Level(st', u) && VaultGap(st') == 0
  {
    var p := st.positions[pk];
    hide ReservedGap, LockedGap, VaultGap, Exchanged;
    ExchangedGaps(st, Delta(OwnerOf(p, long), p.collateral, 0, 0 - p.collateral),
                  Delta(t, 0 - p.collateral, 0, p.collateral),
                  pk, WithOwner(p, long, t), 0, u);
  }

  lemma NovateFrame(st: State, pk: Key, long: bool, t: nat)
    requires CanNovate(st, pk, long, t)
    ensures var st' := Novated(st, pk, long, t);
      && st'.accounts.Keys == st.accounts.Keys && (Fit(st) ==> Fit(st'))
      && st' == st.(accounts := st'.accounts, positions := st.positions[pk := WithOwner(st.positions[pk], long, t)])
  {
    var p := st.positions[pk];
    hide Level;
    ExchangedFrame(st, Delta(OwnerOf(p, long), p.collateral, 0, 0 - p.collateral),
                   Delta(t, 0 - p.collateral, 0, p.collateral),
                   pk, WithOwner(p, long, t), 0);
  }

  lemma NovateKeepsInv(st: State, pk: Key, long: bool, t: nat)
    requires Inv(st) && CanNovate(st, pk, long, t)
    ensures Inv(Novated(st, pk, long, t))
  {
    var st' := Novated(st, pk, long, t);
    hide Fit, Level, VaultGap, Novated, CanNovate;
    NovateFrame(st, pk, long, t);
    NovateLevels(st, pk, long, t);
  }

  lemma NovateLevels(st: State, pk: Key, long: bool, t: nat)
    requires AllLevel(st) && VaultGap(st) == 0 && CanNovate(st, pk, long, t) && t in st.accounts
    ensures AllLevel(Novated(st, pk, long, t)) && VaultGap(Novated(st, pk, long, t)) == 0
  {
    var st' := Novated(st, pk, long, t);
    hide Fit, Level, VaultGap, Novated, CanNovate;
    NovateFrame(st, pk, long, t);
    NovateLevel(st, pk, long, t, t);
    forall u | u in st.accounts ensures Level(st', u) { NovateLevel(st, pk, long, t, u); }
  }

  // ----- substitution ----------------------------------------------------------------------------------------

  /** Whose orders and which side a substitution by trader t concerns. When both orders are t's, t
      leaves the long side through the long order. */
  datatype Swap = Swap(leaving: Key, coming: Key, long: bool)

  function SwapOf(st: State, kl: Key, ks: Key, t: nat): Swap
    requires kl in st.orders && ks in st.orders
  {
    if st.orders[kl].owner == t then Swap(kl, ks, st.orders[ks].owner == t) else Swap(ks, kl, true)
  }

  /** What the leaver is paid: the profit of its side at the orders' midpoint, or nothing. */
  function Premium(p: Position, midpoint: nat, long: bool, settle: bool): Checked<int>
    requires p.size < U128
  {
    if !settle then Ok(0) else
      match PnlLongAtoms(p.entry, midpoint, p.size)
      case Err(e) => Err(e)
      case Ok(pnl) => Ok(if long then pnl else 0 - pnl)
  }

  /** The orders cross around the entry price, the substitutor owns one of them and the opposite side
      of the position, and the premium is within one stake and within the payer's means. */
  predicate CanSubstitute(st: State, kl: Key, ks: Key, pk: Key, t: nat, settle: bool, now: nat) {
    && Crossing(st, kl, ks, now) && LiveAt(st, pk) && pk.0 == kl.0 && st.positions[pk].size < U128
    && var (p, l, s) := (st.positions[pk], st.orders[kl], st.orders[ks]);
    && p.collateral == st.markets[kl.0].bucket && s.data.price <= p.entry <= l.data.price
    && (l.owner == t || s.owner == t)
    && var swap := SwapOf(st, kl, ks, t);
    && OwnerOf(p, swap.long) == t
    && var premium := Premium(p, PriceMidpoint(l.data.price, s.data.price), swap.long, settle);
    && premium.Ok? && -(p.collateral as int) <= premium.value <= p.collateral
    && Affords(st, swap, p.collateral, premium.value)
  }

  /** The newcomer can pay the premium from its free balance and the fee buffer its contract frees;
      if it is the leaver, also from what leaving freed. */
  predicate Affords(st: State, swap: Swap, c: nat, premium: int)
    requires swap.coming in st.orders && OrderOk(st, swap.coming, st.orders[swap.coming])
    requires swap.leaving in st.orders && OrderOk(st, swap.leaving, st.orders[swap.leaving])
  {
    var n := st.orders[swap.coming];
    premium <= st.accounts[n.owner].free + ReleaseOfOne(n.data)
      + if st.orders[swap.leaving].owner == n.owner then Portion(st, swap.leaving) + c + premium else 0
  }

  function PremiumPaid(st: State, kl: Key, ks: Key, pk: Key, t: nat, settle: bool, now: nat): int
    requires CanSubstitute(st, kl, ks, pk, t, settle, now)
  {
    Premium(st.positions[pk], PriceMidpoint(st.orders[kl].data.price, st.orders[ks].data.price),
            SwapOf(st, kl, ks, t).long, settle).value
  }

  /** The leaver's order gives one contract back to it and its stake unlocks; the newcomer's order
      gives one contract whose collateral locks in its place; the premium passes between them. */
  function Substituted(st: State, swap: Swap, pk: Key, premium: int): State
    requires Swappable(st, swap, pk)
  {
    Exchanged(Consumed2(st, swap.leaving, swap.coming), LeaverDelta(st, swap, pk, premium),
              ComerDelta(st, swap, pk, premium),
              pk, WithOwner(st.positions[pk], swap.long, st.orders[swap.coming].owner), 0)
  }

  predicate Swappable(st: State, swap: Swap, pk: Key) {
    && swap.leaving != swap.coming && swap.leaving in st.orders && swap.coming in st.orders
    && OrderOk(st, swap.leaving, st.orders[swap.leaving]) && OrderOk(st, swap.coming, st.orders[swap.coming])
    && LiveAt(st, pk)
  }

  function LeaverDelta(st: State, swap: Swap, pk: Key, premium: int): Delta
    requires Swappable(st, swap, pk)
  {
    var c := st.positions[pk].collateral;
    Delta(st.orders[swap.leaving].owner, Portion(st, swap.leaving) + c + premium, 0 - Portion(st, swap.leaving), 0 - c)
  }

  function ComerDelta(st: State, swap: Swap, pk: Key, premium: int): Delta
    requires Swappable(st, swap, pk)
  {
    Delta(st.orders[swap.coming].owner, ReleaseOfOne(st.orders[swap.coming].data) - premium,
          0 - Portion(st, swap.coming), st.positions[pk].collateral)
  }

  /** What makes a substitution balance. */
  predicate Fair(st: State, swap: Swap, pk: Key, premium: int) {
    && Swappable(st, swap, pk) && swap.leaving.0 == swap.coming.0 == pk.0
    && st.positions[pk].collateral == st.markets[pk.0].bucket
    && OwnerOf(st.positions[pk], swap.long) == st.orders[swap.leaving].owner
    && -(st.positions[pk].collateral as int) <= premium <= st.positions[pk].collateral
    && Affords(st, swap, st.positions[pk].collateral, premium)
  }

  lemma SubstituteGaps(st: State, swap: Swap, pk: Key, premium: int, u: nat)
    requires Fair(st, swap, pk, premium) && u in st.accounts && Level(st, u) && VaultGap(st) == 0
    ensures var st' := Substituted(st, swap, pk, premium);
      && u in st'.accounts && ReservedGap(st', u) == 0 && LockedGap(st', u) == 0 && VaultGap(st') == 0
      && st'.accounts[u].free == st.accounts[u].free
           + For(LeaverDelta(st, swap, pk, premium), u, LeaverDelta(st, swap, pk, premium).free)
           + For(ComerDelta(st, swap, pk, premium), u, ComerDelta(st, swap, pk, premium).free)
  {
    var n := st.orders[swap.coming].owner;
    hide ReservedGap, LockedGap, VaultGap, Exchanged, Consumed2, OrderOk, ReleaseOfOne, Affords;
    ExchangeLevel(st, swap.leaving, swap.coming, LeaverDelta(st, swap, pk, premium), ComerDelta(st, swap, pk, premium),
                  pk, WithOwner(st.positions[pk], swap.long, n), 0, u);
  }

  lemma SubstituteFree(st: State, swap: Swap, pk: Key, premium: int, u: nat)
    requires Fair(st, swap, pk, premium) && u in st.accounts && AllLevel(st)
    ensures st.accounts[u].free
           + For(LeaverDelta(st, swap, pk, premium), u, LeaverDelta(st, swap, pk, premium).free)
           + For(ComerDelta(st, swap, pk, premium), u, ComerDelta(st, swap, pk, premium).free) >= 0
  {
    assert Level(st, u);
    hide ReservedGap, LockedGap;
  }

  lemma SubstituteFrame(st: State, swap: Swap, pk: Key, premium: int)
    requires Fair(st, swap, pk, premium) && Fit(st)
    ensures var st' := Substituted(st, swap, pk, premium);
      && st'.accounts.Keys == st.accounts.Keys && Fit(st')
      && st' == st.(accounts := st'.accounts, orders := st'.orders,
                    positions := st.positions[pk :=
                                    WithOwner(st.positions[pk], swap.long, st.orders[swap.coming].owner)])
  {
    var x := st.orders[swap.leaving].owner;
    assert x in st.accounts && PositionOk(st, pk, st.positions[pk]) && st.orders[swap.coming].owner in st.accounts;
    Consumed2Gaps(st, swap.leaving, swap.coming, x);
    hide ReservedGap, LockedGap, VaultGap, Consumed2, Level, ReleaseOfOne, Affords;
    ExchangedFrame(Consumed2(st, swap.leaving, swap.coming), LeaverDelta(st, swap, pk, premium),
                   ComerDelta(st, swap, pk, premium),
                   pk, WithOwner(st.positions[pk], swap.long, st.orders[swap.coming].owner), 0);
  }

  lemma SubstituteLevels(st: State, swap: Swap, pk: Key, premium: int, t: nat)
    requires Fair(st, swap, pk, premium) && Inv(st) && t in st.accounts
    ensures AllLevel(Substituted(st, swap, pk, premium)) && VaultGap(Substituted(st, swap, pk, premium)) == 0
  {
    var st' := Substituted(st, swap, pk, premium);
    hide Fair, Substituted, Fit, VaultGap, ReservedGap, LockedGap, LeaverDelta, ComerDelta, Swappable;
    SubstituteFrame(st, swap, pk, premium);
    SubstituteGaps(st, swap, pk, premium, t);
    forall u | u in st.accounts ensures Level(st', u) {
      SubstituteGaps(st, swap, pk, premium, u);
      SubstituteFree(st, swap, pk, premium, u);
    }
  }

  lemma SubstituteFair(st: State, kl: Key, ks: Key, pk: Key, t: nat, settle: bool, now: nat)
    requires CanSubstitute(st, kl, ks, pk, t, settle, now)
    ensures Fair(st, SwapOf(st, kl, ks, t), pk, PremiumPaid(st, kl, ks, pk, t, settle, now)) && t in st.accounts
  {
    hide Affords, ReleaseOfOne, PnlLongAtoms, Premium;
  }

  lemma SubstituteKeepsInv(st: State, kl: Key, ks: Key, pk: Key, t: nat, settle: bool, now: nat)
    requires Inv(st) && CanSubstitute(st, kl, ks, pk, t, settle, now)
    ensures var premium := PremiumPaid(st, kl, ks, pk, t, settle, now);
            Fair(st, SwapOf(st, kl, ks, t), pk, premium) && Inv(Substituted(st, SwapOf(st, kl, ks, t), pk, premium))
  {
    var (swap, premium) := (SwapOf(st, kl, ks, t), PremiumPaid(st, kl, ks, pk, t, settle, now));
    SubstituteFair(st, kl, ks, pk, t, settle, now);
    hide Fair, Substituted, Fit, VaultGap, AllLevel, CanSubstitute;
    SubstituteFrame(st, swap, pk, premium);
    SubstituteLevels(st, swap, pk, premium, t);
  }

  /** A substitution touches two traders. Everyone else, the other side of the position among them,
      keeps every balance, and the position keeps its stakes, entry and size. */
  lemma BystandersUntouched(st: State, swap: Swap, pk: Key, premium: int, u: nat)
    requires Fit(st) && Fair(st, swap, pk, premium)
    requires u in st.accounts && u != st.orders[swap.leaving].owner && u != st.orders[swap.coming].owner
    ensures var (st', p) := (Substituted(st, swap, pk, premium), st.positions[pk]);
      && st'.accounts.Keys == st.accounts.Keys && st'.accounts[u] == st.accounts[u] && st'.vault == st.vault
      && st'.treasury == st.treasury
      && st'.positions.Keys == st.positions.Keys
      && var p' := st'.positions[pk];
         && (p'.collateral, p'.entry, p'.size, p'.status) == (p.collateral, p.entry, p.size, p.status)
         && OwnerOf(p', !swap.long) == OwnerOf(p, !swap.long) && OwnerOf(p', swap.long) == st.orders[swap.coming].owner
  {
    hide Fit, Consumed2, Exchanged, Affords, ReleaseOfOne, ReservedGap, LockedGap, VaultGap, OrderOk;
    SubstituteFrame(st, swap, pk, premium);
    Consumed2Gaps(st, swap.leaving, swap.coming, u);
    OrderOwner(st, swap.leaving);
    OrderOwner(st, swap.coming);
    OthersUntouched(Consumed2(st, swap.leaving, swap.coming), LeaverDelta(st, swap, pk, premium),
                    ComerDelta(st, swap, pk, premium),
                    pk, WithOwner(st.positions[pk], swap.long, st.orders[swap.coming].owner), 0, u);
  }

  lemma OrderOwner(st: State, k: Key)
    requires k in st.orders && OrderOk(st, k, st.orders[k])
    ensures st.orders[k].owner in st.accounts
  {
  }
}
