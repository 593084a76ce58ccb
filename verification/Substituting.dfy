/** The two substitution instructions on the exchange's own fields and the book. */
module Substituting {
  import opened IntentBook
  import opened Desk
  import opened Posting
  import opened Filling
  import opened FixedPoint
  import opened Ledger
  import opened Settlements
  import opened Handovers
  import opened Margin
  import opened Exchange
  import opened Settling
  import opened Trading

  // ----- margins ------------------------------------------------------------------------------------------------

  /** The leaver: its contract's reservation and its stake come free, and the premium is received, or
      paid when negative. Given room, this cannot fail. */
  method Leave(b: Balance, c: nat, freed: nat, premium: int) returns (ok: bool, b': Balance)
    requires Rich(b, c + freed, c) && -(c as int) <= premium && b.free + freed + 2 * c + premium < U64
    ensures ok && b' == Balance(b.free + freed + 2 * c + premium, b.reserved - c - freed, b.locked - c)
  {
    var account := new MarginAccount(b);
    ok := account.MoveReservedToFree(c);
    assert ok;
    if freed > 0 {
      ok := account.MoveReservedToFree(freed);
      assert ok;
    }
    ok := account.MoveLockedToFree(c);
    assert ok;
    if premium > 0 {
      ok := account.CreditFree(premium);
    } else if premium < 0 {
      ok := account.DebitFree(0 - premium);
    }
    b' := account.Data();
  }

  /** The newcomer: its contract's collateral locks, its fee buffer comes free, and the premium is
      paid, or received when negative. Only the premium can be too much. */
  method Join(b: Balance, c: nat, freed: nat, premium: int) returns (ok: bool, b': Balance)
    requires Stored(b) && c + freed <= b.reserved && b.locked + c < U64 && b.free + freed < U64
    requires b.free + freed - premium < U64
    ensures ok <==> premium <= b.free + freed
    ensures ok ==> b' == Balance(b.free + freed - premium, b.reserved - c - freed, b.locked + c)
  {
    var account := new MarginAccount(b);
    ok := account.MoveReservedToLocked(c);
    assert ok;
    if freed > 0 {
      ok := account.MoveReservedToFree(freed);
      assert ok;
    }
    if premium > 0 {
      ok := account.DebitFree(premium);
    } else if premium < 0 {
      ok := account.CreditFree(0 - premium);
    }
    b' := account.Data();
  }

  /** What the accounts of a swap must hold. */
  predicate SwapReady(a: map<nat, Balance>, x: nat, n: nat, c: nat, freedX: nat, freedN: nat) {
    && x in a && n in a && Rich(a[x], c + freedX, c) && Rich(a[n], c + freedN, 0)
    && (x != n ==>
      && a[x].free + a[x].reserved + a[x].locked + c < U64
      && a[n].free + a[n].reserved + a[n].locked + c < U64)
    && (x == n ==> Rich(a[x], 2 * c + freedX + freedN, c))
  }

  /** The margin part of a substitution, one account after the other. */
  method SwapMargins(x: Exchange, leaver: nat, comer: nat, c: nat, freedX: nat, freedN: nat, premium: int)
      returns (ok: bool)
    requires SwapReady(x.accounts, leaver, comer, c, freedX, freedN) && -(c as int) <= premium <= c
    modifies x`accounts
    ensures ok
       <==> premium <= old(x.accounts)[comer].free + freedN + if leaver == comer then freedX + 2 * c + premium else 0
    ensures ok ==> x.accounts == Credited(Credited(old(x.accounts),
        Delta(leaver, freedX + 2 * c + premium, 0 - (c + freedX), 0 - c)),
        Delta(comer, freedN - premium, 0 - (c + freedN), c))
  {
    var balance;
    ok, balance := Leave(x.accounts[leaver], c, freedX, premium);
    x.accounts := x.accounts[leaver := balance];
    ok, balance := Join(x.accounts[comer], c, freedN, premium);
    if ok { x.accounts := x.accounts[comer := balance]; }
  }

  // ----- the ledger's view ------------------------------------------------------------------------------------------

  /** The swap is between the two orders of a pair. */
  predicate OfPair(swap: Swap, m: nat, pair: Pair) {
    || (swap.leaving == (m, pair.long) && swap.coming == (m, pair.short))
    || (swap.leaving == (m, pair.short) && swap.coming == (m, pair.long))
  }

  lemma SwapRoom(st: State, m: nat, t: Taken, swap: Swap, pk: Key)
    requires Inv(st) && Describes(t, st, m) && Givable(st, m, t.pair)
    requires OfPair(swap, m, t.pair)
    requires LiveAt(st, pk) && pk.0 == m && st.positions[pk].collateral == st.markets[m].bucket
    requires OwnerOf(st.positions[pk], swap.long) == st.orders[swap.leaving].owner
    ensures Swappable(st, swap, pk)
    ensures SwapReady(st.accounts, st.orders[swap.leaving].owner, st.orders[swap.coming].owner,
                      st.positions[pk].collateral,
                      ReleaseOfOne(st.orders[swap.leaving].data), ReleaseOfOne(st.orders[swap.coming].data))
  {
    hide AllLevel, Fit, VaultGap, ReleaseOfOne;
    var (x, n) := (st.orders[swap.leaving].owner, st.orders[swap.coming].owner);
    PortionsReserved(st, swap.leaving, swap.coming);
    PotRoom(st, pk);
    OrderOwner(st, swap.leaving);
    OrderOwner(st, swap.coming);
    NoDebt(st);
    AccountsFit(st, x, n);
  }

  lemma NoDebt(st: State)
    requires Inv(st)
    ensures st.treasury >= 0 && st.vault < U64
  {
  }

  lemma SwappedFields(st: State, swap: Swap, pk: Key, premium: int)
    requires Swappable(st, swap, pk) && swap.leaving.0 == swap.coming.0 == pk.0
    requires st.positions[pk].collateral == st.markets[pk.0].bucket
    ensures var (c, x, n) := (st.positions[pk].collateral, st.orders[swap.leaving], st.orders[swap.coming]);
      && x.owner in st.accounts && n.owner in st.accounts
      && Substituted(st, swap, pk, premium) == Consumed2(st, swap.leaving, swap.coming).(
        accounts := Credited(Credited(st.accounts,
          Delta(x.owner, ReleaseOfOne(x.data) + 2 * c + premium, 0 - (c + ReleaseOfOne(x.data)), 0 - c)),
          Delta(n.owner, ReleaseOfOne(n.data) - premium, 0 - (c + ReleaseOfOne(n.data)), c)),
        positions := st.positions[pk := WithOwner(st.positions[pk], swap.long, n.owner)])
  {
    var n := st.orders[swap.coming].owner;
    OrderOwner(st, swap.leaving);
    OrderOwner(st, swap.coming);
    Consumed2Frame(st, swap.leaving, swap.coming);
    hide ReleaseOfOne, OrderOk, Consumed2, Credited;
    ExchangedFields(Consumed2(st, swap.leaving, swap.coming), LeaverDelta(st, swap, pk, premium),
                    ComerDelta(st, swap, pk, premium),
                    pk, WithOwner(st.positions[pk], swap.long, n), 0);
  }

  /** Which order gives first does not matter. */
  lemma EitherOrder(st: State, k: Key, j: Key)
    requires k != j && k in st.orders && j in st.orders && OrderOk(st, k, st.orders[k]) && OrderOk(st, j, st.orders[j])
    ensures Consumed2(st, k, j) == Consumed2(st, j, k)
  {
    ShareFits(st.orders[k].data, st.markets[k.0].bucket);
    ShareFits(st.orders[j].data, st.markets[j.0].bucket);
    hide ReleaseOfOne;
    assert Consumed2(st, k, j).orders == Consumed2(st, j, k).orders;
  }

  /** A substitution on the fields, from where the book part left them. */
  lemma SubstitutedFields(st: State, m: nat, t: Taken, swap: Swap, pk: Key, premium: int)
    requires Describes(t, st, m) && Givable(st, m, t.pair) && OfPair(swap, m, t.pair) && Swappable(st, swap, pk)
    requires pk.0 == m && st.positions[pk].collateral == st.markets[m].bucket
    ensures var (c, x, n) := (st.positions[pk].collateral, st.orders[swap.leaving], st.orders[swap.coming]);
      && x.owner in st.accounts && n.owner in st.accounts
      && Given(st, m, t.pair) == st.(orders := Given(st, m, t.pair).orders)
      && Substituted(st, swap, pk, premium) == Given(st, m, t.pair).(
        accounts := Credited(Credited(st.accounts,
          Delta(x.owner, ReleaseOfOne(x.data) + 2 * c + premium, 0 - (c + ReleaseOfOne(x.data)), 0 - c)),
          Delta(n.owner, ReleaseOfOne(n.data) - premium, 0 - (c + ReleaseOfOne(n.data)), c)),
        positions := st.positions[pk := WithOwner(st.positions[pk], swap.long, n.owner)])
  {
    hide ReleaseOfOne, OrderOk, Consumed2, Credited, Substituted;
    SwappedFields(st, swap, pk, premium);
    EitherOrder(st, (m, t.pair.long), (m, t.pair.short));
    Consumed2Frame(st, (m, t.pair.long), (m, t.pair.short));
  }

  /** Who leaves and who comes, as the source works it out from the two traders. */
  function SwapFor(m: nat, t: Taken, trader: nat): Swap {
    var (kl, ks) := ((m, t.pair.long), (m, t.pair.short));
    if t.longTrader == trader then Swap(kl, ks, t.shortTrader == trader) else Swap(ks, kl, true)
  }

  /** The ledger part of a substitution. */
  method FinishSubstitution(x: Exchange, m: nat, t: Taken, swap: Swap, pk: Key, premium: int, ghost was: State)
      returns (ok: bool)
    requires Inv(was) && Describes(t, was, m) && Givable(was, m, t.pair) && x.View() == Given(was, m, t.pair)
    requires OfPair(swap, m, t.pair)
    requires LiveAt(was, pk) && pk.0 == m && was.positions[pk].collateral == was.markets[m].bucket
    requires OwnerOf(was.positions[pk], swap.long) == was.orders[swap.leaving].owner
    requires -(was.positions[pk].collateral as int) <= premium <= was.positions[pk].collateral
    modifies x`accounts, x`positions
    ensures ok <==> Affords(was, swap, was.positions[pk].collateral, premium)
    ensures ok ==> x.View() == Substituted(was, swap, pk, premium)
  {
    hide AllLevel, Fit, VaultGap, ReleaseOfOne, OrderOk, Consumed2, Substituted, Credited, SwapReady, Given;
    SwapRoom(was, m, t, swap, pk);
    SubstitutedFields(was, m, t, swap, pk, premium);
    var longLeaves := swap.leaving == (m, t.pair.long);
    var (leaver, freedX) := if longLeaves then (t.longTrader, t.freedLong) else (t.shortTrader, t.freedShort);
    var (comer, freedN) := if longLeaves then (t.shortTrader, t.freedShort) else (t.longTrader, t.freedLong);
    var p := x.positions[pk];
    ok := SwapMargins(x, leaver, comer, p.collateral, freedX, freedN, premium);
    if ok { x.positions := x.positions[pk := WithOwner(p, swap.long, comer)]; }
  }

  /** MatchSubstitute and, with `settle`, MatchSubstituteWithSettle, signed by `trader`. On success `kl`
      and `ks` are the orders used; it fails only on a pair that cannot substitute. */
  method MatchSubstitute(x: Exchange, m: nat, b: Book, longId: nat, shortId: nat, pk: Key, trader: nat, settle: bool,
                         now: nat)
      returns (ok: bool, ghost kl: Key, ghost ks: Key)
    requires Inv(x.View()) && Mirrors(x, m, b)
    modifies x`accounts, x`positions, x`orders, b`longRoot, b`shortRoot, b`seatRoot, b`freelistHead, b`layout, b.nodes
    ensures ok ==> kl.0 == ks.0 == m && Named(old(x.View()), m, kl.1, ks.1, longId, shortId)
    ensures ok ==> CanSubstitute(old(x.View()), kl, ks, pk, trader, settle, now) && Mirrors(x, m, b)
    ensures ok ==> (var was := old(x.View()); var premium := PremiumPaid(was, kl, ks, pk, trader, settle, now);
      && Swappable(was, SwapOf(was, kl, ks, trader), pk)
      && x.View() == Substituted(was, SwapOf(was, kl, ks, trader), pk, premium))
    ensures !ok ==> forall i: nat, j: nat :: Named(old(x.View()), m, i, j, longId, shortId) ==>
      !CanSubstitute(old(x.View()), (m, i), (m, j), pk, trader, settle, now)
  {
    hide Inv, Tidy, MapsTo, Covered, OrdersOf, OrderOk, Consumed2, Substituted, ReleaseOfOne, Premium, PriceMidpoint,
      Affords, Given;
    ghost var was := x.View();
    ok, kl, ks := false, (m, 0), (m, 0);
    if pk !in x.positions || x.positions[pk].status != LIVE || pk.0 != m { return; }
    MarketOf(was, pk);
    var p := x.positions[pk];
    if p.collateral != x.markets[m].bucket { return; }
    var taken := DrawPair(x, m, b, longId, shortId, now);
    if taken.Err? { return; }
    var t := taken.value;
    kl, ks := (m, t.pair.long), (m, t.pair.short);
    if p.entry < t.short.price || p.entry > t.long.price { return; }
    if t.longTrader != trader && t.shortTrader != trader { return; }
    var swap := SwapFor(m, t, trader);
    if OwnerOf(p, swap.long) != trader { return; }
    var premium := Premium(p, PriceMidpoint(t.long.price, t.short.price), swap.long, settle);
    if premium.Err? || premium.value > p.collateral || premium.value < -(p.collateral as int) { return; }
    ok := FinishSubstitution(x, m, t, swap, pk, premium.value, was);
  }
}
