/** The exchange of one mint as the instructions update it, tied to the books of its markets. */
module Exchange {
  import Sums
  import opened IntentBook
  import opened Desk
  import opened Posting
  import opened FixedPoint
  import opened Ledger
  import opened Operations
  import opened Settlements
  import opened Margin

  class Exchange {
    var markets: map<nat, Market>
    var accounts: map<nat, Balance>
    var positions: map<Key, Position>
    var nonces: map<nat, nat>
    var treasury: nat
    var swept: nat
    var vault: nat
    /** The orders resting on the books of all markets, and their id counters. */
    ghost var orders: map<Key, Order>
    ghost var nextIds: map<nat, nat>

    ghost function View(): State
      reads this
    {
      State(markets, accounts, orders, positions, nextIds, nonces, treasury, swept, vault)
    }
  }

  /** The orders of market m in o are those on its book. */
  ghost predicate MapsTo(o: map<Key, Order>, m: nat, r: map<nat, Order>) {
    forall i: nat :: ((m, i) in o <==> i in r) && (i in r ==> o[(m, i)] == r[i])
  }

  /** Book b is that of market m, and the exchange's view of it is exact. */
  ghost predicate Mirrors(x: Exchange, m: nat, b: Book)
    reads x, b, b.nodes
  {
    && Tidy(b) && m in x.markets && m in x.nextIds && x.nextIds[m] == b.nextIntentId
    && MapsTo(x.orders, m, OrdersOf(b.nodes[..]))
    && Covered(b.nodes[..])
  }

  /** Applies a change to one account. */
  function Credited(accounts: map<nat, Balance>, d: Delta): map<nat, Balance>
    requires d.owner in accounts
  {
    var b := accounts[d.owner];
    accounts[d.owner := Balance(b.free + d.free, b.reserved + d.reserved, b.locked + d.locked)]
  }

  /** An account whose balances fit 64 bits together and that holds `due` reserved and `stake` locked. */
  predicate Rich(b: Balance, due: int, stake: int) {
    && b.free >= 0 && b.reserved >= due && b.reserved >= 0 && b.locked >= stake && b.locked >= 0
    && b.free + b.reserved + b.locked < U64
  }

  lemma RichAccount(st: State, t: nat)
    requires Inv(st) && t in st.accounts
    ensures Rich(st.accounts[t], 0, 0)
  {
    AccountNonNegative(st, t);
    AccountsFit(st, t, t);
  }

  // ----- deposits, withdrawals, sweeps, accounts ---------------------------------------------------------------

  method CreateMarginAccount(x: Exchange, t: nat) returns (ok: bool)
    modifies x`accounts
    ensures ok <==> t !in old(x.accounts)
    ensures x.View() == if ok then Opened(old(x.View()), t) else old(x.View())
  {
    if t in x.accounts { return false; }
    x.accounts := x.accounts[t := Balance(0, 0, 0)];
    ok := true;
  }

  /** Tokens into the vault, then the ledger credit, which cannot overflow once the tokens fit. */
  method Deposit(x: Exchange, t: nat, amount: nat) returns (ok: bool)
    requires Inv(x.View())
    modifies x`accounts, x`vault
    ensures ok <==> CanDeposit(old(x.View()), t, amount)
    ensures ok ==> x.View() == Deposited(old(x.View()), t, amount)
  {
    hide Inv;
    if t !in x.accounts || amount == 0 { return false; }
    RichAccount(x.View(), t);
    AccountsFit(x.View(), t, t);
    if x.vault + amount >= U64 { return false; }
    x.vault := x.vault + amount;
    var account := new MarginAccount(x.accounts[t]);
    ok := account.CreditFree(amount);
    x.accounts := x.accounts[t := account.Data()];
  }

  /** The ledger debit, then tokens out of the vault, which always has them. */
  method Withdraw(x: Exchange, t: nat, amount: nat) returns (ok: bool)
    requires Inv(x.View())
    modifies x`accounts, x`vault
    ensures ok <==> CanWithdraw(old(x.View()), t, amount)
    ensures ok <==> t in old(x.accounts) && 0 < amount <= old(x.accounts)[t].free
    ensures ok ==> x.View() == Withdrawn(old(x.View()), t, amount)
  {
    hide Inv;
    if t !in x.accounts || amount == 0 { return false; }
    RichAccount(x.View(), t);
    AccountsFit(x.View(), t, t);
    var account := new MarginAccount(x.accounts[t]);
    ok := account.DebitFree(amount);
    if !ok { return; }
    x.accounts := x.accounts[t := account.Data()];
    if amount > x.vault { return false; }
    x.vault := x.vault - amount;
  }

  /** The treasury debit, then tokens out of the vault, which always has them. */
  method SweepFees(x: Exchange, amount: nat) returns (ok: bool)
    requires Inv(x.View())
    modifies x`treasury, x`swept, x`vault
    ensures ok <==> CanSweep(old(x.View()), amount)
    ensures ok <==> 0 < amount <= old(x.treasury) && old(x.swept) + amount < U64
    ensures ok ==> x.View() == Swept(old(x.View()), amount)
  {
    VaultCoversTreasury(x.View());
    hide Inv;
    if amount == 0 || amount > x.treasury { return false; }
    x.treasury := x.treasury - amount;
    if x.swept + amount >= U64 { return false; }
    x.swept := x.swept + amount;
    if amount > x.vault { return false; }
    x.vault := x.vault - amount;
    ok := true;
  }

  lemma VaultCoversTreasury(st: State)
    requires Inv(st)
    ensures st.treasury <= st.vault
  {
    forall t | t in st.accounts ensures Worth()(st.accounts[t]) >= 0 { AccountNonNegative(st, t); }
    Sums.SumNonNegative(st.accounts, Worth());
  }
}
