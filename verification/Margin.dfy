/** Margin accounts as the handlers load them: checked 64-bit movements between free, reserved and
    locked. A failed movement may leave its first half done; the failing instruction is rolled back. */
module Margin {
  import opened FixedPoint
  import opened Ledger

  /** A stored balance: three 64-bit amounts. */
  predicate Stored(b: Balance) { 0 <= b.free < U64 && 0 <= b.reserved < U64 && 0 <= b.locked < U64 }

  class MarginAccount {
    var free: nat
    var reserved: nat
    var locked: nat

    /** Loads a stored balance. */
    constructor (b: Balance)
      requires Stored(b)
      ensures Data() == b
    {
      free, reserved, locked := b.free, b.reserved, b.locked;
    }

    function Data(): Balance
      reads this
    {
      Balance(free, reserved, locked)
    }

    method CreditFree(amount: nat) returns (ok: bool)
      modifies this`free
      ensures ok <==> old(free) + amount < U64
      ensures free == if ok then old(free) + amount else old(free)
    {
      ok := free + amount < U64;
      if ok { free := free + amount; }
    }

    method DebitFree(amount: nat) returns (ok: bool)
      modifies this`free
      ensures ok <==> amount <= old(free)
      ensures free == if ok then old(free) - amount else old(free)
    {
      ok := amount <= free;
      if ok { free := free - amount; }
    }

    method CreditReserved(amount: nat) returns (ok: bool)
      modifies this`reserved
      ensures ok <==> old(reserved) + amount < U64
      ensures reserved == if ok then old(reserved) + amount else old(reserved)
    {
      ok := reserved + amount < U64;
      if ok { reserved := reserved + amount; }
    }

    method DebitReserved(amount: nat) returns (ok: bool)
      modifies this`reserved
      ensures ok <==> amount <= old(reserved)
      ensures reserved == if ok then old(reserved) - amount else old(reserved)
    {
      ok := amount <= reserved;
      if ok { reserved := reserved - amount; }
    }

    method CreditLocked(amount: nat) returns (ok: bool)
      modifies this`locked
      ensures ok <==> old(locked) + amount < U64
      ensures locked == if ok then old(locked) + amount else old(locked)
    {
      ok := locked + amount < U64;
      if ok { locked := locked + amount; }
    }

    method DebitLocked(amount: nat) returns (ok: bool)
      modifies this`locked
      ensures ok <==> amount <= old(locked)
      ensures locked == if ok then old(locked) - amount else old(locked)
    {
      ok := amount <= locked;
      if ok { locked := locked - amount; }
    }

    method MoveFreeToReserved(amount: nat) returns (ok: bool)
      modifies this`free, this`reserved
      ensures ok <==> amount <= old(free) && old(reserved) + amount < U64
      ensures ok ==> Data() == Balance(old(free) - amount, old(reserved) + amount, old(locked))
    {
      ok := DebitFree(amount);
      if ok { ok := CreditReserved(amount); }
    }

    method MoveReservedToFree(amount: nat) returns (ok: bool)
      modifies this`free, this`reserved
      ensures ok <==> amount <= old(reserved) && old(free) + amount < U64
      ensures ok ==> Data() == Balance(old(free) + amount, old(reserved) - amount, old(locked))
    {
      ok := DebitReserved(amount);
      if ok { ok := CreditFree(amount); }
    }

    method MoveReservedToLocked(amount: nat) returns (ok: bool)
      modifies this`reserved, this`locked
      ensures ok <==> amount <= old(reserved) && old(locked) + amount < U64
      ensures ok ==> Data() == Balance(old(free), old(reserved) - amount, old(locked) + amount)
    {
      ok := DebitReserved(amount);
      if ok { ok := CreditLocked(amount); }
    }

    method MoveLockedToFree(amount: nat) returns (ok: bool)
      modifies this`free, this`locked
      ensures ok <==> amount <= old(locked) && old(free) + amount < U64
      ensures ok ==> Data() == Balance(old(free) + amount, old(reserved), old(locked) - amount)
    {
      ok := DebitLocked(amount);
      if ok { ok := CreditFree(amount); }
    }
  }
}
