/** The two-epoch volume counter, proved against the full history of volume added. */
module Volume {

  const EPOCH_SLOTS: nat := 6_480_000
  const U64: nat := 0x1_0000_0000_0000_0000

  /** Volume added at a slot. */
  datatype Entry = Entry(slot: nat, amount: nat)

  /** The fixed epoch a slot falls in, counted from the counter's first slot. */
  function EpochOf(origin: nat, slot: nat): int { (slot - origin) / EPOCH_SLOTS }

  /** Everything added in epoch e. */
  ghost function EpochSum(origin: nat, history: seq<Entry>, e: int): nat {
    if history == [] then 0 else
      var last := history[|history| - 1];
      EpochSum(origin, history[..|history| - 1], e) + if EpochOf(origin, last.slot) == e then last.amount else 0
  }

  lemma {:induction false} NothingYet(origin: nat, history: seq<Entry>, e: int)
    requires forall k :: 0 <= k < |history| ==> EpochOf(origin, history[k].slot) < e
    ensures EpochSum(origin, history, e) == 0
  {
    if history != [] { NothingYet(origin, history[..|history| - 1], e); }
  }

  lemma Grown(origin: nat, history: seq<Entry>, last: Entry, e: int)
    ensures EpochSum(origin, history + [last], e) == EpochSum(origin, history, e) + if EpochOf(origin,
        last.slot) == e then last.amount else 0
  {
    assert (history + [last])[..|history|] == history;
  }

  class UserVolume {
    var current: nat
    var prev: nat
    var epochStart: nat
    ghost var origin: nat
    ghost var history: seq<Entry>

    /** The epoch the counter has rolled to. */
    ghost function Epoch(): int
      reads this
    {
      EpochOf(origin, epochStart)
    }

    /** The slot of the latest entry. */
    ghost function LastSlot(): nat
      reads this
    {
      if history == [] then origin else history[|history| - 1].slot
    }

    ghost predicate Valid()
      reads this
    {
      Rolled() && epochStart <= LastSlot()
    }

    /** current and prev are the exact totals of the epoch rolled to and of the one before. */
    ghost predicate Rolled()
      reads this
    {
      && origin <= epochStart < U64 && epochStart == origin + Epoch() * EPOCH_SLOTS
      && (forall k :: 0 <= k < |history| ==> EpochOf(origin, history[k].slot) <= Epoch())
      && current == EpochSum(origin, history, Epoch())
      && prev == EpochSum(origin, history, Epoch() - 1)
    }

    constructor (now: nat)
      requires now < U64
      ensures Valid() && origin == now && history == [] && epochStart == now
    {
      current, prev, epochStart, origin, history := 0, 0, now, now, [];
    }

    /** The slot an entry counts at: a clock that runs behind the counter is not followed. */
    ghost function Counted(now: nat): nat
      reads this
    {
      if now < epochStart then epochStart else now
    }

    /** The epoch of `now` can take `amount` more. */
    ghost predicate HasRoom(amount: nat, now: nat)
      reads this
    {
      EpochSum(origin, history, EpochOf(origin, Counted(now))) + amount < U64
    }

    /** Moves to the epoch of `now`. The checked arithmetic never fails. */
    method MaybeRollEpoch(now: nat) returns (ok: bool)
      requires Rolled() && now < U64
      modifies this`current, this`prev, this`epochStart
      ensures ok && Rolled() && Epoch() == EpochOf(origin, old(Counted(now))) && epochStart <= old(Counted(now))
      ensures Counted(now) == old(Counted(now))
    {
      if now < epochStart { return true; }
      var elapsed := now - epochStart;
      RollTo(origin, epochStart, now, Epoch());
      if elapsed < EPOCH_SLOTS { return true; }
      var epochs := elapsed / EPOCH_SLOTS;
      ghost var e, e' := Epoch(), Epoch() + epochs;
      NothingYet(origin, history, e');
      if epochs == 1 {
        prev, current := current, 0;
      } else {
        NothingYet(origin, history, e' - 1);
        prev, current := 0, 0;
      }
      if epochs * EPOCH_SLOTS >= U64 || epochStart + epochs * EPOCH_SLOTS >= U64 { return false; }
      epochStart := epochStart + epochs * EPOCH_SLOTS;
      ok := true;
    }

    /** Adds volume in the epoch of `now`; it fails only when the epoch's total leaves 64 bits. */
    method AddVolume(amount: nat, now: nat) returns (ok: bool)
      requires Valid() && now < U64
      modifies this
      ensures (ok ==> Valid()) && origin == old(origin)
      ensures ok <==> EpochSum(origin, old(history), EpochOf(origin, old(Counted(now)))) + amount < U64
      ensures ok ==> history == old(history) + [Entry(old(Counted(now)), amount)]
      ensures ok && now >= old(LastSlot()) ==> history == old(history) + [Entry(now, amount)]
      ensures ok ==> Counted(now) == old(Counted(now))
    {
      ghost var at := Counted(now);
      ok := MaybeRollEpoch(now);
      assert ok;
      if current + amount >= U64 { return false; }
      current := current + amount;
      Grown(origin, history, Entry(at, amount), Epoch());
      Grown(origin, history, Entry(at, amount), Epoch() - 1);
      hide EpochSum, EpochOf;
      history := history + [Entry(at, amount)];
    }

    /** The larger of the exact totals of the current and the preceding epoch. */
    method Effective30dVolume(now: nat) returns (volume: nat)
      requires Valid() && now < U64
      ensures var e := EpochOf(origin, Counted(now));
        volume == Max(EpochSum(origin, history, e), EpochSum(origin, history, e - 1))
      ensures now >= LastSlot() ==> Counted(now) == now
    {
      var v := new UserVolume(epochStart);
      v.current, v.prev, v.origin, v.history := current, prev, origin, history;
      var _ := v.MaybeRollEpoch(now);
      volume := Max(v.current, v.prev);
    }
  }

  function Max(a: nat, b: nat): nat { if a >= b then a else b }

  /** Whole epochs after the start of one is the epoch of `now`. */
  lemma RollTo(origin: nat, start: nat, now: nat, e: int)
    requires start == origin + e * EPOCH_SLOTS && start <= now
    ensures EpochOf(origin, now) == e + (now - start) / EPOCH_SLOTS
    ensures EpochOf(origin, start) == e
    ensures forall n: nat ::
      n <= (now - start) / EPOCH_SLOTS ==>
        EpochOf(origin, start + n * EPOCH_SLOTS) == e + n && start + n * EPOCH_SLOTS <= now
  {
  }
}
