/** Finding orders to match: the walks over the two trees against exhaustive search. */
module Matcher {
  import opened Nodes
  import opened Trees
  import opened IntentBook
  import opened Walk

  datatype Option<T> = None | Some(value: T)

  /** Slot i rests on side w. */
  ghost predicate On(b: Book, w: Which, i: nat)
    reads b, b.nodes
  {
    b.layout.Is(i, Member(w)) && b.Typed(w, i)
  }

  predicate Live(d: Data, now: nat)
    requires d.Intent?
  {
    d.remaining > 0 && d.expiration > now
  }

  /** Slot i is a live order of side w, and no live order of that side comes before it. */
  ghost predicate BestLive(b: Book, w: Which, now: nat, i: nat)
    requires !w.Seats?
    reads b, b.nodes
  {
    && On(b, w, i) && Live(b.nodes[i].data, now)
    && forall j: nat :: On(b, w, j) && Live(b.nodes[j].data, now) ==> !Less(w, b.nodes[j].data, b.nodes[i].data)
  }

  /** The walk's last stop, if it stopped, is the first in order that the visitor stops at; if it
      did not, the visitor stops nowhere. */
  lemma WalkFindsFirst(b: Book, w: Which, seen: seq<nat>, goOn: Data -> bool)
    requires b.Valid()
    requires var line := InOrder(b.layout.TreeOf(w));
      && seen <= line && (forall k :: 0 <= k < |seen| ==> b.Typed(w, seen[k]))
      && (forall k :: 0 <= k < |seen| - 1 ==> goOn(b.nodes[seen[k]].data))
      && (seen != line ==> seen != [] && !goOn(b.nodes[seen[|seen| - 1]].data))
    ensures (seen == [] || goOn(b.nodes[seen[|seen| - 1]].data)) ==>
      forall i: nat :: On(b, w, i) ==> goOn(b.nodes[i].data)
    ensures seen != [] && !goOn(b.nodes[seen[|seen| - 1]].data) ==>
      var i := seen[|seen| - 1];
      && On(b, w, i)
      && forall j: nat :: On(b, w, j) && !goOn(b.nodes[j].data) ==> !Less(w, b.nodes[j].data, b.nodes[i].data)
  {
    var s, t := b.nodes[..], b.layout.TreeOf(w);
    var line := InOrder(t);
    assert TreeSound(s, b.layout, w, b.RootOf(w));
    InOrderIds(t);
    if seen == [] || goOn(b.nodes[seen[|seen| - 1]].data) {
      assert seen == line;
      forall i: nat | On(b, w, i) ensures goOn(b.nodes[i].data) {
        assert i in line;
        var k :| 0 <= k < |line| && line[k] == i;
        assert seen[k] == i;
      }
    } else {
      var n, i := |seen| - 1, seen[|seen| - 1];
      assert line[n] == i && i in line;
      assert forall m :: 0 <= m < n ==> seen[m] == line[m] && goOn(s[line[m]].data);
      forall j: nat | On(b, w, j) && !goOn(b.nodes[j].data) ensures !Less(w, b.nodes[j].data, b.nodes[i].data) {
        assert j in line;
        var k :| 0 <= k < |line| && line[k] == j;
        assert s[line[k]] == b.nodes[j];
      }
    }
  }

  /** The best live order of a side, found as exhaustive search would. */
  method FirstLive(b: Book, w: Which, now: nat) returns (found: Option<nat>)
    requires b.Valid() && !w.Seats?
    ensures found.None? ==> forall i: nat :: On(b, w, i) ==> !Live(b.nodes[i].data, now)
    ensures found.Some? ==> BestLive(b, w, now, found.value)
  {
    assert TreeSound(b.nodes[..], b.layout, w, b.RootOf(w));
    var goOn := (d: Data) => !(d.Intent? && d.remaining > 0 && d.expiration > now);
    var seen := ForEachBestFirst(b, w, goOn, b.layout.TreeOf(w));
    WalkFindsFirst(b, w, seen, goOn);
    if |seen| > 0 && !goOn(b.nodes[seen[|seen| - 1]].data) {
      found := Some(seen[|seen| - 1]);
    } else {
      found := None;
    }
  }

  /** A live order of the other side, other than the one to skip. */
  ghost predicate Candidate(b: Book, w: Which, now: nat, skipId: nat, i: nat)
    requires !w.Seats?
    reads b, b.nodes
  {
    On(b, w, i) && Live(b.nodes[i].data, now) && b.nodes[i].data.id != skipId
  }

  /** An order of side w at `price` crosses a taker from the other side. */
  predicate CrossesTaker(w: Which, price: nat, takerPrice: nat) {
    if w.Short? then takerPrice >= price else price >= takerPrice
  }

  /** The best order that crosses the taker; none only when no candidate crosses. */
  method FindOverlapOnSide(b: Book, w: Which, takerPrice: nat, now: nat, skipId: nat) returns (found: Option<nat>)
    requires b.Valid() && !w.Seats?
    ensures found.None? ==>
      forall i: nat :: Candidate(b, w, now, skipId, i) ==> !CrossesTaker(w, b.nodes[i].data.price, takerPrice)
    ensures found.Some? ==> exists i: nat ::
      (&& Candidate(b, w, now, skipId, i) && b.nodes[i].data.id == found.value
       && CrossesTaker(w, b.nodes[i].data.price, takerPrice)
       && forall j: nat :: Candidate(b, w, now, skipId, j) ==> !Less(w, b.nodes[j].data, b.nodes[i].data))
  {
    assert TreeSound(b.nodes[..], b.layout, w, b.RootOf(w));
    var goOn := (d: Data) => !(d.Intent? && d.remaining != 0 && d.expiration > now && d.id != skipId);
    var seen := ForEachBestFirst(b, w, goOn, b.layout.TreeOf(w));
    WalkFindsFirst(b, w, seen, goOn);
    found := None;
    if |seen| > 0 && !goOn(b.nodes[seen[|seen| - 1]].data) {
      ghost var i := seen[|seen| - 1];
      assert Candidate(b, w, now, skipId, i);
      var d := b.nodes[seen[|seen| - 1]].data;
      if CrossesTaker(w, d.price, takerPrice) { found := Some(d.id); }
    }
  }

  /** A live bid and a live ask that cross. */
  ghost predicate CrossingPair(b: Book, now: nat, i: nat, j: nat)
    reads b, b.nodes
  {
    && On(b, Long, i) && Live(b.nodes[i].data, now) && On(b, Short, j) && Live(b.nodes[j].data, now)
    && b.nodes[i].data.price >= b.nodes[j].data.price
  }

  /** A pair is found exactly when some pair crosses, and then it is the best bid with the best ask. */
  method ScanForFirstValidPair(b: Book, now: nat) returns (pair: Option<(nat, nat)>)
    requires b.Valid()
    ensures pair.Some? <==> exists i: nat, j: nat :: CrossingPair(b, now, i, j)
    ensures pair.Some? ==> exists i: nat, j: nat ::
      (&& CrossingPair(b, now, i, j) && BestLive(b, Long, now, i) && BestLive(b, Short, now, j)
       && pair.value == (b.nodes[i].data.id, b.nodes[j].data.id))
  {
    var bid := FirstLive(b, Long, now);
    var ask := FirstLive(b, Short, now);
    if bid.Some? && ask.Some? && b.nodes[bid.value].data.price >= b.nodes[ask.value].data.price {
      assert CrossingPair(b, now, bid.value, ask.value);
      pair := Some((b.nodes[bid.value].data.id, b.nodes[ask.value].data.id));
    } else {
      pair := None;
    }
  }

  /** What the source's price-time priority means: better price first, then the earlier post. */
  lemma PriorityIsPriceTime(b: Book, w: Which, now: nat, i: nat, j: nat)
    requires !w.Seats? && BestLive(b, w, now, i) && On(b, w, j) && Live(b.nodes[j].data, now)
    ensures var d, e := b.nodes[i].data, b.nodes[j].data;
      && (if w.Long? then d.price >= e.price else d.price <= e.price)
      && (d.price == e.price ==> d.postSeq <= e.postSeq)
  {
  }
}
