/** The shape shared by the three collection loops of the collector: walk the
    repositories in order, and within each the items in listing order; read
    the clock at the top of every item and stop with what has been gathered
    once the elapsed time exceeds the budget; keep or drop each item by a
    rule that also tags it with its repository; an exception inside one
    repository ends that repository only.

    A run is flattened into "slots": one per pass through the top of the
    item loop, i.e. one per clock reading. */
module Bounded {
  import opened Common

  /** How the remote iteration of one repository ends. `RaisesOnFetch`: the
      listing (query or next page) raises before another item is handed out,
      so the clock is not read again. `RaisesBeforeCount` and
      `RaisesAfterCount`: one more item is handed out, the clock is read, and
      processing it raises, before or after the loop's item counter has been
      incremented for it. Either way the rest of that repository is skipped. */
  datatype Ending = Exhausted | RaisesOnFetch | RaisesBeforeCount | RaisesAfterCount
  {
    /** The ending reads the clock once more for an item that then raises. */
    predicate InItem() {
      this == RaisesBeforeCount || this == RaisesAfterCount
    }
  }

  /** What one repository yields: the items handed out before the listing
      ended, and how it ended. */
  datatype Listing<R> = Listing(items: seq<R>, ending: Ending)

  /** A repository's full name with its listing for one activity kind. */
  datatype Source<R> = Source(name: string, listing: Listing<R>)

  /** One clock reading at the top of the item loop, followed by an item to
      process or by the exception that ends the repository. */
  datatype Slot<R> = Item(repo: string, raw: R) | Broken(repo: string)

  function RepoSlots<R>(src: Source<R>): (r: seq<Slot<R>>)
    ensures |r| == |src.listing.items| + (if src.listing.ending.InItem() then 1 else 0)
    ensures forall i :: 0 <= i < |src.listing.items| ==> r[i] == Item(src.name, src.listing.items[i])
  {
    seq(|src.listing.items|, i requires 0 <= i < |src.listing.items| => Item(src.name, src.listing.items[i]))
    + (if src.listing.ending.InItem() then [Broken(src.name)] else [])
  }

  /** The slots of a whole run, repository after repository. */
  function AllSlots<R>(srcs: seq<Source<R>>): seq<Slot<R>>
  {
    if srcs == [] then [] else AllSlots(srcs[..|srcs| - 1]) + RepoSlots(srcs[|srcs| - 1])
  }

  /** What processing one slot appends to the accumulator. */
  function Kept<R, T>(slot: Slot<R>, rule: (string, R) -> Option<T>): seq<T>
  {
    match slot
    case Broken(_) => []
    case Item(repo, raw) =>
      match rule(repo, raw)
      case Some(e) => [e]
      case None => []
  }

  /** The accumulator after processing `slots` in order. */
  function Emitted<R, T>(slots: seq<Slot<R>>, rule: (string, R) -> Option<T>): seq<T>
  {
    if slots == [] then [] else Emitted(slots[..|slots| - 1], rule) + Kept(slots[|slots| - 1], rule)
  }

  /** Index of the first clock reading (among the first `n`) that exceeds the
      budget, or `n` when none does. */
  function Deadline(elapsed: nat -> int, timeout: int, n: nat): (d: nat)
    ensures d <= n
    ensures forall j :: 0 <= j < d ==> elapsed(j) <= timeout
    ensures d < n ==> elapsed(d) > timeout
  {
    FirstOver(elapsed, timeout, 0, n)
  }

  function FirstOver(elapsed: nat -> int, timeout: int, from: nat, n: nat): (d: nat)
    requires from <= n
    ensures from <= d <= n
    ensures forall j :: from <= j < d ==> elapsed(j) <= timeout
    ensures d < n ==> elapsed(d) > timeout
    decreases n - from
  {
    if from == n then n
    else if elapsed(from) > timeout then from
    else FirstOver(elapsed, timeout, from + 1, n)
  }

  /** The result of a time-boxed run: everything accumulated before the first
      clock reading that exceeds the budget. */
  function BoundedRun<R, T>(srcs: seq<Source<R>>, rule: (string, R) -> Option<T>,
                            elapsed: nat -> int, timeout: int): seq<T>
  {
    var slots := AllSlots(srcs);
    Emitted(slots[..Deadline(elapsed, timeout, |slots|)], rule)
  }

  /** Reference definition of an unbounded run: each repository's items,
      filtered and tagged, concatenated in repository order. */
  function Listed<R, T>(name: string, items: seq<R>, rule: (string, R) -> Option<T>): seq<T>
  {
    if items == [] then []
    else
      (match rule(name, items[0]) case Some(e) => [e] case None => [])
      + Listed(name, items[1..], rule)
  }

  function AllListed<R, T>(srcs: seq<Source<R>>, rule: (string, R) -> Option<T>): seq<T>
  {
    if srcs == [] then [] else Listed(srcs[0].name, srcs[0].listing.items, rule) + AllListed(srcs[1..], rule)
  }

  lemma {:induction false} EmittedAppend<R, T>(a: seq<Slot<R>>, b: seq<Slot<R>>, rule: (string, R) -> Option<T>)
    ensures Emitted(a + b, rule) == Emitted(a, rule) + Emitted(b, rule)
    decreases |b|
  {
    if b == [] {
      assert a + b == a;
    } else {
      var init := b[..|b| - 1];
      var last := b[|b| - 1];
      calc {
        Emitted(a + b, rule);
        { assert (a + b)[..|a + b| - 1] == a + init && (a + b)[|a + b| - 1] == last; }
        Emitted(a + init, rule) + Kept(last, rule);
        { EmittedAppend(a, init, rule); }
        Emitted(a, rule) + Emitted(init, rule) + Kept(last, rule);
        { AppendAssoc(Emitted(a, rule), Emitted(init, rule), Kept(last, rule)); }
        Emitted(a, rule) + Emitted(b, rule);
      }
    }
  }

  /** A repository's slots emit exactly what the reference lists for it: an
      exception ending the repository drops nothing already appended. */
  lemma {:induction false} RepoEmitted<R, T>(src: Source<R>, rule: (string, R) -> Option<T>)
    ensures Emitted(RepoSlots(src), rule) == Listed(src.name, src.listing.items, rule)
  {
    var items := src.listing.items;
    var s := RepoSlots(src);
    var n := |items|;
    ItemSlotsEmitted(src.name, items, rule);
    assert s == ItemSlots(src.name, items) + s[n..];
    EmittedAppend(ItemSlots(src.name, items), s[n..], rule);
    if src.listing.ending.InItem() {
      assert s[n..] == [] + [Broken(src.name)];
    } else {
      assert s[n..] == [];
    }
  }

  function ItemSlots<R>(name: string, items: seq<R>): (r: seq<Slot<R>>)
    ensures |r| == |items|
    ensures forall i :: 0 <= i < |items| ==> r[i] == Item(name, items[i])
  {
    seq(|items|, i requires 0 <= i < |items| => Item(name, items[i]))
  }

  lemma {:induction false} ItemSlotsEmitted<R, T>(name: string, items: seq<R>, rule: (string, R) -> Option<T>)
    ensures Emitted(ItemSlots(name, items), rule) == Listed(name, items, rule)
    decreases |items|
  {
    if items != [] {
      var first := Item(name, items[0]);
      var rest := ItemSlots(name, items[1..]);
      assert ItemSlots(name, items) == [first] + rest;
      assert Emitted([first], rule) == Kept(first, rule) by {
        assert [first][..0] == [];
      }
      calc {
        Emitted(ItemSlots(name, items), rule);
        Emitted([first] + rest, rule);
        { EmittedAppend([first], rest, rule); }
        Kept(first, rule) + Emitted(rest, rule);
        { ItemSlotsEmitted(name, items[1..], rule); }
        Kept(first, rule) + Listed(name, items[1..], rule);
        Listed(name, items, rule);
      }
    }
  }

  /** Without a deadline a run is the reference: repositories in order, each
      repository's kept items in listing order, no re-sort. */
  lemma {:induction false} UnboundedIsListed<R, T>(srcs: seq<Source<R>>, rule: (string, R) -> Option<T>)
    ensures Emitted(AllSlots(srcs), rule) == AllListed(srcs, rule)
    decreases |srcs|
  {
    if srcs != [] {
      var last := srcs[|srcs| - 1];
      var init := srcs[..|srcs| - 1];
      calc {
        Emitted(AllSlots(srcs), rule);
        Emitted(AllSlots(init) + RepoSlots(last), rule);
        { EmittedAppend(AllSlots(init), RepoSlots(last), rule); }
        Emitted(AllSlots(init), rule) + Emitted(RepoSlots(last), rule);
        { UnboundedIsListed(init, rule); RepoEmitted(last, rule); }
        AllListed(init, rule) + Listed(last.name, last.listing.items, rule);
        { AllListedSnoc(init, last, rule); }
        AllListed(init + [last], rule);
        { assert init + [last] == srcs; }
        AllListed(srcs, rule);
      }
    }
  }

  lemma {:induction false} AllListedSnoc<R, T>(srcs: seq<Source<R>>, last: Source<R>, rule: (string, R) -> Option<T>)
    ensures AllListed(srcs + [last], rule) == AllListed(srcs, rule) + Listed(last.name, last.listing.items, rule)
    decreases |srcs|
  {
    if srcs == [] {
      assert AllListed([last], rule) == Listed(last.name, last.listing.items, rule) + AllListed([], rule);
    } else {
      assert (srcs + [last])[1..] == srcs[1..] + [last];
      AllListedSnoc(srcs[1..], last, rule);
    }
  }

  /** A time-boxed run returns a prefix of the unbounded run. */
  lemma BoundedIsPrefix<R, T>(srcs: seq<Source<R>>, rule: (string, R) -> Option<T>, elapsed: nat -> int, timeout: int)
    ensures BoundedRun(srcs, rule, elapsed, timeout) <= AllListed(srcs, rule)
  {
    var slots := AllSlots(srcs);
    var d := Deadline(elapsed, timeout, |slots|);
    assert slots == slots[..d] + slots[d..];
    EmittedAppend(slots[..d], slots[d..], rule);
    UnboundedIsListed(srcs, rule);
  }

  /** With no clock reading over the budget, the run is the unbounded run. */
  lemma BoundedWithinBudget<R, T>(srcs: seq<Source<R>>, rule: (string, R) -> Option<T>, elapsed: nat -> int, timeout: int)
    requires forall k: nat :: elapsed(k) <= timeout
    ensures BoundedRun(srcs, rule, elapsed, timeout) == AllListed(srcs, rule)
  {
    var slots := AllSlots(srcs);
    assert slots[..|slots|] == slots;
    UnboundedIsListed(srcs, rule);
  }

  /** Every element of the reference comes from an item of some repository
      that the rule accepted under that repository's name. */
  lemma {:induction false} ListedSound<R, T>(name: string, items: seq<R>, rule: (string, R) -> Option<T>, e: T)
    requires e in Listed(name, items, rule)
    ensures exists raw :: raw in items && rule(name, raw) == Some(e)
    decreases |items|
  {
    if rule(name, items[0]) == Some(e) {
      assert items[0] in items;
    } else {
      ListedSound(name, items[1..], rule, e);
      var raw :| raw in items[1..] && rule(name, raw) == Some(e);
      assert raw in items;
    }
  }

  lemma {:induction false} AllListedSound<R, T>(srcs: seq<Source<R>>, rule: (string, R) -> Option<T>, e: T)
    requires e in AllListed(srcs, rule)
    ensures exists r, raw :: 0 <= r < |srcs| && raw in srcs[r].listing.items && rule(srcs[r].name, raw) == Some(e)
    decreases |srcs|
  {
    if e in Listed(srcs[0].name, srcs[0].listing.items, rule) {
      ListedSound(srcs[0].name, srcs[0].listing.items, rule, e);
      var raw :| raw in srcs[0].listing.items && rule(srcs[0].name, raw) == Some(e);
      assert 0 <= 0 < |srcs| && raw in srcs[0].listing.items && rule(srcs[0].name, raw) == Some(e);
    } else {
      AllListedSound(srcs[1..], rule, e);
      var r, raw :| 0 <= r < |srcs[1..]| && raw in srcs[1..][r].listing.items && rule(srcs[1..][r].name, raw) == Some(e);
      assert srcs[1..][r] == srcs[r + 1];
    }
  }

  /** An exception ends only its own repository: without a deadline, a run
      whose repository `r` ends in any other way emits the same records, in
      the same order, as if that listing had simply run out there. */
  lemma EndingOnlyEndsRepo<R, T>(srcs: seq<Source<R>>, rule: (string, R) -> Option<T>, r: nat, e: Ending)
    requires r < |srcs|
    ensures Emitted(AllSlots(srcs[r := Source(srcs[r].name, Listing(srcs[r].listing.items, e))]), rule)
            == Emitted(AllSlots(srcs), rule)
  {
    var changed := srcs[r := Source(srcs[r].name, Listing(srcs[r].listing.items, e))];
    UnboundedIsListed(changed, rule);
    UnboundedIsListed(srcs, rule);
    AllListedIgnoresEnding(srcs, rule, r, e);
  }

  lemma {:induction false} AllListedIgnoresEnding<R, T>(srcs: seq<Source<R>>, rule: (string, R) -> Option<T>,
                                                        r: nat, e: Ending)
    requires r < |srcs|
    ensures AllListed(srcs[r := Source(srcs[r].name, Listing(srcs[r].listing.items, e))], rule) == AllListed(srcs, rule)
    decreases |srcs|
  {
    var changed := srcs[r := Source(srcs[r].name, Listing(srcs[r].listing.items, e))];
    if r > 0 {
      assert changed[1..] == srcs[1..][r - 1 := Source(srcs[r].name, Listing(srcs[r].listing.items, e))];
      AllListedIgnoresEnding(srcs[1..], rule, r - 1, e);
    } else {
      assert changed[1..] == srcs[1..];
    }
  }

  /** Provenance of a time-boxed run's output. */
  lemma BoundedSound<R, T>(srcs: seq<Source<R>>, rule: (string, R) -> Option<T>, elapsed: nat -> int, timeout: int, e: T)
    requires e in BoundedRun(srcs, rule, elapsed, timeout)
    ensures exists r, raw :: 0 <= r < |srcs| && raw in srcs[r].listing.items && rule(srcs[r].name, raw) == Some(e)
  {
    BoundedIsPrefix(srcs, rule, elapsed, timeout);
    AllListedSound(srcs, rule, e);
  }

  /** Where the slots of repository `r` sit in the slots of the whole run. */
  lemma {:induction false} AllSlotsPrefix<R>(srcs: seq<Source<R>>, r: nat)
    requires r < |srcs|
    ensures AllSlots(srcs[..r]) + RepoSlots(srcs[r]) == AllSlots(srcs[..r + 1])
    ensures AllSlots(srcs[..r + 1]) <= AllSlots(srcs)
    decreases |srcs|
  {
    assert srcs[..r + 1][..r] == srcs[..r];
    if r + 1 < |srcs| {
      var init := srcs[..|srcs| - 1];
      assert init[..r + 1] == srcs[..r + 1];
      assert init[..r] == srcs[..r];
      AllSlotsPrefix(init, r);
    } else {
      assert srcs[..r + 1] == srcs;
    }
  }

  /** The `i`-th slot of repository `r` is slot `|AllSlots(srcs[..r])| + i`
      of the run, and the run's slot count grows repository by repository. */
  lemma SlotOf<R>(srcs: seq<Source<R>>, r: nat, i: nat)
    requires r < |srcs| && i < |RepoSlots(srcs[r])|
    ensures |AllSlots(srcs[..r])| + i < |AllSlots(srcs)|
    ensures AllSlots(srcs)[|AllSlots(srcs[..r])| + i] == RepoSlots(srcs[r])[i]
  {
    AllSlotsPrefix(srcs, r);
  }

  /** Appending the kept form of the `i`-th item extends the reference by
      one item. */
  lemma ListedSnoc<R, T>(name: string, items: seq<R>, rule: (string, R) -> Option<T>, i: nat)
    requires i < |items|
    ensures Listed(name, items[..i + 1], rule) == Listed(name, items[..i], rule) + Kept(Item(name, items[i]), rule)
  {
    var s := ItemSlots(name, items[..i + 1]);
    assert s[..i] == ItemSlots(name, items[..i]);
    assert s[i] == Item(name, items[i]);
    ItemSlotsEmitted(name, items[..i + 1], rule);
    ItemSlotsEmitted(name, items[..i], rule);
  }

  /** The number of repositories whose listing ends with an exception raised
      after the item counter was incremented: each leaves a loop's counter
      one ahead of the records it appended. The counter equals the number
      of records exactly when no repository ends that way. */
  function CountedRaises<R>(srcs: seq<Source<R>>): (n: nat)
    ensures n <= |srcs|
    ensures n == 0 <==> forall i :: 0 <= i < |srcs| ==> srcs[i].listing.ending != RaisesAfterCount
  {
    if srcs == [] then 0
    else CountedRaises(srcs[..|srcs| - 1]) + (if srcs[|srcs| - 1].listing.ending == RaisesAfterCount then 1 else 0)
  }

  /** Moving on to the next repository: the reference grows by that
      repository's listing, the clock readings by its slots, and the
      counted raises by its ending. */
  lemma NextRepo<R, T>(srcs: seq<Source<R>>, rule: (string, R) -> Option<T>, r: nat)
    requires r < |srcs|
    ensures AllListed(srcs[..r + 1], rule) == AllListed(srcs[..r], rule) + Listed(srcs[r].name, srcs[r].listing.items, rule)
    ensures |AllSlots(srcs[..r + 1])| == |AllSlots(srcs[..r])| + |RepoSlots(srcs[r])| <= |AllSlots(srcs)|
    ensures CountedRaises(srcs[..r + 1]) ==
              CountedRaises(srcs[..r]) + (if srcs[r].listing.ending == RaisesAfterCount then 1 else 0)
  {
    assert srcs[..r + 1][..r] == srcs[..r];
    assert srcs[..r] + [srcs[r]] == srcs[..r + 1];
    AllListedSnoc(srcs[..r], srcs[r], rule);
    AllSlotsPrefix(srcs, r);
  }

  lemma PrefixOfPrefix<T>(u: seq<T>, s: seq<T>, k: nat)
    requires u <= s && k <= |u|
    ensures s[..k] == u[..k]
  {
  }

  lemma PrefixOfAppend<T>(a: seq<T>, b: seq<T>, i: nat)
    requires i <= |b|
    ensures (a + b)[..|a| + i] == a + b[..i]
  {
  }

  /** A run whose clock first exceeds the budget at the `i`-th reading inside
      repository `r` returns the reference of the earlier repositories
      followed by the kept part of the first `i` items of repository `r`. */
  lemma RunStopsIn<R, T>(srcs: seq<Source<R>>, rule: (string, R) -> Option<T>, elapsed: nat -> int, timeout: int,
                         r: nat, i: nat, k: nat)
    requires r < |srcs| && i < |RepoSlots(srcs[r])| && k == |AllSlots(srcs[..r])| + i
    requires k <= Deadline(elapsed, timeout, |AllSlots(srcs)|) && elapsed(k) > timeout
    ensures BoundedRun(srcs, rule, elapsed, timeout) == AllListed(srcs[..r], rule) + Listed(srcs[r].name, srcs[r].listing.items[..i], rule)
  {
    var slots := AllSlots(srcs);
    var before := AllSlots(srcs[..r]);
    var mine := RepoSlots(srcs[r]);
    AllSlotsPrefix(srcs, r);
    assert Deadline(elapsed, timeout, |slots|) == k;
    var upto := AllSlots(srcs[..r + 1]);
    PrefixOfPrefix(upto, slots, k);
    PrefixOfAppend(before, mine, i);
    assert slots[..k] == before + mine[..i];
    assert mine[..i] == ItemSlots(srcs[r].name, srcs[r].listing.items[..i]);
    EmittedAppend(before, mine[..i], rule);
    UnboundedIsListed(srcs[..r], rule);
    ItemSlotsEmitted(srcs[r].name, srcs[r].listing.items[..i], rule);
  }

  /** A reading within the budget, before the deadline, moves the run past it. */
  lemma RunContinues(elapsed: nat -> int, timeout: int, n: nat, k: nat)
    requires k < n && k <= Deadline(elapsed, timeout, n)
    requires elapsed(k) <= timeout
    ensures k + 1 <= Deadline(elapsed, timeout, n)
  {
  }

  /** A run that reaches the end of its slots returns the reference. */
  lemma RunCompletes<R, T>(srcs: seq<Source<R>>, rule: (string, R) -> Option<T>, elapsed: nat -> int, timeout: int)
    requires Deadline(elapsed, timeout, |AllSlots(srcs)|) >= |AllSlots(srcs)|
    ensures BoundedRun(srcs, rule, elapsed, timeout) == AllListed(srcs, rule)
  {
    var slots := AllSlots(srcs);
    assert slots[..|slots|] == slots;
    UnboundedIsListed(srcs, rule);
  }
}
