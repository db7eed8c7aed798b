/** Model of src/market-data/pair-persistence-coordinator.ts: one chain of physical writes
    per pair, which outlives state machines and engine runs. */
module Coordinator {
  import opened Common

  /** A write: not yet attempted, executing, or settled. */
  datatype Status = Waiting | Running | Settled(ok: bool)

  /** `previous` is the tail that the write found when it was enqueued, and waits for. */
  datatype Ticket = Ticket(pair: string, previous: Option<nat>, status: Status)

  /** Tickets in the order they were issued, and the newest ticket of each pair. */
  datatype Chains = Chains(tickets: seq<Ticket>, tails: map<string, nat>)

  const NO_CHAINS: Chains := Chains([], map[])

  function TailOf(c: Chains, pair: string): Option<nat> {
    if pair in c.tails then Some(c.tails[pair]) else None
  }

  function Enqueued(c: Chains, pair: string): Chains {
    Chains(c.tickets + [Ticket(pair, TailOf(c, pair), Waiting)], c.tails[pair := |c.tickets|])
  }

  function WithStatus(c: Chains, k: nat, status: Status): Chains
    requires k < |c.tickets|
  {
    c.(tickets := c.tickets[k := c.tickets[k].(status := status)])
  }

  predicate Done(c: Chains, tail: Option<nat>) {
    tail.Some? ==> tail.value < |c.tickets| && c.tickets[tail.value].status.Settled?
  }

  /** The write may be attempted: the tail it waits for has settled, successfully or not. */
  predicate Ready(c: Chains, k: nat) {
    k < |c.tickets| && c.tickets[k].status.Waiting? && Done(c, c.tickets[k].previous)
  }

  // ------------------------------------------------------------- invariant

  ghost predicate Linked(c: Chains) {
    && (forall k :: 0 <= k < |c.tickets| ==> IsLast(c, c.tickets[k].pair, k, c.tickets[k].previous))
    && (forall pair :: IsLast(c, pair, |c.tickets|, TailOf(c, pair)))
    && (forall k :: 0 <= k < |c.tickets| && !c.tickets[k].status.Waiting? ==> Done(c, c.tickets[k].previous))
  }

  /** `last` is the newest ticket of `pair` before position `before`. */
  ghost predicate IsLast(c: Chains, pair: string, before: nat, last: Option<nat>)
    requires before <= |c.tickets|
  {
    && (last.None? ==> forall j :: 0 <= j < before ==> c.tickets[j].pair != pair)
    && (last.Some? ==> last.value < before && c.tickets[last.value].pair == pair
                       && forall j :: last.value < j < before ==> c.tickets[j].pair != pair)
  }

  lemma {:induction false} EnqueueingLinks(c: Chains, pair: string)
    requires Linked(c)
    ensures Linked(Enqueued(c, pair))
  {
    var c' := Enqueued(c, pair);
    forall k | 0 <= k < |c'.tickets| ensures IsLast(c', c'.tickets[k].pair, k, c'.tickets[k].previous) {
      assert k < |c.tickets| ==> IsLast(c, c.tickets[k].pair, k, c.tickets[k].previous);
      assert IsLast(c, pair, |c.tickets|, TailOf(c, pair));
    }
    forall other ensures IsLast(c', other, |c'.tickets|, TailOf(c', other)) {
      assert IsLast(c, other, |c.tickets|, TailOf(c, other));
    }
  }

  lemma {:induction false} StartingLinks(c: Chains, k: nat)
    requires Linked(c) && Ready(c, k)
    ensures Linked(WithStatus(c, k, Running))
  {
    RestatingLinks(c, k, Running);
  }

  lemma {:induction false} SettlingLinks(c: Chains, k: nat, ok: bool)
    requires Linked(c) && k < |c.tickets| && c.tickets[k].status.Running?
    ensures Linked(WithStatus(c, k, Settled(ok)))
  {
    RestatingLinks(c, k, Settled(ok));
  }

  lemma {:induction false} RestatingLinks(c: Chains, k: nat, status: Status)
    requires Linked(c) && k < |c.tickets| && !c.tickets[k].status.Settled? && Done(c, c.tickets[k].previous)
    ensures Linked(WithStatus(c, k, status))
  {
    var c' := WithStatus(c, k, status);
    forall j | 0 <= j < |c'.tickets| ensures IsLast(c', c'.tickets[j].pair, j, c'.tickets[j].previous) {
      assert IsLast(c, c.tickets[j].pair, j, c.tickets[j].previous);
    }
    forall pair ensures IsLast(c', pair, |c'.tickets|, TailOf(c', pair)) {
      assert IsLast(c, pair, |c.tickets|, TailOf(c, pair));
    }
  }

  // -------------------------------------------------------------- theorems

  /** Strict first-in, first-out per pair: once a write has been attempted, every earlier
      write of its pair has settled. So writes of one pair never overlap. */
  lemma {:induction false} FirstInFirstOut(c: Chains, j: nat, k: nat)
    requires Linked(c) && j < k < |c.tickets| && c.tickets[j].pair == c.tickets[k].pair
    requires !c.tickets[k].status.Waiting?
    ensures c.tickets[j].status.Settled?
    decreases k
  {
    assert IsLast(c, c.tickets[k].pair, k, c.tickets[k].previous);
    var p := c.tickets[k].previous.value;
    assert c.tickets[p].status.Settled?;
    if j < p {
      FirstInFirstOut(c, j, p);
    }
  }

  /** A settled tail means that every write enqueued for the pair so far has settled. */
  lemma {:induction false} SettledTailMeansAllSettled(c: Chains, pair: string, j: nat)
    requires Linked(c) && Done(c, TailOf(c, pair)) && j < |c.tickets| && c.tickets[j].pair == pair
    ensures c.tickets[j].status.Settled?
  {
    assert IsLast(c, pair, |c.tickets|, TailOf(c, pair));
    if j < c.tails[pair] {
      FirstInFirstOut(c, j, c.tails[pair]);
    }
  }

  /** Pairs are isolated: what happens to another pair's writes neither blocks nor releases a write. */
  lemma {:induction false} PairsAreIsolated(c: Chains, k: nat, other: nat, status: Status)
    requires Linked(c) && k < |c.tickets| && other < |c.tickets| && c.tickets[k].pair != c.tickets[other].pair
    ensures Ready(WithStatus(c, other, status), k) <==> Ready(c, k)
    ensures TailOf(WithStatus(c, other, status), c.tickets[k].pair) == TailOf(c, c.tickets[k].pair)
  {
    assert IsLast(c, c.tickets[k].pair, k, c.tickets[k].previous);
  }

  /** Progress: unless everything has settled, some write is executing or may be attempted. */
  lemma {:induction false} SomethingCanMove(c: Chains, k: nat)
    requires Linked(c) && k < |c.tickets| && !c.tickets[k].status.Settled?
    ensures exists j :: 0 <= j <= k && c.tickets[j].pair == c.tickets[k].pair && (c.tickets[j].status.Running? || Ready(c, j))
    decreases k
  {
    assert IsLast(c, c.tickets[k].pair, k, c.tickets[k].previous);
    if c.tickets[k].status.Running? || Done(c, c.tickets[k].previous) {
      assert c.tickets[k].status.Running? || Ready(c, k);
    } else {
      SomethingCanMove(c, c.tickets[k].previous.value);
    }
  }

  /** With a single pair the chain is simply the list of its writes, as the engine model has it. */
  lemma {:induction false} SinglePairIsAList(c: Chains, pair: string, k: nat)
    requires Linked(c) && k < |c.tickets| && (forall j :: 0 <= j < |c.tickets| ==> c.tickets[j].pair == pair)
    ensures c.tickets[k].previous == if k == 0 then None else Some(k - 1)
    ensures c.tickets[k].status.Waiting? ==> (Ready(c, k) <==> k == 0 || c.tickets[k - 1].status.Settled?)
    ensures TailOf(c, pair) == Some(|c.tickets| - 1)
  {
    hide Linked, IsLast;
    LinksAreLast(c, pair, k);
    OnlyTheLastIsLast(c, pair, k, c.tickets[k].previous);
    OnlyTheLastIsLast(c, pair, |c.tickets|, TailOf(c, pair));
  }

  lemma {:induction false} LinksAreLast(c: Chains, pair: string, k: nat)
    requires Linked(c) && k < |c.tickets| && c.tickets[k].pair == pair
    ensures IsLast(c, pair, k, c.tickets[k].previous) && IsLast(c, pair, |c.tickets|, TailOf(c, pair))
  {
    hide IsLast, TailOf;
  }

  lemma {:induction false} OnlyTheLastIsLast(c: Chains, pair: string, before: nat, last: Option<nat>)
    requires before <= |c.tickets| && (forall j :: 0 <= j < before ==> c.tickets[j].pair == pair) && IsLast(c, pair, before, last)
    ensures last == if before == 0 then None else Some(before - 1)
  {
    assert before > 0 ==> c.tickets[before - 1].pair == pair;
  }

  // ------------------------------------------------------------- the class

  class PairPersistenceCoordinator {
    var tickets: seq<Ticket>
    var tails: map<string, nat>

    ghost function View(): Chains
      reads this
    {
      Chains(tickets, tails)
    }

    ghost predicate Valid()
      reads this
    {
      Linked(View())
    }

    constructor ()
      ensures Valid() && View() == NO_CHAINS
    {
      tickets, tails := [], map[];
    }

    /** `enqueueWrite` up to its await: the write joins the pair's chain behind the current tail. */
    method EnqueueWrite(pair: string) returns (ticket: nat)
      requires Valid()
      modifies this
      ensures Valid() && View() == Enqueued(old(View()), pair)
      ensures ticket == |old(tickets)| && tickets[ticket].previous == TailOf(old(View()), pair)
    {
      EnqueueingLinks(View(), pair);
      var previous := if pair in tails then Some(tails[pair]) else None;
      ticket := |tickets|;
      tickets := tickets + [Ticket(pair, previous, Waiting)];
      tails := tails[pair := ticket];
    }

    /** The previous tail has settled: the physical write is attempted. */
    method Attempt(ticket: nat)
      requires Valid() && Ready(View(), ticket)
      modifies this`tickets
      ensures Valid() && View() == WithStatus(old(View()), ticket, Running)
      ensures forall j :: 0 <= j < |tickets| && j != ticket && tickets[j].pair == tickets[ticket].pair ==> !tickets[j].status.Running?
    {
      StartingLinks(View(), ticket);
      tickets := tickets[ticket := tickets[ticket].(status := Running)];
      OnlyOneRuns(View(), ticket);
    }

    /** The physical write has succeeded or failed; its tail is settled accordingly. */
    method Settle(ticket: nat, ok: bool)
      requires Valid() && ticket < |tickets| && tickets[ticket].status.Running?
      modifies this`tickets
      ensures Valid() && View() == WithStatus(old(View()), ticket, Settled(ok))
    {
      SettlingLinks(View(), ticket, ok);
      tickets := tickets[ticket := tickets[ticket].(status := Settled(ok))];
    }

    /** `awaitSettled`: the tail whose settlement the caller awaits, if there is one. */
    method AwaitSettled(pair: string) returns (tail: Option<nat>)
      requires Valid()
      ensures tail == TailOf(View(), pair)
      ensures Done(View(), tail) ==> forall j :: 0 <= j < |tickets| && tickets[j].pair == pair ==> tickets[j].status.Settled?
      ensures tail.None? ==> forall j :: 0 <= j < |tickets| ==> tickets[j].pair != pair
    {
      tail := if pair in tails then Some(tails[pair]) else None;
      assert IsLast(View(), pair, |tickets|, TailOf(View(), pair));
      if Done(View(), tail) {
        forall j | 0 <= j < |tickets| && tickets[j].pair == pair ensures tickets[j].status.Settled? {
          SettledTailMeansAllSettled(View(), pair, j);
        }
      }
    }
  }

  lemma {:induction false} OnlyOneRuns(c: Chains, k: nat)
    requires Linked(c) && k < |c.tickets| && c.tickets[k].status.Running?
    ensures forall j :: 0 <= j < |c.tickets| && j != k && c.tickets[j].pair == c.tickets[k].pair ==> !c.tickets[j].status.Running?
  {
    forall j | 0 <= j < |c.tickets| && j != k && c.tickets[j].pair == c.tickets[k].pair ensures !c.tickets[j].status.Running? {
      if j < k {
        FirstInFirstOut(c, j, k);
      } else if !c.tickets[j].status.Waiting? {
        FirstInFirstOut(c, k, j);
      }
    }
  }
}
