/**
 * Fan-out of one event to an ordered list of receivers. Each receiver call that a
 * notification loop makes is recorded as one Delivery in an append-only log, so
 * "every listener, in list order" becomes a statement about that log.
 */
module Fanout {

  /** One event handed to one receiver. */
  datatype Delivery<L, E> = Delivery(target: L, event: E)

  /** The deliveries made by a loop that hands `e` to each element of `targets`, front to back. */
  function Broadcast<L, E>(targets: seq<L>, e: E): (r: seq<Delivery<L, E>>)
    ensures |r| == |targets|
    ensures forall i :: 0 <= i < |targets| ==> r[i] == Delivery(targets[i], e)
  {
    if targets == [] then [] else [Delivery(targets[0], e)] + Broadcast(targets[1..], e)
  }

  /** Notifying a list in two halves is notifying the whole list: what each loop step relies on. */
  lemma BroadcastAppend<L, E>(a: seq<L>, b: seq<L>, e: E)
    ensures Broadcast(a + b, e) == Broadcast(a, e) + Broadcast(b, e)
  {
  }

  /** The receivers that a log segment was delivered to, in order. */
  function Targets<L, E>(log: seq<Delivery<L, E>>): (r: seq<L>)
    ensures |r| == |log|
    ensures forall i :: 0 <= i < |log| ==> r[i] == log[i].target
  {
    if log == [] then [] else [log[0].target] + Targets(log[1..])
  }

  /** Broadcast is undone by reading off the targets: every receiver is reached once, in list order. */
  lemma {:induction false} BroadcastTargets<L, E>(targets: seq<L>, e: E)
    ensures Targets(Broadcast(targets, e)) == targets
  {
    if targets != [] {
      BroadcastTargets(targets[1..], e);
    }
  }
}
