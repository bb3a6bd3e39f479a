/**
 * The subscriber list of the notification fan-out, as values: an ordered
 * list of buffered channels of capacity 10, the non-blocking broadcast
 * into them, and the removal of one channel at teardown.
 */
module Fanout {
  import opened Types

  /** The buffer size of every subscriber channel. */
  const Capacity: nat := 10

  /** A subscriber channel: its identity and the notifications buffered in it, oldest first. */
  datatype Channel = Channel(id: nat, buffer: seq<McpNotification>)

  predicate HasRoom(c: Channel) {
    |c.buffer| < Capacity
  }

  /** A non-blocking send: enqueue when the buffer has room, otherwise drop. */
  function Offer(c: Channel, n: McpNotification): Channel {
    if HasRoom(c) then c.(buffer := c.buffer + [n]) else c
  }

  /** A send on every channel of the list, in order. */
  function Broadcast(subs: seq<Channel>, n: McpNotification): seq<Channel> {
    if subs == [] then [] else [Offer(subs[0], n)] + Broadcast(subs[1..], n)
  }

  /** No channel holds more than its capacity. */
  predicate Bounded(subs: seq<Channel>) {
    forall i :: 0 <= i < |subs| ==> |subs[i].buffer| <= Capacity
  }

  /** No channel occurs twice in the list. */
  predicate DistinctIds(subs: seq<Channel>) {
    forall i, j :: 0 <= i < j < |subs| ==> subs[i].id != subs[j].id
  }

  /**
   * Broadcasting keeps the list's length and order; each channel with room
   * gains the notification at its end, and each full channel is untouched.
   */
  lemma {:induction false} BroadcastAt(subs: seq<Channel>, n: McpNotification, i: int)
    requires 0 <= i < |subs|
    ensures |Broadcast(subs, n)| == |subs|
    ensures Broadcast(subs, n)[i].id == subs[i].id
    ensures HasRoom(subs[i]) ==> Broadcast(subs, n)[i].buffer == subs[i].buffer + [n]
    ensures !HasRoom(subs[i]) ==> Broadcast(subs, n)[i] == subs[i]
  {
    if i == 0 {
      if |subs| > 1 {
        BroadcastAt(subs[1..], n, 0);
      }
    } else {
      BroadcastAt(subs[1..], n, i - 1);
    }
  }

  /** The broadcast is the pointwise send. */
  lemma BroadcastPointwise(subs: seq<Channel>, n: McpNotification, r: seq<Channel>)
    requires |r| == |subs|
    requires forall i :: 0 <= i < |subs| ==> r[i] == Offer(subs[i], n)
    ensures r == Broadcast(subs, n)
  {
    if subs == [] {
      assert r == [];
    } else {
      BroadcastAt(subs, n, 0);
      forall i | 0 <= i < |subs|
        ensures r[i] == Broadcast(subs, n)[i]
      {
        BroadcastAt(subs, n, i);
      }
    }
  }

  /** Broadcasting keeps the capacity bound and the identities of the subscribers. */
  lemma BroadcastKeepsShape(subs: seq<Channel>, n: McpNotification)
    requires Bounded(subs)
    ensures Bounded(Broadcast(subs, n))
    ensures |Broadcast(subs, n)| == |subs|
    ensures forall i :: 0 <= i < |subs| ==> Broadcast(subs, n)[i].id == subs[i].id
  {
    if subs == [] {
    } else {
      BroadcastAt(subs, n, 0);
      forall i | 0 <= i < |subs|
        ensures |Broadcast(subs, n)[i].buffer| <= Capacity && Broadcast(subs, n)[i].id == subs[i].id
      {
        BroadcastAt(subs, n, i);
      }
    }
  }

  /** Teardown: drop the first channel with the given identity; keep all else in order. */
  function RemoveFirst(subs: seq<Channel>, id: nat): seq<Channel> {
    if subs == [] then []
    else if subs[0].id == id then subs[1..]
    else [subs[0]] + RemoveFirst(subs[1..], id)
  }

  /** When `k` is the first position holding the channel, teardown splices out exactly position `k`. */
  lemma {:induction false} RemoveFirstSplices(subs: seq<Channel>, id: nat, k: int)
    requires 0 <= k < |subs| && subs[k].id == id
    requires forall j :: 0 <= j < k ==> subs[j].id != id
    ensures RemoveFirst(subs, id) == subs[..k] + subs[k + 1..]
  {
    if k > 0 {
      RemoveFirstSplices(subs[1..], id, k - 1);
      assert subs[1..][..k - 1] + subs[1..][k..] == subs[1..k] + subs[k + 1..];
      assert [subs[0]] + subs[1..k] == subs[..k];
    }
  }

  /** Teardown of a channel that is not in the list changes nothing. */
  lemma {:induction false} RemoveFirstAbsent(subs: seq<Channel>, id: nat)
    requires forall j :: 0 <= j < |subs| ==> subs[j].id != id
    ensures RemoveFirst(subs, id) == subs
  {
    if subs != [] {
      RemoveFirstAbsent(subs[1..], id);
    }
  }

  /** Registering a new channel and tearing it down again restores the list. */
  lemma RegisterThenRemove(subs: seq<Channel>, c: Channel)
    requires forall j :: 0 <= j < |subs| ==> subs[j].id != c.id
    ensures RemoveFirst(subs + [c], c.id) == subs
  {
    var s := subs + [c];
    RemoveFirstSplices(s, c.id, |subs|);
    assert s[..|subs|] == subs;
  }

  /** Splicing one position out keeps the capacity bound and the distinctness of identities. */
  lemma SpliceKeepsShape(subs: seq<Channel>, k: int)
    requires 0 <= k < |subs| && Bounded(subs) && DistinctIds(subs)
    ensures Bounded(subs[..k] + subs[k + 1..]) && DistinctIds(subs[..k] + subs[k + 1..])
    ensures forall c :: c in subs[..k] + subs[k + 1..] ==> c in subs
  {
    var r := subs[..k] + subs[k + 1..];
    assert forall i :: 0 <= i < |r| ==> r[i] == if i < k then subs[i] else subs[i + 1];
  }
}
