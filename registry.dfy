/**
 * The live-analytics subscriber registry of backend/app/services/analytics.py:
 * the module-level set of open WebSocket connections, registration (which
 * sends the new subscriber a snapshot at once), removal, and the broadcast
 * that pushes a fresh unfiltered snapshot to every subscriber and drops the
 * ones whose send failed.
 *
 * A connection is an opaque handle. Whether a send to it fails is a
 * parameter (`failing`: the handles whose send raises), and what each send
 * puts on the wire is appended to `outbox`. The lock only serialises the set
 * updates of concurrent coroutines and is not modelled.
 */
module Registry {
  import opened Wrappers
  import opened Reviews
  import opened Aggregation

  /** An open WebSocket connection. */
  type Handle = nat

  /** `{"type": "analytics_snapshot", "summary": ...}`. */
  datatype Message = AnalyticsSnapshot(summary: Snapshot)

  /** One message sent to one connection. */
  datatype Delivery = Delivery(to: Handle, message: Message)

  /** The message every snapshot send carries: the unfiltered summary. */
  function SnapshotOf(store: Store): Message {
    AnalyticsSnapshot(Summary(store.reviews, None))
  }

  /** Compute the unfiltered summary and wrap it as a snapshot message; nothing when the
      summary cannot be computed. */
  method ComputeSnapshot(store: Store) returns (m: Option<Message>)
    ensures store.available ==> m == Some(SnapshotOf(store))
    ensures !store.available ==> m.None?
  {
    var summary := ComputeSummary(store, None);
    if summary.None? {
      return None;
    }
    return Some(AnalyticsSnapshot(summary.value));
  }

  predicate Distinct<T(==)>(s: seq<T>) {
    forall i, j :: 0 <= i < j < |s| ==> s[i] != s[j]
  }

  /** The deliveries of one broadcast pass over `targets`, in order: one per target whose
      send does not fail. */
  function Sends(targets: seq<Handle>, failing: set<Handle>, m: Message): (ds: seq<Delivery>)
    ensures |ds| <= |targets|
    ensures forall d :: d in ds ==> d.to in targets && d.to !in failing && d.message == m
  {
    if targets == [] then []
    else
      var front := Sends(targets[..|targets| - 1], failing, m);
      var h := targets[|targets| - 1];
      if h in failing then front else front + [Delivery(h, m)]
  }

  /** The targets of a pass whose send fails, in order. */
  function Dead(targets: seq<Handle>, failing: set<Handle>): (dead: seq<Handle>)
    ensures forall h :: h in dead <==> h in targets && h in failing
  {
    if targets == [] then []
    else
      var front := Dead(targets[..|targets| - 1], failing);
      var h := targets[|targets| - 1];
      if h in failing then front + [h] else front
  }

  /** A pass over every live connection finds dead exactly the live ones whose send fails. */
  lemma DeadAreFailingLive(targets: seq<Handle>, failing: set<Handle>, live: set<Handle>)
    requires forall h :: h in targets <==> h in live
    ensures (set h | h in Dead(targets, failing)) == live * failing
  {
  }

  /** How many of the deliveries go to `h`. */
  function DeliveriesTo(ds: seq<Delivery>, h: Handle): nat {
    if ds == [] then 0
    else DeliveriesTo(ds[..|ds| - 1], h) + (if ds[|ds| - 1].to == h then 1 else 0)
  }

  /** A pass sends a handle as many messages as `targets` lists it, unless its send fails,
      in which case it gets none. */
  lemma {:induction false} SendsPerTarget(targets: seq<Handle>, failing: set<Handle>, m: Message, h: Handle)
    ensures DeliveriesTo(Sends(targets, failing, m), h) == if h in failing then 0 else multiset(targets)[h]
  {
    if targets != [] {
      var front := targets[..|targets| - 1];
      var last := targets[|targets| - 1];
      assert targets == front + [last];
      SendsPerTarget(front, failing, m, h);
      var ds := Sends(front, failing, m);
      if last !in failing {
        assert (ds + [Delivery(last, m)])[..|ds|] == ds;
      }
    }
  }

  /** A broadcast over distinct targets reaches every target whose send succeeds exactly
      once, and nobody else. */
  lemma {:induction false} SendsReachEachOnce(targets: seq<Handle>, failing: set<Handle>, m: Message, h: Handle)
    requires Distinct(targets)
    ensures DeliveriesTo(Sends(targets, failing, m), h) == if h in targets && h !in failing then 1 else 0
  {
    if targets != [] {
      var front := targets[..|targets| - 1];
      var last := targets[|targets| - 1];
      assert targets == front + [last];
      SendsReachEachOnce(front, failing, m, h);
      var ds := Sends(front, failing, m);
      if last !in failing {
        assert (ds + [Delivery(last, m)])[..|ds|] == ds;
      }
      if h == last {
        assert h !in front;
      }
    }
  }

  /** The registry: `_connections`, plus what has been sent so far. `registered` is every
      connection ever accepted. */
  class SubscriberRegistry {
    var connections: set<Handle>
    var outbox: seq<Delivery>
    ghost var registered: set<Handle>

    /** Snapshots only ever go to connections that were accepted, and the live set is
        drawn from the accepted ones. */
    ghost predicate Valid()
      reads this
    {
      && connections <= registered
      && forall d :: d in outbox ==> d.to in registered
    }

    /** The module starts with no connections and nothing sent. */
    constructor ()
      ensures Valid()
      ensures connections == {} && outbox == [] && registered == {}
    {
      connections := {};
      outbox := [];
      registered := {};
    }

    /** `unregister_analytics_ws`: discard the connection; a missing one is no error. */
    method Unregister(h: Handle)
      requires Valid()
      modifies this
      ensures Valid()
      ensures connections == old(connections) - {h}
      ensures outbox == old(outbox) && registered == old(registered)
    {
      connections := connections - {h};
    }

    /** A send that succeeds: `m` goes on the wire to `h`. */
    method Deliver(h: Handle, m: Message)
      requires Valid() && h in registered
      modifies this
      ensures Valid()
      ensures outbox == old(outbox) + [Delivery(h, m)]
      ensures connections == old(connections) && registered == old(registered)
    {
      outbox := outbox + [Delivery(h, m)];
    }

    /** `_send_snapshot`: send `h` the current unfiltered summary. When the summary cannot be
        computed or the send fails, `h` is unregistered and nothing is sent. */
    method SendSnapshot(h: Handle, store: Store, failing: set<Handle>)
      requires Valid() && h in registered
      modifies this
      ensures Valid() && registered == old(registered)
      ensures store.available && h !in failing ==>
        connections == old(connections) && outbox == old(outbox) + [Delivery(h, SnapshotOf(store))]
      ensures !store.available || h in failing ==>
        connections == old(connections) - {h} && outbox == old(outbox)
    {
      var m := ComputeSnapshot(store);
      if m.None? || h in failing {
        Unregister(h);
        return;
      }
      Deliver(h, m.value);
    }

    /** `register_analytics_ws`: accept `h`, add it to the live set, then send it a snapshot. */
    method Register(h: Handle, store: Store, failing: set<Handle>)
      requires Valid()
      modifies this
      ensures Valid() && registered == old(registered) + {h}
      ensures store.available && h !in failing ==>
        connections == old(connections) + {h} && outbox == old(outbox) + [Delivery(h, SnapshotOf(store))]
      ensures !store.available || h in failing ==>
        connections == old(connections) - {h} && outbox == old(outbox)
    {
      registered := registered + {h};
      connections := connections + {h};
      SendSnapshot(h, store, failing);
    }

    /** `list(_connections)`: the live set as a list, in some order. */
    method Targets() returns (targets: seq<Handle>)
      ensures Distinct(targets)
      ensures forall h :: h in targets <==> h in connections
    {
      targets := [];
      var rest := connections;
      while rest != {}
        invariant Distinct(targets)
        invariant forall h :: h in targets ==> h !in rest
        invariant forall h :: h in connections <==> h in targets || h in rest
        decreases rest
      {
        var h :| h in rest;
        targets := targets + [h];
        rest := rest - {h};
      }
    }

    /** The send loop of a broadcast: `m` goes to each target in turn; the targets whose
        send fails are collected, in order. */
    method SendAll(targets: seq<Handle>, failing: set<Handle>, m: Message) returns (dead: seq<Handle>)
      requires Valid() && forall h :: h in targets ==> h in registered
      modifies this
      ensures Valid()
      ensures dead == Dead(targets, failing)
      ensures outbox == old(outbox) + Sends(targets, failing, m)
      ensures connections == old(connections) && registered == old(registered)
    {
      dead := [];
      for i := 0 to |targets|
        invariant Valid()
        invariant dead == Dead(targets[..i], failing)
        invariant outbox == old(outbox) + Sends(targets[..i], failing, m)
        invariant connections == old(connections) && registered == old(registered)
      {
        var ws := targets[i];
        assert targets[..i + 1][..i] == targets[..i];
        if ws in failing {
          dead := dead + [ws];
        } else {
          Deliver(ws, m);
        }
      }
      assert targets[..|targets|] == targets;
    }

    /** The pruning step of a broadcast: discard every connection in `dead`. */
    method DiscardAll(dead: seq<Handle>)
      requires Valid()
      modifies this
      ensures Valid()
      ensures connections == old(connections) - set h | h in dead
      ensures outbox == old(outbox) && registered == old(registered)
    {
      for i := 0 to |dead|
        invariant Valid()
        invariant connections == old(connections) - set h | h in dead[..i]
        invariant outbox == old(outbox) && registered == old(registered)
      {
        assert dead[..i + 1] == dead[..i] + [dead[i]];
        Unregister(dead[i]);
      }
      assert dead[..|dead|] == dead;
    }

    /** The part of a broadcast after the summary is computed: send `m` to every live
        connection once, in some order, then discard each one whose send failed. */
    method Publish(m: Message, failing: set<Handle>) returns (targets: seq<Handle>)
      requires Valid()
      modifies this
      ensures Valid() && registered == old(registered)
      ensures Distinct(targets)
      ensures forall h :: h in targets <==> h in old(connections)
      ensures outbox == old(outbox) + Sends(targets, failing, m)
      ensures connections == old(connections) - failing
    {
      targets := Targets();
      var dead := SendAll(targets, failing, m);
      DeadAreFailingLive(targets, failing, old(connections));
      if dead != [] {
        DiscardAll(dead);
      }
    }

    /** `broadcast_analytics_update`: when the unfiltered summary can be computed, publish it
        to every live connection; otherwise change nothing. Returns the order the connections
        were visited in. */
    method Broadcast(store: Store, failing: set<Handle>) returns (targets: seq<Handle>)
      requires Valid()
      modifies this
      ensures Valid() && registered == old(registered)
      ensures !store.available ==> targets == [] && connections == old(connections) && outbox == old(outbox)
      ensures store.available ==>
        && Distinct(targets)
        && (forall h :: h in targets <==> h in old(connections))
        && outbox == old(outbox) + Sends(targets, failing, SnapshotOf(store))
        && connections == old(connections) - failing
    {
      var m := ComputeSnapshot(store);
      if m.None? {
        return [];
      }
      targets := Publish(m.value, failing);
    }
  }
}
