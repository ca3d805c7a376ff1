/**
  The per-ticket subscriber registry of backend/app/core/websocket.py: a map
  from ticket id to the set of live connections watching that ticket.
  Connections are opaque identities of type `C`; whether sending to one of
  them fails is an oracle `fails`. Accepting a socket and the message sent are
  I/O and are not modelled.
*/
module Websocket {

  /** Every ticket that has an entry has at least one connection. */
  ghost predicate NoEmptyEntries<C>(m: map<string, set<C>>) {
    forall t :: t in m ==> m[t] != {}
  }

  /** `connect`: add `c` to the set of ticket `t`, creating the entry if needed. */
  function ConnectSpec<C>(m: map<string, set<C>>, c: C, t: string): (r: map<string, set<C>>)
    ensures t in r && c in r[t]
    ensures t in m ==> r[t] == m[t] + {c}
    ensures t !in m ==> r[t] == {c}
    ensures r.Keys == m.Keys + {t}
    ensures forall u :: u in m && u != t ==> r[u] == m[u]
  {
    m[t := (if t in m then m[t] else {}) + {c}]
  }

  /** Remove the connections `s` from ticket `t`, dropping an entry left empty. */
  function Evict<C>(m: map<string, set<C>>, t: string, s: set<C>): (r: map<string, set<C>>)
    ensures t !in m ==> r == m
    ensures t in m && m[t] - s == {} ==> t !in r
    ensures t in m && m[t] - s != {} ==> t in r && r[t] == m[t] - s
    ensures forall u :: u != t ==> (u in r <==> u in m) && (u in m ==> r[u] == m[u])
  {
    if t !in m then m
    else if m[t] - s == {} then m - {t}
    else m[t := m[t] - s]
  }

  /** `disconnect`: forget `c` for ticket `t`; a no-op for an unknown ticket. */
  function DisconnectSpec<C>(m: map<string, set<C>>, c: C, t: string): map<string, set<C>> {
    Evict(m, t, {c})
  }

  lemma ConnectKeepsInvariant<C>(m: map<string, set<C>>, c: C, t: string)
    requires NoEmptyEntries(m)
    ensures NoEmptyEntries(ConnectSpec(m, c, t))
  {
  }

  lemma EvictKeepsInvariant<C>(m: map<string, set<C>>, t: string, s: set<C>)
    requires NoEmptyEntries(m)
    ensures NoEmptyEntries(Evict(m, t, s))
  {
  }

  /** Connecting twice is connecting once. */
  lemma ConnectIdempotent<C>(m: map<string, set<C>>, c: C, t: string)
    ensures ConnectSpec(ConnectSpec(m, c, t), c, t) == ConnectSpec(m, c, t)
  {
    var once := ConnectSpec(m, c, t);
    assert once[t] + {c} == once[t];
  }

  /** Disconnecting right after connecting to a fresh ticket leaves the registry as it was. */
  lemma ConnectThenDisconnect<C>(m: map<string, set<C>>, c: C, t: string)
    requires t !in m
    ensures DisconnectSpec(ConnectSpec(m, c, t), c, t) == m
  {
    assert ConnectSpec(m, c, t) - {t} == m;
  }

  lemma EvictNothing<C>(m: map<string, set<C>>, t: string)
    requires NoEmptyEntries(m)
    ensures Evict(m, t, {}) == m
  {
    if t in m {
      assert m[t] - {} == m[t];
      assert m[t := m[t]] == m;
    }
  }

  /** Evicting connections one at a time is evicting them all at once. */
  lemma EvictOneMore<C>(m: map<string, set<C>>, t: string, s: set<C>, c: C)
    ensures DisconnectSpec(Evict(m, t, s), c, t) == Evict(m, t, s + {c})
  {
    if t in m && m[t] - s != {} {
      assert (m[t] - s) - {c} == m[t] - (s + {c});
      if m[t] - (s + {c}) != {} {
        assert m[t := m[t] - s][t := m[t] - (s + {c})] == m[t := m[t] - (s + {c})];
      } else {
        assert m[t := m[t] - s] - {t} == m - {t};
      }
    }
  }

  /** The connections of `snapshot` whose send failed. */
  function Failed<C>(snapshot: set<C>, fails: C -> bool): set<C> {
    set c | c in snapshot && fails(c)
  }

  predicate Distinct<C(==)>(s: seq<C>) {
    forall i, j :: 0 <= i < j < |s| ==> s[i] != s[j]
  }

  class ConnectionManager<C(==)> {
    var active: map<string, set<C>>

    ghost predicate Valid()
      reads this
    {
      NoEmptyEntries(active)
    }

    constructor ()
      ensures Valid() && active == map[]
    {
      active := map[];
    }

    method Connect(c: C, t: string)
      requires Valid()
      modifies this
      ensures Valid() && active == ConnectSpec(old(active), c, t)
    {
      if t !in active {
        active := active[t := {}];
      }
      active := active[t := active[t] + {c}];
    }

    method Disconnect(c: C, t: string)
      requires Valid()
      modifies this
      ensures Valid() && active == DisconnectSpec(old(active), c, t)
    {
      if t in active {
        active := active[t := active[t] - {c}];
        if active[t] == {} {
          active := active - {t};
        }
      }
    }

    /** Sends to every connection of ticket `t` (as it stood on entry), once
        each, in `attempts`; then evicts exactly those whose send failed. */
    method Broadcast(t: string, fails: C -> bool) returns (attempts: seq<C>)
      requires Valid()
      modifies this
      ensures Valid()
      ensures t !in old(active) ==> attempts == [] && active == old(active)
      ensures t in old(active) ==> Distinct(attempts) && forall c :: c in attempts <==> c in old(active)[t]
      ensures t in old(active) ==> active == Evict(old(active), t, Failed(old(active)[t], fails))
    {
      attempts := [];
      if t !in active {
        return;
      }
      var disconnected;
      attempts, disconnected := SendAll(active[t], fails);
      DisconnectAll(disconnected, t);
    }

    /** The clean-up loop of `broadcast`: `disconnect` each of `s` from `t`. */
    method DisconnectAll(s: set<C>, t: string)
      requires Valid()
      modifies this
      ensures Valid() && active == Evict(old(active), t, s)
    {
      var pending := s;
      ghost var dropped: set<C> := {};
      EvictNothing(old(active), t);
      while pending != {}
        invariant Valid()
        invariant dropped + pending == s && dropped !! pending
        invariant active == Evict(old(active), t, dropped)
        decreases |pending|
      {
        var c :| c in pending;
        Disconnect(c, t);
        EvictOneMore(old(active), t, dropped, c);
        dropped := dropped + {c};
        pending := pending - {c};
      }
    }
  }

  /** Moving `c` from the remaining connections to those seen. */
  lemma MoveOne<C>(seen: set<C>, remaining: set<C>, snapshot: set<C>, c: C)
    requires seen + remaining == snapshot && seen !! remaining && c in remaining
    ensures (seen + {c}) + (remaining - {c}) == snapshot && (seen + {c}) !! (remaining - {c})
    ensures |remaining - {c}| < |remaining|
  {
  }

  /** One more send: the attempts stay distinct and cover the connections
      seen so far, and the failures gain `c` exactly when its send fails. */
  lemma SendStep<C>(attempts: seq<C>, seen: set<C>, c: C, fails: C -> bool)
    requires Distinct(attempts) && (forall x :: x in attempts <==> x in seen) && c !in seen
    ensures Distinct(attempts + [c]) && forall x :: x in attempts + [c] <==> x in seen + {c}
    ensures fails(c) ==> Failed(seen + {c}, fails) == Failed(seen, fails) + {c}
    ensures !fails(c) ==> Failed(seen + {c}, fails) == Failed(seen, fails)
  {
  }

  /** The send loop of `broadcast` over a snapshot of a ticket's connections:
      one attempt per connection, collecting those whose send failed. */
  method SendAll<C(==)>(snapshot: set<C>, fails: C -> bool) returns (attempts: seq<C>, disconnected: set<C>)
    ensures Distinct(attempts) && forall c :: c in attempts <==> c in snapshot
    ensures disconnected == Failed(snapshot, fails)
  {
    attempts := [];
    disconnected := {};
    var remaining := snapshot;
    ghost var seen: set<C> := {};
    while remaining != {}
      invariant seen + remaining == snapshot && seen !! remaining
      invariant Distinct(attempts) && forall c :: c in attempts <==> c in seen
      invariant disconnected == Failed(seen, fails)
      decreases |remaining|
    {
      var c :| c in remaining;
      MoveOne(seen, remaining, snapshot, c);
      SendStep(attempts, seen, c, fails);
      attempts := attempts + [c];
      if fails(c) {
        disconnected := disconnected + {c};
      }
      seen := seen + {c};
      remaining := remaining - {c};
    }
  }
}
