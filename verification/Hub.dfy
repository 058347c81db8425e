/** The WebSocket hub: who listens to which notification, kept in two maps that mirror each other. */
module Hub {
  import opened Domain

  type ClientId = nat

  datatype StatusUpdate = StatusUpdate(id: Id, status: Status)

  /** One call of Send and whether it succeeded. */
  datatype Attempt = Attempt(msg: StatusUpdate, ok: bool)

  class Client {
    const id: ClientId
    var attempts: seq<Attempt>

    constructor (id: ClientId)
      ensures this.id == id && attempts == []
    {
      this.id := id;
      attempts := [];
    }

    /** Pushes one message; the connection may turn out to be broken at any time. */
    method Send(msg: StatusUpdate) returns (ok: bool)
      modifies this
      ensures attempts == old(attempts) + [Attempt(msg, ok)]
    {
      ok := *;
      attempts := attempts + [Attempt(msg, ok)];
    }
  }

  // ---------------------------------------------------------------------------------------------
  // The two maps as values
  // ---------------------------------------------------------------------------------------------

  type Subscribers = map<Id, map<ClientId, Client>>
  type ClientSubs = map<ClientId, set<Id>>

  /** A client listening to a notification. */
  datatype Pair = Pair(client: ClientId, id: Id)

  type Pairs = map<Pair, Client>

  predicate Has(s: Subscribers, p: Pair) {
    p.id in s && p.client in s[p.id]
  }

  predicate HasBack(b: ClientSubs, p: Pair) {
    p.client in b && p.id in b[p.client]
  }

  ghost predicate NoEmpty(s: Subscribers, b: ClientSubs) {
    (forall n | n in s :: s[n] != map[]) && (forall c | c in b :: b[c] != {})
  }

  ghost predicate Filed(s: Subscribers) {
    forall p: Pair | Has(s, p) :: s[p.id][p.client].id == p.client
  }

  ghost predicate Inverse(s: Subscribers, b: ClientSubs) {
    forall p: Pair :: Has(s, p) <==> HasBack(b, p)
  }

  /** Each map is the other's inverse, neither holds an empty entry, and clients are filed under their ids. */
  ghost predicate Mirrors(s: Subscribers, b: ClientSubs) {
    Inverse(s, b) && NoEmpty(s, b) && Filed(s)
  }

  /** The set of subscriptions that the maps represent, with the client behind each. */
  ghost function PairsOf(s: Subscribers): Pairs {
    map n, c | n in s && c in s[n] :: Pair(c, n) := s[n][c]
  }

  lemma InPairs(s: Subscribers, p: Pair)
    ensures p in PairsOf(s) <==> Has(s, p)
    ensures Has(s, p) ==> PairsOf(s)[p] == s[p.id][p.client]
  {
  }

  function WithoutPair(s: Subscribers, p: Pair): Subscribers {
    if p.id !in s then s
    else if s[p.id] - {p.client} == map[] then s - {p.id}
    else s[p.id := s[p.id] - {p.client}]
  }

  function WithoutBack(b: ClientSubs, p: Pair): ClientSubs {
    if p.client !in b then b
    else if b[p.client] - {p.id} == {} then b - {p.client}
    else b[p.client := b[p.client] - {p.id}]
  }

  function WithPair(s: Subscribers, client: Client, n: Id): Subscribers {
    var clients: map<ClientId, Client> := if n in s then s[n] else map[];
    s[n := clients[client.id := client]]
  }

  function WithBack(b: ClientSubs, p: Pair): ClientSubs {
    b[p.client := (if p.client in b then b[p.client] else {}) + {p.id}]
  }

  lemma PairRemoved(s: Subscribers, p: Pair, q: Pair)
    ensures Has(WithoutPair(s, p), q) <==> Has(s, q) && q != p
    ensures Has(WithoutPair(s, p), q) ==> WithoutPair(s, p)[q.id][q.client] == s[q.id][q.client]
  {
    if Has(s, q) && q != p && q.id == p.id {
      assert q.client in s[p.id] - {p.client};
    }
  }

  lemma BackRemoved(b: ClientSubs, p: Pair, q: Pair)
    ensures HasBack(WithoutBack(b, p), q) <==> HasBack(b, q) && q != p
  {
    if HasBack(b, q) && q != p && q.client == p.client {
      assert q.id in b[p.client] - {p.id};
    }
  }

  lemma NoEmptyKept(s: Subscribers, b: ClientSubs, p: Pair)
    requires NoEmpty(s, b)
    ensures NoEmpty(WithoutPair(s, p), WithoutBack(b, p))
  {
  }

  lemma RemovalKeepsInverse(s: Subscribers, b: ClientSubs, p: Pair)
    requires Inverse(s, b) && Filed(s)
    ensures Inverse(WithoutPair(s, p), WithoutBack(b, p)) && Filed(WithoutPair(s, p))
    ensures forall q: Pair :: HasBack(WithoutBack(b, p), q) <==> HasBack(b, q) && q != p
  {
    hide WithoutPair, WithoutBack;
    forall q: Pair
      ensures Has(WithoutPair(s, p), q) <==> HasBack(WithoutBack(b, p), q)
      ensures Has(WithoutPair(s, p), q) ==> WithoutPair(s, p)[q.id][q.client].id == q.client
      ensures HasBack(WithoutBack(b, p), q) <==> HasBack(b, q) && q != p
    {
      PairRemoved(s, p, q);
      BackRemoved(b, p, q);
    }
  }

  lemma OneFewer(m: Pairs, m': Pairs, p: Pair)
    requires forall q: Pair :: q in m' <==> q in m && q != p
    requires forall q: Pair | q in m' :: m'[q] == m[q]
    ensures m' == m - {p}
  {
  }

  lemma RemovalKeepsOthers(s: Subscribers, p: Pair)
    ensures PairsOf(WithoutPair(s, p)) == PairsOf(s) - {p}
  {
    hide WithoutPair, Has, PairsOf;
    forall q: Pair
      ensures q in PairsOf(WithoutPair(s, p)) <==> q in PairsOf(s) && q != p
      ensures q in PairsOf(WithoutPair(s, p)) ==> PairsOf(WithoutPair(s, p))[q] == PairsOf(s)[q]
    {
      PairRemoved(s, p, q);
      InPairs(s, q);
      InPairs(WithoutPair(s, p), q);
    }
    OneFewer(PairsOf(s), PairsOf(WithoutPair(s, p)), p);
  }

  /** Removing a pair from both maps keeps them mirrored and removes exactly that subscription. */
  lemma RemovalMirrors(s: Subscribers, b: ClientSubs, p: Pair)
    requires Mirrors(s, b)
    ensures Mirrors(WithoutPair(s, p), WithoutBack(b, p))
    ensures PairsOf(WithoutPair(s, p)) == PairsOf(s) - {p}
    ensures forall q: Pair :: HasBack(WithoutBack(b, p), q) <==> HasBack(b, q) && q != p
  {
    hide WithoutPair, WithoutBack, NoEmpty, Inverse, Filed, PairsOf, HasBack, Has;
    NoEmptyKept(s, b, p);
    RemovalKeepsInverse(s, b, p);
    RemovalKeepsOthers(s, p);
  }

  lemma PairAdded(s: Subscribers, client: Client, n: Id, q: Pair)
    ensures Has(WithPair(s, client, n), q) <==> Has(s, q) || q == Pair(client.id, n)
    ensures Has(WithPair(s, client, n), q) ==>
              WithPair(s, client, n)[q.id][q.client] == if q == Pair(client.id, n) then client else s[q.id][q.client]
  {
  }

  lemma BackAdded(b: ClientSubs, p: Pair, q: Pair)
    ensures HasBack(WithBack(b, p), q) <==> HasBack(b, q) || q == p
  {
  }

  lemma NoEmptyAdded(s: Subscribers, b: ClientSubs, client: Client, n: Id)
    requires NoEmpty(s, b)
    ensures NoEmpty(WithPair(s, client, n), WithBack(b, Pair(client.id, n)))
  {
    assert client.id in WithPair(s, client, n)[n];
    assert n in WithBack(b, Pair(client.id, n))[client.id];
  }

  lemma InsertionKeepsInverse(s: Subscribers, b: ClientSubs, client: Client, n: Id)
    requires Inverse(s, b) && Filed(s)
    ensures Inverse(WithPair(s, client, n), WithBack(b, Pair(client.id, n))) && Filed(WithPair(s, client, n))
  {
    hide WithPair, WithBack;
    var p := Pair(client.id, n);
    forall q: Pair
      ensures Has(WithPair(s, client, n), q) <==> HasBack(WithBack(b, p), q)
      ensures Has(WithPair(s, client, n), q) ==> WithPair(s, client, n)[q.id][q.client].id == q.client
    {
      PairAdded(s, client, n, q);
      BackAdded(b, p, q);
    }
  }

  lemma OneMore(m: Pairs, m': Pairs, p: Pair, client: Client)
    requires forall q: Pair :: q in m' <==> q in m || q == p
    requires forall q: Pair | q in m' :: m'[q] == if q == p then client else m[q]
    ensures m' == m[p := client]
  {
  }

  lemma InsertionKeepsOthers(s: Subscribers, client: Client, n: Id)
    ensures PairsOf(WithPair(s, client, n)) == PairsOf(s)[Pair(client.id, n) := client]
  {
    hide WithPair, Has, PairsOf;
    var p := Pair(client.id, n);
    forall q: Pair
      ensures q in PairsOf(WithPair(s, client, n)) <==> q in PairsOf(s) || q == p
      ensures q in PairsOf(WithPair(s, client, n)) ==> PairsOf(WithPair(s, client, n))[q] == if q == p then client else PairsOf(s)[q]
    {
      PairAdded(s, client, n, q);
      InPairs(s, q);
      InPairs(WithPair(s, client, n), q);
    }
    OneMore(PairsOf(s), PairsOf(WithPair(s, client, n)), p, client);
  }

  /** Adding a pair to both maps keeps them mirrored and adds exactly that subscription. */
  lemma InsertionMirrors(s: Subscribers, b: ClientSubs, client: Client, n: Id)
    requires Mirrors(s, b)
    ensures Mirrors(WithPair(s, client, n), WithBack(b, Pair(client.id, n)))
    ensures PairsOf(WithPair(s, client, n)) == PairsOf(s)[Pair(client.id, n) := client]
  {
    hide WithPair, WithBack, NoEmpty, Inverse, Filed, PairsOf;
    NoEmptyAdded(s, b, client, n);
    InsertionKeepsInverse(s, b, client, n);
    InsertionKeepsOthers(s, client, n);
  }

  /** The subscriptions that remain when some clients are gone. */
  ghost function Keeping(p: Pairs, gone: set<ClientId>): Pairs {
    map k | k in p && k.client !in gone :: p[k]
  }

  // ---------------------------------------------------------------------------------------------
  // The hub
  // ---------------------------------------------------------------------------------------------

  /** Whether the last Send to a client failed. */
  ghost predicate LastFailed(c: Client)
    reads c
  {
    c.attempts != [] && !c.attempts[|c.attempts| - 1].ok
  }

  /** One Send of `msg` more than before. */
  ghost predicate SentOnce(before: seq<Attempt>, after: seq<Attempt>, msg: StatusUpdate) {
    |after| == |before| + 1 && after[..|before|] == before && after[|before|].msg == msg
  }

  lemma CountedClients(s: Subscribers, n: Id)
    ensures (set p | p in PairsOf(s) && p.id == n :: p.client) == if n in s then s[n].Keys else {}
  {
    hide PairsOf;
    var clients := set p | p in PairsOf(s) && p.id == n :: p.client;
    forall c: ClientId
      ensures c in clients <==> n in s && c in s[n]
    {
      InPairs(s, Pair(c, n));
      if c in clients {
        var p :| p in PairsOf(s) && p.id == n && p.client == c;
        assert p == Pair(c, n);
      }
      if Has(s, Pair(c, n)) {
        assert Pair(c, n) in PairsOf(s) && Pair(c, n).client == c;
      }
    }
  }

  /** The clients behind the pairs of a notification. */
  ghost function Listeners(pairs: Pairs, n: Id): set<Client> {
    set p | p in pairs && p.id == n :: pairs[p]
  }

  /** The clients in pairs of a notification are those of its entry. */
  lemma ListenersOf(s: Subscribers, n: Id, client: Client)
    ensures client in Listeners(PairsOf(s), n) <==> n in s && exists c :: c in s[n] && s[n][c] == client
  {
    hide PairsOf;
    if client in Listeners(PairsOf(s), n) {
      var p :| p in PairsOf(s) && p.id == n && PairsOf(s)[p] == client;
      InPairs(s, p);
    }
    if n in s && exists c :: c in s[n] && s[n][c] == client {
      var c :| c in s[n] && s[n][c] == client;
      InPairs(s, Pair(c, n));
      assert Pair(c, n) in PairsOf(s) && Pair(c, n).id == n;
    }
  }

  lemma FiledPairs(s: Subscribers, b: ClientSubs, p: Pair)
    requires Mirrors(s, b) && p in PairsOf(s)
    ensures PairsOf(s)[p].id == p.client
  {
    InPairs(s, p);
  }

  /** The ids of failed listeners, pair by pair. */
  lemma GoneByPair(pairs: Pairs, n: Id, failed: set<Client>, id: ClientId)
    requires forall p | p in pairs :: pairs[p].id == p.client
    requires failed <= Listeners(pairs, n)
    ensures id in (set c | c in failed :: c.id) <==> Pair(id, n) in pairs && pairs[Pair(id, n)] in failed
  {
    if id in (set c | c in failed :: c.id) {
      var c :| c in failed && c.id == id;
      var p :| p in pairs && p.id == n && pairs[p] == c;
      assert p == Pair(id, n);
    }
  }

  lemma KeepingByPair(pairs: Pairs, n: Id, failed: set<Client>)
    requires forall p | p in pairs :: pairs[p].id == p.client
    requires failed <= Listeners(pairs, n)
    ensures Keeping(pairs, set c | c in failed :: c.id) ==
            map k | k in pairs && !(Pair(k.client, n) in pairs && pairs[Pair(k.client, n)] in failed) :: pairs[k]
  {
    forall k | k in pairs
      ensures k.client in (set c | c in failed :: c.id) <==> Pair(k.client, n) in pairs && pairs[Pair(k.client, n)] in failed
    {
      GoneByPair(pairs, n, failed, k.client);
    }
  }

  lemma KeepingAll(p: Pairs)
    ensures Keeping(p, {}) == p
  {
  }

  lemma KeepingOneFewer(p: Pairs, gone: set<ClientId>, c: ClientId)
    ensures Keeping(Keeping(p, gone), {c}) == Keeping(p, gone + {c})
  {
  }

  /** The subscriptions without those of one client to some notifications. */
  ghost function Without(p: Pairs, c: ClientId, ns: set<Id>): Pairs {
    map k | k in p && !(k.client == c && k.id in ns) :: p[k]
  }

  lemma WithoutOneMore(p: Pairs, c: ClientId, ns: set<Id>, n: Id)
    ensures Without(p, c, ns) - {Pair(c, n)} == Without(p, c, ns + {n})
  {
  }

  lemma Shrunk(b: ClientSubs, b': ClientSubs, c: ClientId, n: Id)
    requires c in b && n in b[c] && forall q: Pair :: HasBack(b', q) <==> HasBack(b, q) && q != Pair(c, n)
    ensures c in b' ==> b'[c] == b[c] - {n}
  {
    if c in b' {
      forall m
        ensures m in b'[c] <==> m in b[c] && m != n
      {
        if m in b[c] || m in b'[c] {
          assert HasBack(b', Pair(c, m)) <==> HasBack(b, Pair(c, m)) && m != n;
        }
      }
    }
  }

  lemma HasSome(s: Subscribers, b: ClientSubs, c: ClientId)
    requires Mirrors(s, b) && c in b
    ensures b[c] != {}
  {
  }

  /** When the reverse index has no entry for a client, no subscription of it is left. */
  lemma NothingLeft(s: Subscribers, b: ClientSubs, c: ClientId)
    requires Mirrors(s, b) && c !in b
    ensures forall k | k in PairsOf(s) :: k.client != c
  {
    forall k | k in PairsOf(s)
      ensures k.client != c
    {
      InPairs(s, k);
      assert Has(s, k) && HasBack(b, k);
    }
  }

  lemma AllDropped(p: Pairs, s: Subscribers, c: ClientId, ns: set<Id>)
    requires PairsOf(s) == Without(p, c, ns) && forall k | k in PairsOf(s) :: k.client != c
    ensures PairsOf(s) == Keeping(p, {c})
  {
    hide Has;
    forall k | k in p && k.client == c
      ensures k.id in ns
    {
      assert k !in PairsOf(s);
    }
  }

  class Hub {
    var subscribers: Subscribers
    var clientSubs: ClientSubs

    ghost predicate Valid()
      reads this
    {
      Mirrors(subscribers, clientSubs)
    }

    /** The abstract state. */
    ghost function Subscriptions(): Pairs
      reads this
    {
      PairsOf(subscribers)
    }

    constructor ()
      ensures Valid() && Subscriptions() == map[]
    {
      subscribers := map[];
      clientSubs := map[];
    }

    method Subscribe(client: Client, n: Id)
      requires Valid()
      modifies this
      ensures Valid() && Subscriptions() == old(Subscriptions())[Pair(client.id, n) := client]
    {
      hide Mirrors, PairsOf;
      InsertionMirrors(subscribers, clientSubs, client, n);
      var clients: map<ClientId, Client> := map[];
      if n in subscribers {
        clients := subscribers[n];
      }
      clients := clients[client.id := client];
      subscribers := subscribers[n := clients];
      var subs: set<Id> := {};
      if client.id in clientSubs {
        subs := clientSubs[client.id];
      }
      subs := subs + {n};
      clientSubs := clientSubs[client.id := subs];
    }

    /** Deletes one pair from both maps, and every entry that this leaves empty. */
    method RemoveLocked(c: ClientId, n: Id)
      requires Valid()
      modifies this
      ensures Valid() && Subscriptions() == old(Subscriptions()) - {Pair(c, n)}
      ensures forall q: Pair :: HasBack(clientSubs, q) <==> HasBack(old(clientSubs), q) && q != Pair(c, n)
    {
      hide Mirrors, HasBack, Has, PairsOf;
      RemovalMirrors(subscribers, clientSubs, Pair(c, n));
      if n in subscribers {
        var clients := subscribers[n] - {c};
        subscribers := if clients == map[] then subscribers - {n} else subscribers[n := clients];
      }
      if c in clientSubs {
        var subs := clientSubs[c] - {n};
        clientSubs := if subs == {} then clientSubs - {c} else clientSubs[c := subs];
      }
    }

    method Unsubscribe(client: Client, n: Id)
      requires Valid()
      modifies this
      ensures Valid() && Subscriptions() == old(Subscriptions()) - {Pair(client.id, n)}
    {
      RemoveLocked(client.id, n);
    }

    /**
     * Drops every subscription of a client. The loop ranges over the inner map that its body deletes
     * from: each step visits some entry that is still there and was not visited before.
     */
    method UnsubscribeAll(client: Client)
      requires Valid()
      modifies this
      ensures Valid()
      ensures Subscriptions() == map k | k in old(Subscriptions()) && k.client != client.id :: old(Subscriptions())[k]
      ensures Subscriptions() == Keeping(old(Subscriptions()), {client.id})
    {
      hide Mirrors, HasBack, Has, PairsOf;
      var c := client.id;
      if c !in clientSubs {
        NothingLeft(subscribers, clientSubs, c);
        AllDropped(Subscriptions(), subscribers, c, {});
        return;
      }
      var visited: set<Id> := {};
      while c in clientSubs && clientSubs[c] - visited != {}
        invariant Valid() && Subscriptions() == Without(old(Subscriptions()), c, visited)
        invariant c in clientSubs ==> clientSubs[c] !! visited
        decreases if c in clientSubs then clientSubs[c] else {}
      {
        var n :| n in clientSubs[c] - visited;
        label removing:
        RemoveLocked(c, n);
        Shrunk(old@removing(clientSubs), clientSubs, c, n);
        WithoutOneMore(old(Subscriptions()), c, visited, n);
        visited := visited + {n};
      }
      if c in clientSubs {
        HasSome(subscribers, clientSubs, c);
        assert false;
      }
      NothingLeft(subscribers, clientSubs, c);
      AllDropped(old(Subscriptions()), subscribers, c, visited);
    }

    /** The distinct clients subscribed to `n`, in any order. */
    method Recipients(n: Id) returns (recipients: seq<Client>)
      requires Valid()
      ensures forall c :: c in recipients <==> c in Listeners(Subscriptions(), n)
      ensures forall k, l | 0 <= k < l < |recipients| :: recipients[k].id != recipients[l].id
    {
      recipients := [];
      forall c: Client
        ensures c in Listeners(Subscriptions(), n) <==> n in subscribers && exists id :: id in subscribers[n] && subscribers[n][id] == c
      {
        ListenersOf(subscribers, n, c);
      }
      hide Listeners, PairsOf;
      if n !in subscribers {
        return;
      }
      var left := subscribers[n].Keys;
      while left != {}
        invariant left <= subscribers[n].Keys
        invariant forall c :: c in recipients <==> exists id :: id in subscribers[n] && id !in left && subscribers[n][id] == c
        invariant forall k | 0 <= k < |recipients| :: recipients[k].id !in left
        invariant forall k, l | 0 <= k < l < |recipients| :: recipients[k].id != recipients[l].id
        decreases left
      {
        var id :| id in left;
        assert Has(subscribers, Pair(id, n));
        recipients := recipients + [subscribers[n][id]];
        left := left - {id};
      }
    }

    /** The sends of one broadcast, each followed by the removal of its client if it failed. */
    method SendAll(recipients: seq<Client>, msg: StatusUpdate)
      requires Valid() && forall k, l | 0 <= k < l < |recipients| :: recipients[k].id != recipients[l].id
      modifies this, recipients
      ensures Valid()
      ensures forall c | c in recipients :: SentOnce(old(c.attempts), c.attempts, msg)
      ensures Subscriptions() == Keeping(old(Subscriptions()), set c | c in recipients && LastFailed(c) :: c.id)
    {
      hide Mirrors, Keeping, PairsOf;
      ghost var failed: set<ClientId> := {};
      KeepingAll(Subscriptions());
      for k := 0 to |recipients|
        invariant Valid()
        invariant forall j | 0 <= j < k :: SentOnce(old(recipients[j].attempts), recipients[j].attempts, msg)
        invariant forall j | k <= j < |recipients| :: recipients[j].attempts == old(recipients[j].attempts)
        invariant forall j | 0 <= j < k :: recipients[j].id in failed <==> LastFailed(recipients[j])
        invariant forall id | id in failed :: exists j :: 0 <= j < k && recipients[j].id == id
        invariant Subscriptions() == Keeping(old(Subscriptions()), failed)
      {
        var ok := recipients[k].Send(msg);
        if !ok {
          KeepingOneFewer(old(Subscriptions()), failed, recipients[k].id);
          UnsubscribeAll(recipients[k]);
          failed := failed + {recipients[k].id};
        }
      }
      assert failed == set c | c in recipients && LastFailed(c) :: c.id;
    }

    /**
     * Sends one message to every subscriber, exactly once each, and drops every subscription of
     * exactly those clients whose Send failed; nothing else happens to any client.
     */
    method Broadcast(n: Id, status: Status)
      requires Valid()
      modifies this, Listeners(Subscriptions(), n)
      ensures Valid()
      ensures forall p | p in old(Subscriptions()) && p.id == n ::
                var c := old(Subscriptions())[p];
                && |c.attempts| == |old(c.attempts)| + 1 && c.attempts[..|old(c.attempts)|] == old(c.attempts)
                && c.attempts[|old(c.attempts)|].msg == StatusUpdate(n, status)
      ensures Subscriptions() ==
              map k | k in old(Subscriptions())
                      && !(Pair(k.client, n) in old(Subscriptions())
                           && var c := old(Subscriptions())[Pair(k.client, n)]; c.attempts != [] && !c.attempts[|c.attempts| - 1].ok)
                :: old(Subscriptions())[k]
    {
      hide Mirrors, Keeping, PairsOf;
      ghost var before := Subscriptions();
      forall p | p in before
        ensures before[p].id == p.client
      {
        FiledPairs(subscribers, clientSubs, p);
      }
      var recipients := Recipients(n);
      assert forall c :: c in recipients <==> c in Listeners(before, n);
      SendAll(recipients, StatusUpdate(n, status));
      assert forall c | c in old(Listeners(Subscriptions(), n)) :: SentOnce(old(c.attempts), c.attempts, StatusUpdate(n, status));
      assert forall p | p in old(Subscriptions()) && p.id == n :: old(Subscriptions())[p] in old(Listeners(Subscriptions(), n));
      ghost var failed := set c | c in recipients && LastFailed(c);
      assert (set c | c in recipients && LastFailed(c) :: c.id) == set c | c in failed :: c.id;
      KeepingByPair(before, n, failed);
    }

    method SubscriberCount(n: Id) returns (count: nat)
      requires Valid()
      ensures count == |set p | p in Subscriptions() && p.id == n :: p.client|
    {
      count := if n in subscribers then |subscribers[n]| else 0;
      CountedClients(subscribers, n);
    }
  }
}
