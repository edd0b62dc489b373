/** What the operations of the store do to the lists the user sees, field by field. */
module StoreLaws {
  import opened Basics
  import opened ConfigStore

  // ---- Adding by hand ----

  /** A location added by hand under the label, host and port of the server. */
  predicate SameByHand(l: Location, server: Server) {
    l.source.None? && l.server.name == server.name && l.server.host == server.host && l.server.port == server.port
  }

  predicate IsFirstByHand(locations: seq<Location>, server: Server, i: nat) {
    i < |locations| && SameByHand(locations[i], server) && forall j :: 0 <= j < i ==> !SameByHand(locations[j], server)
  }

  /** The server is in the list, as a location by hand; the list is one longer exactly when none of its label, host and
      port was there by hand; otherwise it takes the place of the first such one. Nothing else changes, and no location
      of a subscription is taken over. */
  lemma ManualIsStored(c: Config, server: Server)
    ensures var next := WithManual(c, server);
            && Location(server, None) in next.locations
            && |next.locations|
               == |c.locations| + (if exists l :: l in c.locations && SameByHand(l, server) then 0 else 1)
            && (forall i :: 0 <= i < |c.locations| ==>
                  next.locations[i] == if IsFirstByHand(c.locations, server, i) then Location(server, None)
                  else c.locations[i])
            && next.subscriptions == c.subscriptions && next.active == c.active && next.activeSource == c.activeSource
  {
    var next := WithManual(c, server);
    var at := Position(c.locations, HasKeyFrom(KeyOf(server), None));
    forall l: Location ensures HasKeyFrom(KeyOf(server), None)(l) <==> SameByHand(l, server) {
    }
    if at.Some? {
      assert c.locations[at.value] in c.locations;
      assert next.locations[at.value] == Location(server, None);
    } else {
      assert next.locations[|c.locations|] == Location(server, None);
    }
  }

  /** Adding it again changes nothing. */
  lemma ManualTwice(c: Config, server: Server)
    ensures WithManual(WithManual(c, server), server) == WithManual(c, server)
  {
    ManualIsStored(c, server);
    ManualIsStored(WithManual(c, server), server);
    var once := WithManual(c, server);
    var twice := WithManual(once, server);
    hide WithManual;
    assert |twice.locations| == |once.locations|;
    assert forall i :: 0 <= i < |once.locations| ==> twice.locations[i] == once.locations[i];
  }

  // ---- Removing a subscription ----

  /** The subscription and every location of its URL are gone, and every other subscription and location is there in
      its order. */
  lemma RemovalRemoves(norm: Normalizer, c: Config, index: nat)
    requires index < |c.subscriptions|
    ensures var next, url := Removed(norm, c, index), c.subscriptions[index];
            && |next.subscriptions| == |c.subscriptions| - 1
            && (forall i :: 0 <= i < |next.subscriptions| ==>
                  next.subscriptions[i] == c.subscriptions[if i < index then i else i + 1])
            && next.locations == Others(c, url)
            && (forall l :: l in next.locations <==> l in c.locations && l.source != Some(url))
  {
    var url := c.subscriptions[index];
    ReconcilingMovesNoLocation(norm,
                               c.(subscriptions := c.subscriptions[..index] + c.subscriptions[index + 1..],
                                  locations := Others(c, url)),
                               ServerOf(ActiveLocation(c)));
    FilterMembers(c.locations, NotFrom(url));
    hide Reconciled;
  }

  // ---- What an update reports ----

  /** The report counts the entries of one list whose key is not in the other. */
  lemma {:induction false} CountMissingCounts(keys: seq<LocationKey>, other: seq<LocationKey>)
    ensures CountMissing(keys, other) == |set i | 0 <= i < |keys| && keys[i] !in other|
  {
    var missing := set i | 0 <= i < |keys| && keys[i] !in other;
    if keys == [] {
      assert missing == {};
    } else {
      var n := |keys| - 1;
      var front := keys[..n];
      CountMissingCounts(front, other);
      CountMissingLast(front, keys[n], other);
      assert keys == front + [keys[n]];
      var earlier := set i | 0 <= i < |front| && front[i] !in other;
      assert missing == earlier + if keys[n] in other then {} else {n};
    }
  }

  lemma {:induction false} CountMissingLast(keys: seq<LocationKey>, last: LocationKey, other: seq<LocationKey>)
    ensures CountMissing(keys + [last], other) == CountMissing(keys, other) + if last in other then 0 else 1
  {
    if keys == [] {
      assert keys + [last] == [last];
    } else {
      CountMissingLast(keys[1..], last, other);
      assert (keys + [last])[1..] == keys[1..] + [last];
    }
  }

  // ---- Which location a choice is re-found at ----

  /** Two servers are the same endpoint when nothing but their label tells them apart; an absent field is an empty
      one. */
  lemma EndpointMeans(a: Server, b: Server)
    ensures Endpoint(a) == Endpoint(b) <==>
            && a.port == b.port && a.host == b.host && a.protocol == b.protocol && a.uuid == b.uuid
            && OrEmpty(a.password) == OrEmpty(b.password) && OrEmpty(a.cipher) == OrEmpty(b.cipher)
            && a.transport == b.transport && a.security == b.security && OrEmpty(a.sni) == OrEmpty(b.sni)
            && OrEmpty(a.flow) == OrEmpty(b.flow) && OrEmpty(a.path) == OrEmpty(b.path)
            && OrEmpty(a.publicKey) == OrEmpty(b.publicKey) && OrEmpty(a.shortId) == OrEmpty(b.shortId)
  {
    var x, y := Endpoint(a).1, Endpoint(b).1;
    assert x == y ==> forall i :: 0 <= i < 12 ==> x[i] == y[i];
    assert x[0] == a.protocol && x[1] == a.host && x[2] == a.uuid && x[5] == a.transport && x[6] == a.security;
    assert y[0] == b.protocol && y[1] == b.host && y[2] == b.uuid && y[5] == b.transport && y[6] == b.security;
    assert x[3] == OrEmpty(a.password) && x[4] == OrEmpty(a.cipher) && x[7] == OrEmpty(a.sni)
           && x[8] == OrEmpty(a.flow);
    assert y[3] == OrEmpty(b.password) && y[4] == OrEmpty(b.cipher) && y[7] == OrEmpty(b.sni)
           && y[8] == OrEmpty(b.flow);
    assert x[9] == OrEmpty(a.path) && x[10] == OrEmpty(a.publicKey) && x[11] == OrEmpty(a.shortId);
    assert y[9] == OrEmpty(b.path) && y[10] == OrEmpty(b.publicKey) && y[11] == OrEmpty(b.shortId);
  }

  predicate Any(pool: seq<Location>, p: Location -> bool) {
    exists l :: l in pool && p(l)
  }

  /** By key first, from the source of the choice if possible; then by endpoint, under the label if possible; then by
      label; and otherwise nowhere. */
  lemma RefoundInOrder(norm: Normalizer, pool: seq<Location>, key: LocationKey, source: Option<string>,
                       previous: Option<Server>)
    ensures var r := Refound(norm, pool, key, source, previous);
            var sharing := previous.Some? && Any(pool, HasEndpoint(previous.value));
            && (r.Some? ==> r.value in pool)
            && (Any(pool, HasKey(key)) ==>
                  r.Some? && KeyOf(r.value.server) == key
                  && (Any(pool, HasKeyFrom(key, source)) ==> r.value.source == source))
            && (!Any(pool, HasKey(key)) && sharing ==>
                  r.Some? && Endpoint(r.value.server) == Endpoint(previous.value)
                  && ((exists l :: l in pool && HasEndpoint(previous.value)(l) && HasLabel(norm, key.name)(l)) ==>
                        norm(r.value.server.name) == norm(key.name)))
            && (!Any(pool, HasKey(key)) && !sharing ==>
                  && (r.Some? <==> Any(pool, HasLabel(norm, key.name)))
                  && (r.Some? ==> norm(r.value.server.name) == norm(key.name)))
  {
    FindIsAtPosition(pool, HasKeyFrom(key, source));
    FindIsAtPosition(pool, HasKey(key));
    FindIsAtPosition(pool, HasLabel(norm, key.name));
    if previous.Some? {
      var shared := Filter(pool, HasEndpoint(previous.value));
      FilterMembers(pool, HasEndpoint(previous.value));
      FindIsAtPosition(shared, HasLabel(norm, key.name));
      assert shared != [] ==> shared[0] in shared;
      if Any(pool, HasEndpoint(previous.value)) {
        var l :| l in pool && HasEndpoint(previous.value)(l);
        assert l in shared;
      }
    }
  }

  /** Reconciling touches the choice alone, and only a choice that names a key; what is re-found becomes the choice,
      with its source. */
  lemma ReconciledChoice(norm: Normalizer, c: Config, previous: Option<Server>)
    ensures var next := Reconciled(norm, c, previous);
            && next.locations == c.locations && next.subscriptions == c.subscriptions
            && (!c.active.Key? ==> next == c)
            && (c.active.Key? ==>
                  var r := Refound(norm, Filter(c.locations, InScope(ActiveHome(c))), c.active.key, c.activeSource,
                                   previous);
                  if r.Some? then
                    next.active == Key(LocationKey(r.value.server.name, r.value.server.host, r.value.server.port))
                    && next.activeSource == r.value.source
                  else next == c)
  {
    hide Refound;
  }
}
