/** The client's store of locations, subscriptions and the chosen location. */
module ConfigStore {
  import opened Basics

  datatype Server = Server(
    name: string,
    host: string,
    port: nat,
    protocol: string,
    uuid: string,
    password: Option<string>,
    cipher: Option<string>,
    transport: string,
    security: string,
    sni: Option<string>,
    flow: Option<string>,
    path: Option<string>,
    publicKey: Option<string>,
    shortId: Option<string>)

  /** `source` is the URL of the subscription a location came from, or `None` for one added by hand. */
  datatype Location = Location(server: Server, source: Option<string>)

  datatype LocationKey = LocationKey(name: string, host: string, port: nat)

  datatype Active = Unset | Key(key: LocationKey) | Legacy(name: string)

  datatype Config = Config(
    locations: seq<Location>,
    subscriptions: seq<string>,
    active: Active,
    activeSource: Option<string>)

  /** How labels are reduced before they are compared. Everything below holds for any reduction. */
  type Normalizer = string -> string

  function KeyOf(server: Server): LocationKey {
    LocationKey(server.name, server.host, server.port)
  }

  function OrEmpty(value: Option<string>): string {
    if value.Some? then value.value else ""
  }

  function Endpoint(s: Server): (nat, seq<string>) {
    (s.port,
     [s.protocol, s.host, s.uuid, OrEmpty(s.password), OrEmpty(s.cipher), s.transport, s.security,
      OrEmpty(s.sni), OrEmpty(s.flow), OrEmpty(s.path), OrEmpty(s.publicKey), OrEmpty(s.shortId)])
  }

  // ---- Selections over locations ----

  function From(url: string): Location -> bool { (l: Location) => l.source == Some(url) }

  function NotFrom(url: string): Location -> bool { (l: Location) => l.source != Some(url) }

  function InScope(home: Option<string>): Location -> bool { (l: Location) => home.None? || l.source == home }

  function HasKey(key: LocationKey): Location -> bool { (l: Location) => KeyOf(l.server) == key }

  function HasKeyFrom(key: LocationKey, source: Option<string>): Location -> bool {
    (l: Location) => KeyOf(l.server) == key && l.source == source
  }

  function HasKeyIn(key: LocationKey, home: Option<string>): Location -> bool {
    (l: Location) => KeyOf(l.server) == key && (home.None? || l.source == home)
  }

  function HasKeyInFrom(key: LocationKey, home: Option<string>, source: Option<string>): Location -> bool {
    (l: Location) => KeyOf(l.server) == key && (home.None? || l.source == home) && l.source == source
  }

  function HasEndpoint(server: Server): Location -> bool { (l: Location) => Endpoint(l.server) == Endpoint(server) }

  function HasLabel(norm: Normalizer, wanted: string): Location -> bool {
    (l: Location) => norm(l.server.name) == norm(wanted)
  }

  function Of(c: Config, url: string): seq<Location> { Filter(c.locations, From(url)) }

  function Others(c: Config, url: string): seq<Location> { Filter(c.locations, NotFrom(url)) }

  // ---- The chosen location ----

  function ActiveHome(c: Config): Option<string> {
    if c.activeSource.Some? && c.activeSource.value in c.subscriptions then c.activeSource else None
  }

  /** A location the choice may stand for: its key, and inside its subscription while that exists. */
  predicate Eligible(c: Config, l: Location) {
    c.active.Key? && KeyOf(l.server) == c.active.key && (ActiveHome(c).None? || l.source == ActiveHome(c))
  }

  /** The first eligible location from the very source of the choice, or else the first eligible one. */
  function ActivePosition(c: Config): (r: Option<nat>)
    ensures r.None? <==> forall i :: 0 <= i < |c.locations| ==> !Eligible(c, c.locations[i])
    ensures r.Some? ==> r.value < |c.locations| && Eligible(c, c.locations[r.value])
    ensures r.Some? ==>
              forall i :: 0 <= i < |c.locations| && Eligible(c, c.locations[i])
                && c.locations[i].source == c.activeSource
                ==> r.value <= i && c.locations[r.value].source == c.activeSource
    ensures r.Some? && c.locations[r.value].source != c.activeSource ==>
              forall i :: 0 <= i < r.value ==> !Eligible(c, c.locations[i])
  {
    if !c.active.Key? then None
    else
      var home := ActiveHome(c);
      OrElse(Position(c.locations, HasKeyInFrom(c.active.key, home, c.activeSource)),
             Position(c.locations, HasKeyIn(c.active.key, home)))
  }

  function ActiveLocation(c: Config): Option<Location> {
    var at := ActivePosition(c);
    if at.Some? then Some(c.locations[at.value]) else None
  }

  function SetActive(c: Config, l: Location): Config {
    c.(active := Key(KeyOf(l.server)), activeSource := l.source)
  }

  /** The location a choice is re-found at: same key, else same endpoint, else same label. */
  function Refound(norm: Normalizer, pool: seq<Location>, key: LocationKey, source: Option<string>,
                   previous: Option<Server>): Option<Location>
  {
    var exact := OrElse(Find(pool, HasKeyFrom(key, source)), Find(pool, HasKey(key)));
    if exact.Some? then exact
    else
      var shared := if previous.Some? then Filter(pool, HasEndpoint(previous.value)) else [];
      var moved := OrElse(Find(shared, HasLabel(norm, key.name)), if shared == [] then None else Some(shared[0]));
      OrElse(moved, Find(pool, HasLabel(norm, key.name)))
  }

  function Reconciled(norm: Normalizer, c: Config, previous: Option<Server>): Config {
    if !c.active.Key? then c
    else
      var pool := Filter(c.locations, InScope(ActiveHome(c)));
      var found := Refound(norm, pool, c.active.key, c.activeSource, previous);
      if found.Some? then SetActive(c, found.value) else c
  }

  // ---- Changing the store ----

  function Wrap(latest: seq<Server>, url: string): seq<Location> {
    seq(|latest|, i requires 0 <= i < |latest| => Location(latest[i], Some(url)))
  }

  function Keys(locations: seq<Location>): seq<LocationKey> {
    seq(|locations|, i requires 0 <= i < |locations| => KeyOf(locations[i].server))
  }

  function CountMissing(keys: seq<LocationKey>, other: seq<LocationKey>): nat {
    if keys == [] then 0
    else (if keys[0] in other then 0 else 1) + CountMissing(keys[1..], other)
  }

  function FirstOf(c: Config, url: string): (r: nat)
    ensures r <= |c.locations|
  {
    var at := Position(c.locations, From(url));
    if at.Some? then at.value else |c.locations|
  }

  function Spliced(c: Config, url: string, latest: seq<Server>): seq<Location> {
    var rest := Others(c, url);
    var at := if FirstOf(c, url) <= |rest| then FirstOf(c, url) else |rest|;
    rest[..at] + Wrap(latest, url) + rest[at..]
  }

  function ServerOf(l: Option<Location>): Option<Server> {
    if l.Some? then Some(l.value.server) else None
  }

  function Replaced(norm: Normalizer, c: Config, url: string, latest: seq<Server>): Config {
    Reconciled(norm, c.(locations := Spliced(c, url, latest)), ServerOf(ActiveLocation(c)))
  }

  function Removed(norm: Normalizer, c: Config, index: nat): Config
    requires index < |c.subscriptions|
  {
    var url := c.subscriptions[index];
    Reconciled(norm,
               c.(subscriptions := c.subscriptions[..index] + c.subscriptions[index + 1..],
                  locations := Others(c, url)),
               ServerOf(ActiveLocation(c)))
  }

  function WithManual(c: Config, server: Server): Config {
    var at := Position(c.locations, HasKeyFrom(KeyOf(server), None));
    if at.Some? then c.(locations := c.locations[at.value := Location(server, None)])
    else c.(locations := c.locations + [Location(server, None)])
  }

  class Store {
    const norm: Normalizer
    var locations: seq<Location>
    var subscriptions: seq<string>
    var active: Active
    var activeSource: Option<string>

    constructor (norm: Normalizer, c: Config)
      ensures this.norm == norm && View() == c
    {
      this.norm := norm;
      locations, subscriptions := c.locations, c.subscriptions;
      active, activeSource := c.active, c.activeSource;
    }

    function View(): Config
      reads this
    {
      Config(locations, subscriptions, active, activeSource)
    }

    method ReplaceSubscriptionLocations(url: string, latest: seq<Server>) returns (added: nat, removed: nat)
      modifies this
      ensures View() == Replaced(norm, old(View()), url, latest)
      ensures added == CountMissing(Keys(Wrap(latest, url)), Keys(Of(old(View()), url)))
      ensures removed == CountMissing(Keys(Of(old(View()), url)), Keys(Wrap(latest, url)))
    {
      var oldKeys := Keys(Filter(locations, From(url)));
      var newKeys := Keys(Wrap(latest, url));
      added := CountMissing(newKeys, oldKeys);
      removed := CountMissing(oldKeys, newKeys);
      var previous := ServerOf(ActiveLocation(View()));
      var at := FirstOf(View(), url);
      SplicePoint(View(), url);
      locations := Filter(locations, NotFrom(url));
      locations := locations[..at] + Wrap(latest, url) + locations[at..];
      ReconcileActive(previous);
    }

    method RemoveSubscription(index: nat) returns (url: string)
      requires index < |subscriptions|
      modifies this
      ensures url == old(subscriptions)[index]
      ensures View() == Removed(norm, old(View()), index)
    {
      var previous := ServerOf(ActiveLocation(View()));
      url := subscriptions[index];
      subscriptions := subscriptions[..index] + subscriptions[index + 1..];
      locations := Filter(locations, NotFrom(url));
      ReconcileActive(previous);
    }

    method AddManual(server: Server)
      modifies this
      ensures View() == WithManual(old(View()), server)
    {
      var at := Position(locations, HasKeyFrom(KeyOf(server), None));
      if at.Some? {
        locations := locations[at.value := Location(server, None)];
      } else {
        locations := locations + [Location(server, None)];
      }
    }

    method ReconcileActive(previous: Option<Server>)
      modifies this
      ensures View() == Reconciled(norm, old(View()), previous)
    {
      if !active.Key? {
        return;
      }
      var pool := Filter(locations, InScope(ActiveHome(View())));
      var found := Refound(norm, pool, active.key, activeSource, previous);
      if found.Some? {
        active := Key(KeyOf(found.value.server));
        activeSource := found.value.source;
      }
    }
  }

  // ---- Where the new list goes ----

  /** Everything before the first location of a subscription belongs to others, so its position is
      the same with and without the subscription's own. */
  lemma SplicePoint(c: Config, url: string)
    ensures FirstOf(c, url) <= |Others(c, url)|
    ensures Others(c, url)[..FirstOf(c, url)] == c.locations[..FirstOf(c, url)]
  {
    var at := FirstOf(c, url);
    var before, after := c.locations[..at], c.locations[at..];
    assert c.locations == before + after;
    FilterConcat(before, after, NotFrom(url));
    FilterAll(before, NotFrom(url));
  }

  lemma BlockInPlace(before: seq<Location>, block: seq<Location>, after: seq<Location>, url: string)
    requires forall l :: l in before ==> l.source != Some(url)
    requires forall l :: l in after ==> l.source != Some(url)
    requires forall l :: l in block ==> l.source == Some(url)
    ensures Filter(before + block + after, From(url)) == block
    ensures Filter(before + block + after, NotFrom(url)) == before + after
  {
    FilterThree(before, block, after, From(url));
    FilterNone(before, From(url));
    FilterNone(after, From(url));
    FilterAll(block, From(url));
    FilterThree(before, block, after, NotFrom(url));
    FilterNone(block, NotFrom(url));
    FilterAll(before, NotFrom(url));
    FilterAll(after, NotFrom(url));
    hide Filter;
    assert [] + block + [] == block;
    assert before + [] + after == before + after;
  }

  lemma FilterThree(a: seq<Location>, b: seq<Location>, c: seq<Location>, p: Location -> bool)
    ensures Filter(a + b + c, p) == Filter(a, p) + Filter(b, p) + Filter(c, p)
  {
    FilterConcat(a + b, c, p);
    FilterConcat(a, b, p);
  }

  lemma ReconcilingMovesNoLocation(norm: Normalizer, c: Config, previous: Option<Server>)
    ensures Reconciled(norm, c, previous).locations == c.locations
    ensures Reconciled(norm, c, previous).subscriptions == c.subscriptions
  {
  }

  /** After an update the subscription's locations are exactly the new list in order, all others are
      as they were in order, and nothing before the list's place has moved. */
  lemma UpdateReplacesExactly(norm: Normalizer, c: Config, url: string, latest: seq<Server>)
    ensures var next := Replaced(norm, c, url, latest);
            && Of(next, url) == Wrap(latest, url)
            && Others(next, url) == Others(c, url)
            && FirstOf(c, url) <= |next.locations|
            && next.locations[..FirstOf(c, url)] == c.locations[..FirstOf(c, url)]
            && next.subscriptions == c.subscriptions
  {
    SplicePoint(c, url);
    var at, rest, block := FirstOf(c, url), Others(c, url), Wrap(latest, url);
    ReconcilingMovesNoLocation(norm, c.(locations := Spliced(c, url, latest)), ServerOf(ActiveLocation(c)));
    hide Reconciled, ActiveLocation, FirstOf;
    FilterMembers(c.locations, NotFrom(url));
    assert rest[..at] + rest[at..] == rest;
    assert forall l :: l in rest ==> l.source != Some(url);
    assert forall l :: l in rest[..at] || l in rest[at..] ==> l in rest;
    BlockInPlace(rest[..at], block, rest[at..], url);
    assert Spliced(c, url, latest) == rest[..at] + block + rest[at..];
  }

  // ---- Applying an update twice ----

  lemma {:induction false} NothingMissing(keys: seq<LocationKey>, other: seq<LocationKey>)
    requires forall k :: k in keys ==> k in other
    ensures CountMissing(keys, other) == 0
  {
    if keys != [] {
      NothingMissing(keys[1..], other);
    }
  }

  /** A list already in place is put back where it is. */
  lemma SpliceIsIdempotent(norm: Normalizer, c: Config, url: string, latest: seq<Server>)
    ensures var next := Replaced(norm, c, url, latest);
            Spliced(next, url, latest) == next.locations
  {
    var next := Replaced(norm, c, url, latest);
    SplicePoint(c, url);
    UpdateReplacesExactly(norm, c, url, latest);
    ReconcilingMovesNoLocation(norm, c.(locations := Spliced(c, url, latest)), ServerOf(ActiveLocation(c)));
    var at, rest, block := FirstOf(c, url), Others(c, url), Wrap(latest, url);
    hide Reconciled, ActiveLocation;
    assert next.locations == rest[..at] + block + rest[at..];
    FilterMembers(c.locations, NotFrom(url));
    if block == [] {
      assert next.locations == rest;
      assert forall l :: l in next.locations ==> l.source != Some(url);
      assert FirstOf(next, url) == |rest|;
    } else {
      assert next.locations[at] == block[0];
      assert forall i :: 0 <= i < at ==> next.locations[i] == rest[i];
      assert FirstOf(next, url) == at;
    }
  }

  /** Re-finding a choice that was just re-found finds it again; one that was lost stays lost. */
  lemma RefoundAgain(norm: Normalizer, c: Config, previous: Option<Server>)
    ensures var next := Reconciled(norm, c, previous);
            Reconciled(norm, next, ServerOf(ActiveLocation(next))) == next
  {
    var next := Reconciled(norm, c, previous);
    if c.active.Key? {
      var pool := Filter(c.locations, InScope(ActiveHome(c)));
      var found := Refound(norm, pool, c.active.key, c.activeSource, previous);
      FilterMembers(c.locations, InScope(ActiveHome(c)));
      if found.Some? {
        RefoundIsInPool(norm, pool, c.active.key, c.activeSource, previous);
        var l := found.value;
        var again := Filter(next.locations, InScope(ActiveHome(next)));
        FilterMembers(next.locations, InScope(ActiveHome(next)));
        assert l in again;
        FindIsAtPosition(again, HasKeyFrom(KeyOf(l.server), l.source));
      } else {
        NothingRefound(norm, pool, c.active.key, c.activeSource, previous);
        ActiveIsFound(c);
        FindIsAtPosition(c.locations, HasKeyIn(c.active.key, ActiveHome(c)));
        FindIsAtPosition(c.locations, HasKeyInFrom(c.active.key, ActiveHome(c), c.activeSource));
        assert ActiveLocation(c).None?;
      }
    }
  }

  lemma RefoundIsInPool(norm: Normalizer, pool: seq<Location>, key: LocationKey, source: Option<string>,
                        previous: Option<Server>)
    requires Refound(norm, pool, key, source, previous).Some?
    ensures var l := Refound(norm, pool, key, source, previous).value;
            && l in pool
            && (KeyOf(l.server) == key
                || (previous.Some? && Endpoint(l.server) == Endpoint(previous.value))
                || norm(l.server.name) == norm(key.name))
  {
    FindIsAtPosition(pool, HasKeyFrom(key, source));
    FindIsAtPosition(pool, HasKey(key));
    FindIsAtPosition(pool, HasLabel(norm, key.name));
    if previous.Some? {
      var shared := Filter(pool, HasEndpoint(previous.value));
      FilterMembers(pool, HasEndpoint(previous.value));
      FindIsAtPosition(shared, HasLabel(norm, key.name));
    }
  }

  lemma NothingRefound(norm: Normalizer, pool: seq<Location>, key: LocationKey, source: Option<string>,
                       previous: Option<Server>)
    requires Refound(norm, pool, key, source, previous).None?
    ensures Refound(norm, pool, key, source, None).None?
    ensures forall l :: l in pool ==> KeyOf(l.server) != key
  {
    FindIsAtPosition(pool, HasKey(key));
  }

  /** The position lookup of the source names the first match from the choice's own source, else the first. */
  lemma ActiveIsFound(c: Config)
    requires c.active.Key?
    ensures ActiveLocation(c) == OrElse(Find(c.locations, HasKeyInFrom(c.active.key, ActiveHome(c), c.activeSource)),
                                        Find(c.locations, HasKeyIn(c.active.key, ActiveHome(c))))
  {
    FindIsAtPosition(c.locations, HasKeyInFrom(c.active.key, ActiveHome(c), c.activeSource));
    FindIsAtPosition(c.locations, HasKeyIn(c.active.key, ActiveHome(c)));
  }

  /** Applying the same update again changes neither the locations nor the choice, and reports (0, 0). */
  lemma UpdateIsIdempotent(norm: Normalizer, c: Config, url: string, latest: seq<Server>)
    ensures var next := Replaced(norm, c, url, latest);
            && Replaced(norm, next, url, latest) == next
            && CountMissing(Keys(Wrap(latest, url)), Keys(Of(next, url))) == 0
            && CountMissing(Keys(Of(next, url)), Keys(Wrap(latest, url))) == 0
  {
    var next := Replaced(norm, c, url, latest);
    UpdateReplacesExactly(norm, c, url, latest);
    SpliceIsIdempotent(norm, c, url, latest);
    RefoundAgain(norm, c.(locations := Spliced(c, url, latest)), ServerOf(ActiveLocation(c)));
    hide Reconciled, Spliced;
    assert next.(locations := Spliced(next, url, latest)) == next;
    NothingMissing(Keys(Wrap(latest, url)), Keys(Wrap(latest, url)));
  }

  /** An update never moves the choice to a location that shares neither key, endpoint nor label with it. */
  lemma UpdateNeverPicksAStranger(norm: Normalizer, c: Config, url: string, latest: seq<Server>)
    requires c.active.Key?
    ensures var next := Replaced(norm, c, url, latest);
            next.active == c.active
            || exists l :: l in next.locations && next.active == Key(KeyOf(l.server)) && next.activeSource == l.source
                 && (norm(l.server.name) == norm(c.active.key.name)
                     || (ActiveLocation(c).Some? && Endpoint(l.server) == Endpoint(ActiveLocation(c).value.server)))
  {
    var middle := c.(locations := Spliced(c, url, latest));
    var pool := Filter(middle.locations, InScope(ActiveHome(middle)));
    var previous := ServerOf(ActiveLocation(c));
    FilterMembers(middle.locations, InScope(ActiveHome(middle)));
    hide Spliced, ActiveLocation;
    if Refound(norm, pool, c.active.key, c.activeSource, previous).Some? {
      RefoundIsInPool(norm, pool, c.active.key, c.activeSource, previous);
    }
  }

  // ---- A choice made in a subscription ----

  predicate Chose(c: Config, key: LocationKey, home: string) {
    c.active == Key(key) && c.activeSource == Some(home) && home in c.subscriptions
  }

  lemma HomeIsPool(c: Config, key: LocationKey, home: string)
    requires Chose(c, key, home)
    ensures Filter(c.locations, InScope(ActiveHome(c))) == Of(c, home)
    ensures forall l :: l in Of(c, home) ==> l.source == Some(home)
    ensures ActiveLocation(c) == Find(Of(c, home), HasKey(key))
  {
    FilterExtensional(c.locations, InScope(ActiveHome(c)), From(home));
    FilterMembers(c.locations, From(home));
    ActiveIsFound(c);
    FindInFilter(c.locations, From(home), HasKey(key), HasKeyIn(key, Some(home)));
    FindExtensional(c.locations, HasKeyIn(key, Some(home)), HasKeyInFrom(key, Some(home), Some(home)));
  }

  lemma PresentChoiceStays(norm: Normalizer, c: Config, previous: Option<Server>, key: LocationKey, home: string)
    requires Chose(c, key, home) && exists l :: l in Of(c, home) && KeyOf(l.server) == key
    ensures Reconciled(norm, c, previous) == c
  {
    HomeIsPool(c, key, home);
    FindExtensional(Of(c, home), HasKeyFrom(key, Some(home)), HasKey(key));
    FindIsAtPosition(Of(c, home), HasKey(key));
  }

  lemma {:induction false} FilterPastOthers(s: seq<Location>, url: string, home: string)
    requires url != home
    ensures Filter(Filter(s, NotFrom(url)), From(home)) == Filter(s, From(home))
  {
    if s != [] {
      FilterPastOthers(s[1..], url, home);
    }
  }

  lemma OthersKeepHome(c: Config, next: Config, url: string, home: string)
    requires url != home && Others(next, url) == Others(c, url)
    ensures Of(next, home) == Of(c, home)
  {
    FilterPastOthers(c.locations, url, home);
    FilterPastOthers(next.locations, url, home);
  }

  lemma ManualKeepsHome(c: Config, server: Server, home: string)
    ensures Of(WithManual(c, server), home) == Of(c, home)
  {
    var at := Position(c.locations, HasKeyFrom(KeyOf(server), None));
    var added := [Location(server, None)];
    if at.Some? {
      var a, taken, b := c.locations[..at.value], [c.locations[at.value]], c.locations[at.value + 1..];
      assert c.locations == a + taken + b;
      assert WithManual(c, server).locations == a + added + b;
      FilterConcat(a + taken, b, From(home));
      FilterConcat(a, taken, From(home));
      FilterConcat(a + added, b, From(home));
      FilterConcat(a, added, From(home));
    } else {
      FilterConcat(c.locations, added, From(home));
    }
  }

  datatype Op = Update(url: string, latest: seq<Server>) | RemoveSub(index: nat) | AddByHand(server: Server)

  /** Removing a subscription that does not exist is not a command anyone can give. */
  function Exec(norm: Normalizer, c: Config, op: Op): Config {
    match op
    case Update(url, latest) => Replaced(norm, c, url, latest)
    case RemoveSub(index) => if index < |c.subscriptions| then Removed(norm, c, index) else c
    case AddByHand(server) => WithManual(c, server)
  }

  function Run(norm: Normalizer, c: Config, ops: seq<Op>): Config
    decreases |ops|
  {
    if ops == [] then c else Run(norm, Exec(norm, c, ops[0]), ops[1..])
  }

  /** The operation is about something else than the subscription `home`. */
  predicate Elsewhere(c: Config, op: Op, home: string) {
    match op
    case Update(url, _) => url != home
    case RemoveSub(index) => index < |c.subscriptions| ==> c.subscriptions[index] != home
    case AddByHand(_) => true
  }

  predicate AllElsewhere(norm: Normalizer, c: Config, ops: seq<Op>, home: string)
    decreases |ops|
  {
    ops == [] || (Elsewhere(c, ops[0], home) && AllElsewhere(norm, Exec(norm, c, ops[0]), ops[1..], home))
  }

  /** The store right before the choice is re-found, for an operation about something else. */
  lemma ElsewhereKeepsHome(norm: Normalizer, c: Config, op: Op, key: LocationKey, home: string)
    requires Chose(c, key, home) && Elsewhere(c, op, home)
    ensures Of(Exec(norm, c, op), home) == Of(c, home)
    ensures home in Exec(norm, c, op).subscriptions
  {
    match op
    case Update(url, latest) =>
      UpdateReplacesExactly(norm, c, url, latest);
      OthersKeepHome(c, Exec(norm, c, op), url, home);
    case RemoveSub(index) =>
      if index < |c.subscriptions| {
        var url := c.subscriptions[index];
        var kept := c.subscriptions[..index] + c.subscriptions[index + 1..];
        assert home in kept by {
          assert c.subscriptions == c.subscriptions[..index] + [url] + c.subscriptions[index + 1..];
        }
        ReconcilingMovesNoLocation(norm, c.(subscriptions := kept, locations := Others(c, url)),
                                   ServerOf(ActiveLocation(c)));
        FilterPastOthers(c.locations, url, home);
      }
    case AddByHand(server) => ManualKeepsHome(c, server, home);
  }

  /** Through any updates, removals and manual additions elsewhere, a choice present in its subscription
      stays the same key, the same source and the same server. */
  lemma {:induction false} ChoiceSurvivesOthers(norm: Normalizer, c: Config, ops: seq<Op>, key: LocationKey,
                                                home: string)
    requires Chose(c, key, home) && ActiveLocation(c).Some? && AllElsewhere(norm, c, ops, home)
    ensures var end := Run(norm, c, ops);
            && Chose(end, key, home)
            && ActiveLocation(end) == ActiveLocation(c)
            && ActiveLocation(c).value.source == Some(home)
    decreases |ops|
  {
    HomeIsPool(c, key, home);
    FindIsAtPosition(Of(c, home), HasKey(key));
    if ops == [] {
    } else {
      ElsewhereKeepsChoice(norm, c, ops[0], key, home);
      var next := Exec(norm, c, ops[0]);
      HomeIsPool(next, key, home);
      ChoiceSurvivesOthers(norm, next, ops[1..], key, home);
    }
  }

  /** With the choice absent nothing elsewhere can replace it either: it stays as it was made. */
  lemma ElsewhereKeepsChoice(norm: Normalizer, c: Config, op: Op, key: LocationKey, home: string)
    requires Chose(c, key, home) && Elsewhere(c, op, home)
    requires ActiveLocation(c).Some? || NoLabelMatch(norm, Of(c, home), key)
    ensures Chose(Exec(norm, c, op), key, home)
    ensures Of(Exec(norm, c, op), home) == Of(c, home)
  {
    ElsewhereKeepsHome(norm, c, op, key, home);
    HomeIsPool(c, key, home);
    FindIsAtPosition(Of(c, home), HasKey(key));
    match op
    case Update(url, latest) =>
      var middle := c.(locations := Spliced(c, url, latest));
      StoredBeforeReconciling(norm, c, middle, Exec(norm, c, op), key, home);
    case RemoveSub(index) =>
      if index < |c.subscriptions| {
        var kept := c.subscriptions[..index] + c.subscriptions[index + 1..];
        var middle := c.(subscriptions := kept, locations := Others(c, c.subscriptions[index]));
        StoredBeforeReconciling(norm, c, middle, Exec(norm, c, op), key, home);
      }
    case AddByHand(_) =>
  }

  predicate NoLabelMatch(norm: Normalizer, locations: seq<Location>, key: LocationKey) {
    forall i :: 0 <= i < |locations| ==> norm(locations[i].server.name) != norm(key.name)
  }

  lemma StoredBeforeReconciling(norm: Normalizer, c: Config, middle: Config, next: Config, key: LocationKey,
                                home: string)
    requires Chose(c, key, home)
    requires middle.active == c.active && middle.activeSource == c.activeSource
    requires next == Reconciled(norm, middle, ServerOf(ActiveLocation(c)))
    requires home in next.subscriptions && Of(next, home) == Of(c, home)
    requires ActiveLocation(c).Some? || NoLabelMatch(norm, Of(c, home), key)
    ensures Chose(next, key, home)
  {
    ReconcilingMovesNoLocation(norm, middle, ServerOf(ActiveLocation(c)));
    assert Of(middle, home) == Of(c, home);
    HomeIsPool(c, key, home);
    HomeIsPool(middle, key, home);
    FindIsAtPosition(Of(c, home), HasKey(key));
    if ActiveLocation(c).Some? {
      PresentChoiceStays(norm, middle, ServerOf(ActiveLocation(c)), key, home);
    } else {
      LostChoiceStays(norm, middle, None, key, home);
    }
  }

  /** A store of the home subscription that offers no match leaves a lost choice as it was made. */
  lemma LostChoiceStays(norm: Normalizer, c: Config, previous: Option<Server>, key: LocationKey, home: string)
    requires Chose(c, key, home) && NoLabelMatch(norm, Of(c, home), key)
    requires previous.Some? ==> forall l :: l in Of(c, home) ==> Endpoint(l.server) != Endpoint(previous.value)
    ensures Reconciled(norm, c, previous) == c
  {
    HomeIsPool(c, key, home);
    var pool := Of(c, home);
    FindIsAtPosition(pool, HasKey(key));
    FindIsAtPosition(pool, HasKeyFrom(key, Some(home)));
    FindIsAtPosition(pool, HasLabel(norm, key.name));
    if previous.Some? {
      FilterNone(pool, HasEndpoint(previous.value));
    }
  }

  /** Until the choice comes back, its own subscription offers neither its label nor, to a choice still
      there, its endpoint. */
  predicate Quiet(norm: Normalizer, c: Config, op: Op, key: LocationKey, home: string) {
    if op.Update? && op.url == home then
      && NoLabelMatch(norm, Wrap(op.latest, home), key)
      && (ActiveLocation(c).Some? ==>
            forall i :: 0 <= i < |op.latest| ==> Endpoint(op.latest[i]) != Endpoint(ActiveLocation(c).value.server))
    else Elsewhere(c, op, home)
  }

  predicate AllQuiet(norm: Normalizer, c: Config, ops: seq<Op>, key: LocationKey, home: string)
    decreases |ops|
  {
    ops == [] || (Quiet(norm, c, ops[0], key, home) && AllQuiet(norm, Exec(norm, c, ops[0]), ops[1..], key, home))
  }

  lemma QuietKeepsChoice(norm: Normalizer, c: Config, op: Op, key: LocationKey, home: string)
    requires Chose(c, key, home) && Quiet(norm, c, op, key, home)
    requires ActiveLocation(c).Some? || NoLabelMatch(norm, Of(c, home), key)
    ensures var next := Exec(norm, c, op);
            Chose(next, key, home) && (ActiveLocation(next).Some? || NoLabelMatch(norm, Of(next, home), key))
  {
    var next := Exec(norm, c, op);
    if op.Update? && op.url == home {
      UpdateReplacesExactly(norm, c, home, op.latest);
      var middle := c.(locations := Spliced(c, home, op.latest));
      ReconcilingMovesNoLocation(norm, middle, ServerOf(ActiveLocation(c)));
      assert Of(middle, home) == Wrap(op.latest, home);
      LostChoiceStays(norm, middle, ServerOf(ActiveLocation(c)), key, home);
    } else {
      ElsewhereKeepsChoice(norm, c, op, key, home);
      HomeIsPool(c, key, home);
      HomeIsPool(next, key, home);
    }
  }

  /** A choice that vanished is restored by the first later update of its own subscription that carries
      its key, when no update in between offered an endpoint or label match. */
  lemma {:induction false} LostChoiceComesBack(norm: Normalizer, c: Config, ops: seq<Op>, latest: seq<Server>,
                                               key: LocationKey, home: string)
    requires Chose(c, key, home) && AllQuiet(norm, c, ops, key, home)
    requires ActiveLocation(c).Some? || NoLabelMatch(norm, Of(c, home), key)
    requires exists i :: 0 <= i < |latest| && KeyOf(latest[i]) == key
    ensures var before := Run(norm, c, ops);
            var end := Exec(norm, before, Update(home, latest));
            && Chose(before, key, home)
            && Chose(end, key, home)
            && ActiveLocation(end) == Find(Wrap(latest, home), HasKey(key))
            && ActiveLocation(end).Some?
    decreases |ops|
  {
    if ops == [] {
      UpdateReplacesExactly(norm, c, home, latest);
      var middle := c.(locations := Spliced(c, home, latest));
      ReconcilingMovesNoLocation(norm, middle, ServerOf(ActiveLocation(c)));
      var i :| 0 <= i < |latest| && KeyOf(latest[i]) == key;
      assert Wrap(latest, home)[i] in Of(middle, home);
      PresentChoiceStays(norm, middle, ServerOf(ActiveLocation(c)), key, home);
      HomeIsPool(Exec(norm, c, Update(home, latest)), key, home);
      FindIsAtPosition(Wrap(latest, home), HasKey(key));
    } else {
      QuietKeepsChoice(norm, c, ops[0], key, home);
      LostChoiceComesBack(norm, Exec(norm, c, ops[0]), ops[1..], latest, key, home);
    }
  }
}
