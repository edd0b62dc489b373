/** Reading the loopback ports of a probe document, and putting reserved ones in their place. */
module ValidationPorts {
  import opened Basics
  import opened JsonValues
  import opened ConfigChecker

  predicate UsablePort(port: Option<Json>) {
    port.Some? && port.value.Num? && 1024 <= port.value.number < 0x1_0000
  }

  /** `validation_config_ports`. */
  function ReadPorts(doc: Json): Option<seq<nat>> {
    var inbounds := ItemsAt(doc, Inbounds);
    if inbounds.None? || !(1 <= |inbounds.value| <= MAX_SERVER_IPS) then None
    else if forall i :: 0 <= i < |inbounds.value| ==> UsablePort(Get(inbounds.value[i], Port)) then
      Some(seq(|inbounds.value|, i requires 0 <= i < |inbounds.value| => Get(inbounds.value[i], Port).value.number))
    else None
  }

  /** Ports a document may be moved to: unprivileged, and no two the same. */
  predicate GoodPorts(ports: seq<nat>) {
    && 1 <= |ports| <= MAX_SERVER_IPS
    && (forall i :: 0 <= i < |ports| ==> 1024 <= ports[i])
    && (forall i, j :: 0 <= i < j < |ports| ==> ports[i] != ports[j])
  }

  predicate SixteenBit(ports: seq<nat>) {
    forall i :: 0 <= i < |ports| ==> ports[i] < 0x1_0000
  }

  /** Assigning to a key makes an object of nothing, and is only possible on an object otherwise. */
  predicate Indexable(inbound: Json) { inbound.Obj? || inbound.Null? }

  function SetPort(inbound: Json, port: nat): Json {
    Obj((if inbound.Obj? then inbound.fields else map[])[Port := Num(port)])
  }

  function SetPorts(inbounds: seq<Json>, ports: seq<nat>): seq<Json>
    requires |inbounds| == |ports|
  {
    seq(|inbounds|, i requires 0 <= i < |inbounds| => SetPort(inbounds[i], ports[i]))
  }

  function WithInbounds(doc: Json, inbounds: seq<Json>): Json
    requires doc.Obj?
  {
    Obj(doc.fields[Inbounds := Arr(inbounds)])
  }

  function WithPorts(doc: Json, ports: seq<nat>): Option<Json> {
    var inbounds := ItemsAt(doc, Inbounds);
    if !GoodPorts(ports) || inbounds.None? || |inbounds.value| != |ports| then None
    else Some(WithInbounds(doc, SetPorts(inbounds.value, ports)))
  }

  /** `validation_config_with_ports`. */
  method ValidationConfigWithPorts(doc: Json, ports: seq<nat>) returns (r: Option<Json>)
    requires var inbounds := Flat(ItemsAt(doc, Inbounds)); forall i :: 0 <= i < |inbounds| ==> Indexable(inbounds[i])
    ensures r == WithPorts(doc, ports)
    ensures r.Some? && SixteenBit(ports) ==> ReadPorts(r.value) == Some(ports)
  {
    if |ports| == 0 || |ports| > MAX_SERVER_IPS
       || (exists i :: 0 <= i < |ports| && ports[i] < 1024)
       || |set i | 0 <= i < |ports| :: ports[i]| != |ports| {
      AllDifferent(ports);
      return None;
    }
    AllDifferent(ports);
    var inbounds := ItemsAt(doc, Inbounds);
    if inbounds.None? || |inbounds.value| != |ports| {
      return None;
    }
    var items := inbounds.value;
    for index := 0 to |ports|
      invariant |items| == |ports|
      invariant forall i :: 0 <= i < index ==> items[i] == SetPort(inbounds.value[i], ports[i])
      invariant forall i :: index <= i < |ports| ==> items[i] == inbounds.value[i]
    {
      items := items[index := SetPort(items[index], ports[index])];
    }
    assert items == SetPorts(inbounds.value, ports);
    r := Some(WithInbounds(doc, items));
    if SixteenBit(ports) {
      PortsReadBack(doc, ports);
    }
  }

  /** A list has as many elements as it has values exactly when no two are the same. */
  lemma {:induction false} AllDifferent(ports: seq<nat>)
    ensures var values := set i | 0 <= i < |ports| :: ports[i];
            && |values| <= |ports|
            && (|values| == |ports| <==> forall i, j :: 0 <= i < j < |ports| ==> ports[i] != ports[j])
  {
    if ports != [] {
      var last := |ports| - 1;
      var front := ports[..last];
      AllDifferent(front);
      var before := set i | 0 <= i < |front| :: front[i];
      var values := set i | 0 <= i < |ports| :: ports[i];
      assert values == before + {ports[last]} by {
        forall p | p in before ensures p in values {
          var i :| 0 <= i < |front| && front[i] == p;
          assert ports[i] == p;
        }
        forall p | p in values ensures p in before + {ports[last]} {
          var i :| 0 <= i < |ports| && ports[i] == p;
          assert i < last ==> front[i] == p;
        }
      }
      assert forall i :: 0 <= i < last ==> front[i] == ports[i];
      if ports[last] in before {
        assert values == before;
        var i :| 0 <= i < |front| && front[i] == ports[last];
        assert ports[i] == ports[last];
      }
    }
  }

  lemma PortsReadBack(doc: Json, ports: seq<nat>)
    requires WithPorts(doc, ports).Some? && SixteenBit(ports)
    ensures ReadPorts(WithPorts(doc, ports).value) == Some(ports)
  {
    var moved := WithPorts(doc, ports).value;
    var inbounds := ItemsAt(moved, Inbounds).value;
    assert forall i :: 0 <= i < |inbounds| ==> Get(inbounds[i], Port) == Some(Num(ports[i]));
    assert ReadPorts(moved).value == ports;
  }

  // ---- Acceptance does not depend on which ports ----

  lemma SetPortKeepsClean(inbound: Json, port: nat)
    requires Clean(inbound)
    ensures Clean(SetPort(inbound, port))
  {
    hide HasFileKey;
    CleanIsStructural(inbound);
    CleanIsStructural(SetPort(inbound, port));
  }

  lemma WithInboundsClean(doc: Json, inbounds: seq<Json>)
    requires doc.Obj? && Clean(doc) && CleanItems(inbounds)
    ensures Clean(WithInbounds(doc, inbounds))
  {
    hide HasFileKey;
    CleanIsStructural(doc);
    CleanIsStructural(Arr(inbounds));
    CleanIsStructural(WithInbounds(doc, inbounds));
  }

  lemma MovedIsClean(doc: Json, ports: seq<nat>)
    requires doc.Obj? && Clean(doc) && ItemsAt(doc, Inbounds).Some? && |ItemsAt(doc, Inbounds).value| == |ports|
    ensures Clean(WithInbounds(doc, SetPorts(ItemsAt(doc, Inbounds).value, ports)))
  {
    hide HasFileKey;
    var inbounds := ItemsAt(doc, Inbounds).value;
    CleanIsStructural(doc);
    CleanIsStructural(doc.fields[Inbounds]);
    forall i | 0 <= i < |ports|
      ensures Clean(SetPorts(inbounds, ports)[i])
    {
      SetPortKeepsClean(inbounds[i], ports[i]);
    }
    WithInboundsClean(doc, SetPorts(inbounds, ports));
  }

  lemma MovedInbound(inbound: Json, index: nat, before: seq<nat>, ports: seq<nat>)
    requires index < |before| == |ports| && PingInbound(inbound, index, before)
    ensures PingInbound(SetPort(inbound, ports[index]), index, ports)
    ensures RawTag(SetPort(inbound, ports[index])) == RawTag(inbound)
  {
  }

  lemma MovedIsAccepted(doc: Json, before: seq<nat>, ports: seq<nat>)
    requires |before| == |ports| && PingAccepted(doc, before)
    ensures PingAccepted(WithInbounds(doc, SetPorts(ItemsAt(doc, Inbounds).value, ports)), ports)
  {
    hide HasFileKey, PingInbound, PingRule, PingProxies, PingBalancers, TagSet, SetPort, RawTag, Clean;
    var inbounds := ItemsAt(doc, Inbounds).value;
    var moved := WithInbounds(doc, SetPorts(inbounds, ports));
    forall i | 0 <= i < |ports|
      ensures PingInbound(SetPort(inbounds[i], ports[i]), i, ports)
      ensures RawTag(SetPort(inbounds[i], ports[i])) == RawTag(inbounds[i])
    {
      MovedInbound(inbounds[i], i, before, ports);
    }
    assert LogFine(moved) && ItemsAt(moved, Outbounds) == ItemsAt(doc, Outbounds)
           && Get(moved, Routing) == Get(doc, Routing);
    MovedIsClean(doc, ports);
  }

  lemma MovedBack(doc: Json, before: seq<nat>, ports: seq<nat>)
    requires ReadPorts(doc) == Some(before) && |before| == |ports|
    ensures var moved := WithInbounds(doc, SetPorts(ItemsAt(doc, Inbounds).value, ports));
            WithInbounds(moved, SetPorts(ItemsAt(moved, Inbounds).value, before)) == doc
  {
    var inbounds := ItemsAt(doc, Inbounds).value;
    assert |before| == |inbounds|;
    forall i | 0 <= i < |inbounds|
      ensures SetPort(SetPort(inbounds[i], ports[i]), before[i]) == inbounds[i]
    {
      assert UsablePort(Get(inbounds[i], Port));
      assert inbounds[i].fields[Port] == Num(before[i]);
      assert inbounds[i].fields[Port := Num(ports[i])][Port := Num(before[i])] == inbounds[i].fields;
    }
    var moved := WithInbounds(doc, SetPorts(inbounds, ports));
    assert SetPorts(ItemsAt(moved, Inbounds).value, before) == inbounds;
    assert moved.fields[Inbounds := Arr(inbounds)] == doc.fields;
  }

  /** Any document whose ports can be read can be moved to fresh ones; the daemon then reads exactly those,
      accepts it exactly when it accepted the template, and moving it back restores the template. */
  lemma PortsAreImmaterial(doc: Json, before: seq<nat>, ports: seq<nat>)
    requires ReadPorts(doc) == Some(before)
    requires GoodPorts(ports) && SixteenBit(ports) && |ports| == |before|
    ensures var moved := WithPorts(doc, ports);
            && moved.Some? && ReadPorts(moved.value) == Some(ports)
            && (PingAccepted(moved.value, ports) <==> PingAccepted(doc, before))
            && (GoodPorts(before) ==> WithPorts(moved.value, before) == Some(doc))
  {
    hide PingAccepted, SetPorts;
    var inbounds := ItemsAt(doc, Inbounds).value;
    assert |inbounds| == |before|;
    var moved := WithPorts(doc, ports).value;
    PortsReadBack(doc, ports);
    MovedBack(doc, before, ports);
    if PingAccepted(doc, before) {
      MovedIsAccepted(doc, before, ports);
    }
    if PingAccepted(moved, ports) {
      MovedIsAccepted(moved, ports, before);
    }
    assert |ItemsAt(moved, Inbounds).value| == |before|;
  }
}
