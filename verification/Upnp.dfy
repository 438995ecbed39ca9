/** The registry and its devices as the C code has them: records that are changed in place. */
module Upnp {
  import opened Subscription
  import opened RegistryModel

  class DeviceObject {
    const birth: nat
    var contexts: seq<Context>
    var timer: bool

    ghost function View(): Device
      reads this
    {
      Device(birth, contexts, timer)
    }

    constructor (birth: nat, ip: string, services: set<Service>)
      ensures View() == NewDevice(birth, ip, services)
    {
      this.birth := birth;
      contexts, timer := [NewContext(ip, services)], false;
    }

    /** rsu_device_get_context. */
    method GetContext() returns (p: nat)
      requires contexts != []
      ensures p < |contexts| && p == Preferred(contexts)
      ensures Loopback(contexts[p].ip) || (p == 0 && forall n :: 0 <= n < |contexts| ==> !Loopback(contexts[n].ip))
      ensures Loopback(contexts[p].ip) ==> forall n :: 0 <= n < p ==> !Loopback(contexts[n].ip)
    {
      p := 0;
      while p < |contexts| && !Loopback(contexts[p].ip)
        invariant 0 <= p <= |contexts|
        invariant forall n :: 0 <= n < p ==> !Loopback(contexts[n].ip)
      {
        p := p + 1;
      }
      FirstLoopbackIs(contexts, p);
      if p == |contexts| { p := 0; }
    }

    /** prv_device_get_subscribed_context; the number of contexts stands for NULL. */
    method GetSubscribedContext() returns (s: nat)
      ensures s == FirstSubscribed(contexts)
    {
      s := 0;
      while s < |contexts| && contexts[s].subscribed == {}
        invariant 0 <= s <= |contexts|
        invariant forall n :: 0 <= n < s ==> contexts[n].subscribed == {}
      {
        s := s + 1;
      }
      FirstSubscribedIs(contexts, s);
    }

    /** The loop over the contexts with which a context is looked up by its address. */
    method FindContext(ip: string) returns (i: nat)
      ensures i == FindIp(contexts, ip)
    {
      i := 0;
      while i < |contexts| && contexts[i].ip != ip
        invariant 0 <= i <= |contexts|
        invariant forall n :: 0 <= n < i ==> contexts[n].ip != ip
      {
        i := i + 1;
      }
      FindIpIs(contexts, ip, i);
    }

    /** rsu_device_subscribe_to_service_changes. */
    method SubscribeToServiceChanges()
      requires contexts != []
      modifies this
      ensures View() == Resubscribed(old(View()))
    {
      var p := GetContext();
      var c := contexts[p];
      if ConnectionManager in c.services { c := c.(subscribed := c.subscribed + {ConnectionManager}); }
      if AvTransport in c.services { c := c.(subscribed := c.subscribed + {AvTransport}); }
      if RenderingControl in c.services { c := c.(subscribed := c.subscribed + {RenderingControl}); }
      AllServices(contexts[p].services);
      assert c.subscribed == contexts[p].subscribed + contexts[p].services;
      contexts := contexts[p := c];
    }

    /** prv_rsu_context_unsubscribe. */
    method UnsubscribeContext(i: nat)
      requires i < |contexts|
      modifies this
      ensures View() == old(View()).(contexts := old(contexts)[i := Unsubscribed(old(contexts)[i])])
    {
      contexts := contexts[i := contexts[i].(expiring := {}, subscribed := {})];
    }

    /** prv_device_subscribe_context. */
    method SubscribeContext()
      requires contexts != []
      modifies this
      ensures View() == Switched(old(View()))
    {
      var s := GetSubscribedContext();
      var p := GetContext();
      if s != p {
        if s < |contexts| {
          UnsubscribeContext(s);
        }
        SubscribeToServiceChanges();
      }
    }

    /** rsu_device_append_new_context. */
    method AppendNewContext(ip: string, services: set<Service>)
      modifies this
      ensures View() == Switched(old(View()).(contexts := old(contexts) + [NewContext(ip, services)]))
    {
      contexts := contexts + [NewContext(ip, services)];
      SubscribeContext();
    }

    /** g_ptr_array_remove_index on the contexts, and the timer that makes up for it. */
    method RemoveContext(i: nat)
      requires i < |contexts|
      modifies this
      ensures View() == Removed(old(View()), i)
    {
      var subscribed := AvTransport in contexts[i].subscribed || ConnectionManager in contexts[i].subscribed;
      contexts := contexts[..i] + contexts[i + 1..];
      if contexts != [] && subscribed && !timer {
        timer := true;
      }
    }

    /** prv_subscribe_to_service_changes, the callback of the timer. */
    method TimerFires()
      requires contexts != []
      modifies this
      ensures View() == TimerFired(old(View()))
    {
      timer := false;
      SubscribeToServiceChanges();
    }

    /** The callbacks for a lost subscription. */
    method SubscriptionLost(i: nat, v: Service)
      requires i < |contexts|
      modifies this
      ensures View() == Lost(old(View()), i, v)
    {
      var c := contexts[i];
      if v !in c.expiring {
        contexts := contexts[i := c.(expiring := c.expiring + {v})];
      } else {
        contexts := contexts[i := c.(expiring := c.expiring - {v}, subscribed := c.subscribed - {v})];
      }
    }

    /** The callbacks ten seconds later. */
    method WindowOver(i: nat, v: Service)
      requires i < |contexts|
      modifies this
      ensures View() == Expired(old(View()), i, v)
    {
      contexts := contexts[i := contexts[i].(expiring := contexts[i].expiring - {v})];
    }
  }

  class UpnpObject {
    var serverUdnMap: map<string, DeviceObject>
    var serverUcMap: map<string, DeviceObject>
    var counter: nat
    // What the devices look like, how far their chains have got, the signals sent, and who got which number.
    ghost var known: map<string, Device>
    ghost var building: map<string, Building>
    ghost var signals: seq<Signal>
    ghost var names: seq<string>

    constructor ()
      ensures Valid() && View() == EMPTY
    {
      serverUdnMap, serverUcMap, counter := map[], map[], 0;
      known, building, signals, names := map[], map[], [], [];
    }

    ghost function View(): Registry
      reads this
    {
      Registry(known, building, counter, signals, names)
    }

    ghost predicate Shown(udn: string)
      requires udn in serverUdnMap && udn in known
      reads this`serverUdnMap, this`known, serverUdnMap[udn]
    {
      known[udn] == serverUdnMap[udn].View()
    }

    ghost predicate ShownBuilding(udn: string)
      requires udn in serverUcMap && udn in building
      reads this`serverUcMap, this`building, serverUcMap[udn]
    {
      building[udn].device == serverUcMap[udn].View()
    }

    ghost predicate Valid()
      reads this, serverUdnMap.Values, serverUcMap.Values
    {
      && Births(View())
      && known.Keys == serverUdnMap.Keys && building.Keys == serverUcMap.Keys
      && (forall u :: u in serverUdnMap ==> Shown(u))
      && (forall u :: u in serverUcMap ==> ShownBuilding(u))
    }

    /** The device of udn looked up in the two maps. */
    ghost function Lookup(udn: string): DeviceObject
      requires udn in serverUdnMap || udn in serverUcMap
      reads this
    {
      if udn in serverUdnMap then serverUdnMap[udn] else serverUcMap[udn]
    }

    lemma LookupFacts(udn: string)
      requires Valid() && (udn in serverUdnMap || udn in serverUcMap)
      ensures (udn in known <==> udn in serverUdnMap) && (udn in building <==> udn in serverUcMap)
      ensures Lookup(udn).View() == DeviceFor(View(), udn)
    {
      assert udn in serverUdnMap ==> Shown(udn);
      assert udn in serverUcMap ==> ShownBuilding(udn);
    }

    /** Only the device of udn has changed, and the view has followed it. */
    twostate lemma StillValid(udn: string)
      requires old(Valid()) && (udn in serverUdnMap || udn in serverUcMap)
      requires serverUdnMap == old(serverUdnMap) && serverUcMap == old(serverUcMap)
      requires Lookup(udn).View().birth == old(Lookup(udn).View()).birth
      requires View() == PutDevice(old(View()), udn, Lookup(udn).View())
      requires forall u :: u in serverUdnMap && serverUdnMap[u] != Lookup(udn) ==> unchanged(serverUdnMap[u])
      requires forall u :: u in serverUcMap && serverUcMap[u] != Lookup(udn) ==> unchanged(serverUcMap[u])
      ensures Valid()
    {
      hide Births;
      assert udn in serverUdnMap ==> old(Shown(udn));
      assert udn in serverUcMap ==> old(ShownBuilding(udn));
      PutDeviceKeeps(old(View()), udn, Lookup(udn).View());
      forall u | u in serverUdnMap
        ensures Shown(u)
      {
        assert old(Shown(u));
        if u != udn { BirthsDiffer(old(View()), u, udn); }
      }
      forall u | u in serverUcMap
        ensures ShownBuilding(u)
      {
        assert old(ShownBuilding(u));
        BirthsDisjoint(old(View()), u);
        if u != udn { BirthsDiffer(old(View()), u, udn); }
      }
    }

    /** No device has changed; the maps hold what they held, or a device has gone from one to the other. */
    twostate lemma Regrouped()
      requires old(Valid()) && Births(View())
      requires known.Keys == serverUdnMap.Keys && building.Keys == serverUcMap.Keys
      requires forall u :: u in serverUdnMap ==>
        || (u in old(serverUdnMap) && serverUdnMap[u] == old(serverUdnMap[u]) && known[u] == old(known[u]))
        || (u in old(serverUcMap) && serverUdnMap[u] == old(serverUcMap[u]) && known[u] == old(building[u].device))
      requires forall u :: u in serverUcMap ==>
        || (u in old(serverUcMap) && serverUcMap[u] == old(serverUcMap[u]) &&
             building[u].device == old(building[u].device))
        || (u !in old(serverUcMap) && ShownBuilding(u))
      requires forall u :: u in old(serverUdnMap) ==> unchanged(old(serverUdnMap[u]))
      requires forall u :: u in old(serverUcMap) ==> unchanged(old(serverUcMap[u]))
      ensures Valid()
    {
      hide Births;
      forall u | u in serverUdnMap
        ensures Shown(u)
      {
        assert u in old(serverUdnMap) ==> old(Shown(u));
        assert u in old(serverUcMap) ==> old(ShownBuilding(u));
      }
      forall u | u in serverUcMap
        ensures ShownBuilding(u)
      {
        assert u in old(serverUcMap) ==> old(ShownBuilding(u));
      }
    }

    /** The view follows a change of one device. */
    ghost method Follow(udn: string, device: DeviceObject)
      requires udn in serverUdnMap || udn in serverUcMap
      requires device == Lookup(udn) && (udn in known <==> udn in serverUdnMap) &&
        (udn in building <==> udn in serverUcMap)
      modifies this`known, this`building
      ensures View() == PutDevice(old(View()), udn, device.View())
    {
      if udn in serverUdnMap {
        known := known[udn := device.View()];
      } else {
        building := building[udn := building[udn].(device := device.View())];
      }
    }

    /** A device that is not there yet is put under construction. */
    method AddDevice(udn: string, ip: string, services: set<Service>)
      requires Valid() && udn !in serverUdnMap && udn !in serverUcMap
      modifies this
      ensures Valid() && View() == AddNew(old(View()), udn, ip, services)
    {
      hide Births, Shown, ShownBuilding, AddNew;
      var device := new DeviceObject(counter, ip, services);
      Insert(udn, device, ip, services);
    }

    method Insert(udn: string, device: DeviceObject, ghost ip: string, ghost services: set<Service>)
      requires Valid() && udn !in serverUdnMap && udn !in serverUcMap
      requires device.View() == NewDevice(counter, ip, services)
      modifies this
      ensures Valid() && View() == AddNew(old(View()), udn, ip, services)
    {
      hide Births, Shown, Valid;
      SameKeys();
      AddNewBirths(View(), udn, ip, services);
      Enter(udn, device);
      assert View() == AddNew(old(View()), udn, ip, services);
      assert ShownBuilding(udn);
      Regrouped();
    }

    /** The new device takes its number and its place. */
    method Enter(udn: string, device: DeviceObject)
      modifies this`counter, this`serverUcMap, this`building, this`names
      ensures counter == old(counter) + 1 && serverUcMap == old(serverUcMap)[udn := device]
      ensures building == old(building)[udn := Building(device.View(), Running(false))] && names == old(names) + [udn]
    {
      counter := counter + 1;
      serverUcMap := serverUcMap[udn := device];
      building := building[udn := Building(device.View(), Running(false))];
      names := names + [udn];
    }

    lemma SameKeys()
      requires Valid()
      ensures Births(View()) && known.Keys == serverUdnMap.Keys && building.Keys == serverUcMap.Keys
    {}

    /** prv_server_available_cb. */
    method ServerAvailable(udn: string, ip: string, services: set<Service>)
      requires Valid()
      modifies this, serverUdnMap.Values, serverUcMap.Values
      ensures Valid() && View() == BecomeAvailable(old(View()), udn, ip, services)
    {
      hide Births, Shown, ShownBuilding, Switched, FindIp, AddNew, PutDevice;
      if udn !in serverUdnMap && udn !in serverUcMap {
        AddDevice(udn, ip, services);
      } else {
        LookupFacts(udn);
        var device := if udn in serverUdnMap then serverUdnMap[udn] else serverUcMap[udn];
        var i := device.FindContext(ip);
        if i == |device.contexts| {
          device.AppendNewContext(ip, services);
        }
        Follow(udn, device);
        StillValid(udn);
      }
    }

    /** prv_server_unavailable_cb. */
    method ServerUnavailable(udn: string, ip: string)
      requires Valid() && Safe(View(), Unavailable(udn, ip))
      modifies this, serverUdnMap.Values, serverUcMap.Values
      ensures Valid() && View() == BecomeUnavailable(old(View()), udn, ip)
    {
      hide Births, Shown, ShownBuilding, FindIp, PutDevice, DropDevice, Removed, Safe;
      if udn in serverUdnMap || udn in serverUcMap {
        LookupFacts(udn);
        var device := if udn in serverUdnMap then serverUdnMap[udn] else serverUcMap[udn];
        var i := device.FindContext(ip);
        if i < |device.contexts| {
          StillCancellable(View(), udn, ip);
          LoseContext(udn, device, i);
          if device.contexts == [] {
            LoseDevice(udn);
          }
        }
      }
    }

    method LoseContext(udn: string, device: DeviceObject, i: nat)
      requires Valid() && (udn in serverUdnMap || udn in serverUcMap)
      requires device == Lookup(udn) && i < |device.contexts|
      modifies this`known, this`building, device
      ensures Valid()
      ensures View() == PutDevice(old(View()), udn, Removed(old(DeviceFor(View(), udn)), i))
      ensures device.View() == Removed(old(device.View()), i)
    {
      hide Births, Shown, ShownBuilding, PutDevice, Removed;
      LookupFacts(udn);
      device.RemoveContext(i);
      Follow(udn, device);
      StillValid(udn);
    }

    /** A known device is lost and signalled; the chain of one under construction is cancelled, for which its queue
        has to be there. */
    method LoseDevice(udn: string)
      requires Valid() && (udn in serverUdnMap || udn in serverUcMap)
      requires udn !in known && udn in building ==> !building[udn].chain.Over?
      modifies this
      ensures Valid() && View() == DropDevice(old(View()), udn)
    {
      hide Births, Shown, ShownBuilding;
      LookupFacts(udn);
      GoneBirths(View(), udn);
      if udn in serverUdnMap {
        signals := signals + [Gone(serverUdnMap[udn].birth)];
        serverUdnMap := serverUdnMap - {udn};
        known := known - {udn};
        Regrouped();
      } else {
        CancelChain(udn);
      }
    }

    /** rsu_task_processor_cancel_queue on the chain of a device: its queue goes unless it is stuck. */
    ghost method CancelChain(udn: string)
      requires Valid() && udn in building && !building[udn].chain.Over?
      modifies this`building
      ensures Valid()
      ensures View() == if old(building[udn]).chain.Running? then PutChain(old(View()), udn, Over(true))
        else old(View())
    {
      if building[udn].chain.Running? {
        SetChain(udn, Over(true));
      }
    }

    /** The chain of a device gets further. */
    ghost method SetChain(udn: string, c: Chain)
      requires Valid() && udn in building
      modifies this`building
      ensures Valid() && View() == PutChain(old(View()), udn, c)
    {
      hide Births, Shown, ShownBuilding;
      ChainBirths(View(), udn, c);
      building := building[udn := building[udn].(chain := c)];
      Regrouped();
    }

    /** prv_device_chain_end. */
    method ChainEnd(udn: string, cancelled: bool)
      requires Valid() && udn in serverUcMap && udn in building && building[udn].chain == Over(cancelled)
      modifies this
      ensures Valid() && View() == EndChain(old(View()), udn)
      ensures serverUcMap == old(serverUcMap) - {udn}
      ensures serverUdnMap == if cancelled then old(serverUdnMap) else old(serverUdnMap)[udn := old(serverUcMap[udn])]
    {
      if cancelled {
        Forget(udn);
      } else {
        Publish(udn);
      }
    }

    method Forget(udn: string)
      requires Valid() && udn in serverUcMap && udn in building && building[udn].chain == Over(true)
      modifies this
      ensures Valid() && View() == EndChain(old(View()), udn)
      ensures serverUcMap == old(serverUcMap) - {udn} && serverUdnMap == old(serverUdnMap)
    {
      hide Births, Shown, ShownBuilding, Valid;
      SameKeys();
      EndChainBirths(View(), udn);
      serverUcMap := serverUcMap - {udn};
      building := building - {udn};
      Regrouped();
    }

    method Publish(udn: string)
      requires Valid() && udn in serverUcMap && udn in building && building[udn].chain == Over(false)
      modifies this
      ensures Valid() && View() == EndChain(old(View()), udn)
      ensures serverUcMap == old(serverUcMap) - {udn} && serverUdnMap == old(serverUdnMap)[udn := old(serverUcMap[udn])]
    {
      hide Births, Shown, ShownBuilding, Valid, EndChain;
      SameKeys();
      NotBoth(udn);
      LookupFacts(udn);
      EndChainBirths(View(), udn);
      PublishedIs(View(), udn);
      Move(udn);
      assert View() == EndChain(old(View()), udn);
      Regrouped();
    }

    /** From one map to the other, with the signal. */
    method Move(udn: string)
      requires udn in serverUcMap
      modifies this`serverUdnMap, this`serverUcMap, this`known, this`building, this`signals
      ensures serverUdnMap == old(serverUdnMap)[udn := old(serverUcMap[udn])] && serverUcMap == old(serverUcMap) - {udn}
      ensures known == old(known)[udn := old(serverUcMap[udn].View())] && building == old(building) - {udn}
      ensures signals == old(signals) + [Found(old(serverUcMap[udn]).birth)]
    {
      var device := serverUcMap[udn];
      serverUdnMap := serverUdnMap[udn := device];
      known := known[udn := device.View()];
      signals := signals + [Found(device.birth)];
      serverUcMap := serverUcMap - {udn};
      building := building - {udn};
    }

    /** prv_subscribe, run by the chain. */
    method ChainSubscribes(udn: string)
      requires Valid() && udn in serverUcMap && serverUcMap[udn].contexts != []
      modifies this, serverUcMap[udn]
      ensures Valid() && Safe(old(View()), Subscribing(udn)) && View() == Step(old(View()), Subscribing(udn))
    {
      hide Births, Shown, ShownBuilding, Switched;
      LookupFacts(udn);
      NotBoth(udn);
      serverUcMap[udn].SubscribeContext();
      building := building[udn := building[udn].(device := serverUcMap[udn].View())];
      StillValid(udn);
      SetChain(udn, Running(true));
    }

    lemma NotBoth(udn: string)
      requires Valid() && udn in serverUcMap
      ensures udn !in serverUdnMap && Lookup(udn) == serverUcMap[udn]
    {}

    /** A callback in a device: its timer, a lost subscription, the end of ten seconds. */
    method DeviceChanges(udn: string, c: Change)
      requires Valid() && Safe(View(), Changed(udn, c)) && (udn in serverUdnMap || udn in serverUcMap)
      modifies this, serverUdnMap.Values, serverUcMap.Values
      ensures Valid() && View() == Step(old(View()), Changed(udn, c))
    {
      hide Births, Shown, ShownBuilding, PutDevice, TimerFired, Lost, Expired, FindIp;
      LookupFacts(udn);
      var device := if udn in serverUdnMap then serverUdnMap[udn] else serverUcMap[udn];
      match c {
        case Timer => device.TimerFires();
        case SubscriptionLost(ip, v) =>
          var i := device.FindContext(ip);
          if i < |device.contexts| { device.SubscriptionLost(i, v); }
        case WindowOver(ip, v) =>
          var i := device.FindContext(ip);
          if i < |device.contexts| { device.WindowOver(i, v); }
      }
      Follow(udn, device);
      StillValid(udn);
    }
  }

  lemma AddNewBirths(r: Registry, udn: string, ip: string, services: set<Service>)
    requires Births(r) && udn !in r.known && udn !in r.building
    ensures Births(AddNew(r, udn, ip, services))
  {}

  lemma BirthsDisjoint(r: Registry, udn: string)
    requires Births(r) && udn in r.building
    ensures udn !in r.known
  {}

  lemma ChainBirths(r: Registry, udn: string, c: Chain)
    requires Births(r) && udn in r.building
    ensures Births(PutChain(r, udn, c))
  {}

  lemma GoneBirths(r: Registry, udn: string)
    requires Births(r) && Live(r, udn)
    ensures Births(DropDevice(r, udn))
  {}

  lemma PublishedIs(r: Registry, udn: string)
    requires udn in r.building && r.building[udn].chain == Over(false)
    ensures EndChain(r, udn) ==
      Registry(r.known[udn := r.building[udn].device], r.building - {udn}, r.counter,
               r.signals + [Found(r.building[udn].device.birth)], r.names)
  {}

  lemma EndChainBirths(r: Registry, udn: string)
    requires Births(r) && udn in r.building && r.building[udn].chain.Over?
    ensures Births(EndChain(r, udn))
  {}

  /** What is safe to do leaves a chain to cancel if the last context goes. */
  lemma StillCancellable(r: Registry, udn: string, ip: string)
    requires Safe(r, Unavailable(udn, ip)) && Live(r, udn) &&
      FindIp(DeviceFor(r, udn).contexts, ip) < |DeviceFor(r, udn).contexts|
    ensures
      var d := DeviceFor(r, udn);
      var r1 := PutDevice(r, udn, Removed(d, FindIp(d.contexts, ip)));
      Removed(d, FindIp(d.contexts, ip)).contexts == [] ==>
        udn in r1.known || (udn in r1.building && !r1.building[udn].chain.Over?)
  {
    var d := DeviceFor(r, udn);
    if Removed(d, FindIp(d.contexts, ip)).contexts == [] { OneLeft(d, FindIp(d.contexts, ip)); }
  }

  lemma FirstLoopbackIs(cs: seq<Context>, p: nat)
    requires p <= |cs| && (p < |cs| ==> Loopback(cs[p].ip)) && forall n :: 0 <= n < p ==> !Loopback(cs[n].ip)
    ensures FirstLoopback(cs) == p
  {}

  lemma FirstSubscribedIs(cs: seq<Context>, s: nat)
    requires s <= |cs| && (s < |cs| ==> cs[s].subscribed != {}) && forall n :: 0 <= n < s ==> cs[n].subscribed == {}
    ensures FirstSubscribed(cs) == s
  {}

  lemma FindIpIs(cs: seq<Context>, ip: string, i: nat)
    requires i <= |cs| && (i < |cs| ==> cs[i].ip == ip) && forall n :: 0 <= n < i ==> cs[n].ip != ip
    ensures FindIp(cs, ip) == i
  {}

  lemma AllServices(s: set<Service>)
    ensures s <= {ConnectionManager, AvTransport, RenderingControl}
  {
    forall v | v in s ensures v in {ConnectionManager, AvTransport, RenderingControl} {
      match v
      case ConnectionManager =>
      case AvTransport =>
      case RenderingControl =>
    }
  }
}
