/**
 What every event comes to, said of the registry's maps and of the flags of the contexts: who comes, who goes, who
 is signalled, on which interfaces a device is, and what is subscribed to there.
 */
module RegistryEffects {
  import opened Subscription
  import opened RegistryModel
  import opened RegistryTheorems
  import Decimal

  // ---------- who comes and who goes ----------

  lemma RunStep(rs: seq<Registry>, es: seq<Event>, n: nat)
    requires Run(rs, es) && n < |es|
    ensures n + 1 < |rs| && May(rs[n], es[n]) && Safe(rs[n], es[n]) && rs[n + 1] == Step(rs[n], es[n])
  {}

  /** The finally callback of a construction chain, in any run: the device is under construction no more; if the
      chain was not cancelled it is known, as it was, and found, and else it is gone without a signal; nothing else
      changes. */
  lemma FinallyDecides(rs: seq<Registry>, es: seq<Event>, n: nat)
    requires Run(rs, es) && n < |es| && es[n].FinallyRuns?
    ensures
      var r, r', udn := rs[n], rs[n + 1], es[n].udn;
      && udn in r.building && udn !in r.known
      && r'.building == r.building - {udn} && r'.counter == r.counter && r'.names == r.names
      && var b := r.building[udn];
         if b.chain == Over(false) then
           r'.known == r.known[udn := b.device] && r'.signals == r.signals + [Found(b.device.birth)]
         else
           r'.known == r.known && r'.signals == r.signals
  {
    hide Devices, Signals;
    RunKeepsInv(rs, es, n);
  }

  /** The one context of the device is on the interface. */
  predicate OnlyOn(d: Device, ip: string) {
    |d.contexts| == 1 && d.contexts[0].ip == ip
  }

  /** The event ends the device. */
  predicate Ends(r: Registry, e: Event, udn: string) {
    || (e.Unavailable? && e.udn == udn && udn in r.known && OnlyOn(r.known[udn], e.ip))
    || (e == FinallyRuns(udn) && udn in r.building && r.building[udn].chain == Over(true))
  }

  lemma LastRemoved(d: Device, ip: string)
    ensures FindIp(d.contexts, ip) < |d.contexts| ==>
      (Removed(d, FindIp(d.contexts, ip)).contexts == [] <==> OnlyOn(d, ip))
    ensures OnlyOn(d, ip) ==> FindIp(d.contexts, ip) < |d.contexts|
  {}

  /** A device comes only by appearing on an interface, and is then under construction there, with the next number;
      and it goes exactly when its last interface does while it is known, or at the end of a cancelled chain. */
  lemma DevicesComeAndGo(rs: seq<Registry>, es: seq<Event>, n: nat, udn: string)
    requires Run(rs, es) && n < |es|
    ensures !Live(rs[n], udn) ==>
      var r, r', e := rs[n], rs[n + 1], es[n];
      if e.Available? && e.udn == udn then
        && udn !in r'.known && udn in r'.building && r'.counter == r.counter + 1
        && r'.building[udn] == Building(Device(r.counter, [Context(e.ip, e.services, {}, {})], false), Running(false))
      else !Live(r', udn)
    ensures Live(rs[n], udn) ==> (!Live(rs[n + 1], udn) <==> Ends(rs[n], es[n], udn))
  {
    hide Devices, Signals, Appended, Removed, Switched, AfterChange;
    RunKeepsInv(rs, es, n);
    RunStep(rs, es, n);
    var r, e := rs[n], es[n];
    if e.Unavailable? && Live(r, e.udn) { LastRemoved(DeviceFor(r, e.udn), e.ip); }
  }

  /** FoundServer and LostServer are sent by two events and by no other: the end of a chain that was not cancelled,
      and the loss of the last interface of a known device. */
  lemma WhoSignals(rs: seq<Registry>, es: seq<Event>, n: nat)
    requires Run(rs, es) && n < |es|
    ensures
      var r, r', e := rs[n], rs[n + 1], es[n];
      r'.signals == r.signals +
        if e.FinallyRuns? && e.udn in r.building && r.building[e.udn].chain == Over(false) then
          [Found(r.building[e.udn].device.birth)]
        else if e.Unavailable? && e.udn in r.known && OnlyOn(r.known[e.udn], e.ip) then
          [Gone(r.known[e.udn].birth)]
        else []
  {
    hide Devices, Signals, Appended, Removed, Switched, AfterChange;
    RunKeepsInv(rs, es, n);
    RunStep(rs, es, n);
    var r, e := rs[n], es[n];
    BirthsStay(r, e);
    if e.Unavailable? && Live(r, e.udn) { LastRemoved(DeviceFor(r, e.udn), e.ip); }
  }

  lemma BirthsStay(r: Registry, e: Event)
    ensures e.Unavailable? && Live(r, e.udn) ==>
      forall i :: 0 <= i < |DeviceFor(r, e.udn).contexts| ==>
        Removed(DeviceFor(r, e.udn), i).birth == DeviceFor(r, e.udn).birth
  {}

  /** An event leaves every device but the one it names where and as it is. */
  lemma OthersStay(rs: seq<Registry>, es: seq<Event>, n: nat, udn: string)
    requires Run(rs, es) && n < |es| && es[n].udn != udn
    ensures
      var r, r' := rs[n], rs[n + 1];
      && (udn in r'.known <==> udn in r.known) && (udn in r.known ==> r'.known[udn] == r.known[udn])
      && (udn in r'.building <==> udn in r.building) && (udn in r.building ==> r'.building[udn] == r.building[udn])
  {
    hide Devices, Signals, Births, Appended, Removed, Switched, AfterChange;
  }

  lemma PathText(birth: nat)
    requires birth < 0x1_0000_0000
    ensures Path(birth) == "/com/intel/RendererServiceUPnP/server/" + Decimal.Digits(birth)
  {
    hide Decimal.Digits;
  }

  // ---------- interfaces ----------

  function Ips(d: Device): (r: seq<string>)
    ensures |r| == |d.contexts|
    ensures forall n :: 0 <= n < |r| ==> r[n] == d.contexts[n].ip
  {
    seq(|d.contexts|, n requires 0 <= n < |d.contexts| => d.contexts[n].ip)
  }

  lemma SwitchedIps(d: Device)
    requires d.contexts != []
    ensures Ips(Switched(d)) == Ips(d)
  {}

  lemma AppendedIps(d: Device, ip: string, services: set<Service>)
    ensures Ips(Appended(d, ip, services)) == if ip in Ips(d) then Ips(d) else Ips(d) + [ip]
  {
    hide Switched;
    var i := FindIp(d.contexts, ip);
    if i < |d.contexts| {
      assert Ips(d)[i] == ip;
    } else {
      var d1 := d.(contexts := d.contexts + [NewContext(ip, services)]);
      assert Ips(d1) == Ips(d) + [ip];
      SwitchedIps(d1);
    }
  }

  lemma RemovedIps(d: Device, i: nat)
    requires i < |d.contexts|
    ensures Ips(Removed(d, i)) == Ips(d)[..i] + Ips(d)[i + 1..]
  {}

  lemma ChangedIps(d: Device, c: Change)
    requires c.Timer? ==> d.contexts != []
    ensures Ips(AfterChange(d, c)) == Ips(d)
  {}

  /** The interfaces a device is on are those it appeared on and has not left since, in the order of appearing. */
  lemma InterfacesFollow(r: Registry, e: Event, udn: string)
    requires Inv(r) && May(r, e) && Safe(r, e) && Stays(r, Step(r, e), udn)
    ensures
      var ips, ips' := Ips(DeviceFor(r, udn)), Ips(DeviceFor(Step(r, e), udn));
      if e.udn == udn && e.Available? then ips' == if e.ip in ips then ips else ips + [e.ip]
      else if e.udn == udn && e.Unavailable? && e.ip in ips then
        exists i :: 0 <= i < |ips| && ips[i] == e.ip && ips' == ips[..i] + ips[i + 1..] && e.ip !in ips'
      else ips' == ips
  {
    hide Inv, Step, DeviceInv, Appended, Removed, Switched, AfterChange;
    if e.udn != udn {
      OthersUntouched(r, e, udn);
    } else {
      StepOnDevice(r, e, udn);
      Facts(r, udn);
      var d := DeviceFor(r, udn);
      match e
      case Available(_, ip, services) => AppendedIps(d, ip, services);
      case Unavailable(_, ip) => InterfaceLeft(d, ip);
      case Subscribing(_) => SubscribingFacts(r, udn); SwitchedIps(d);
      case Changed(_, c) => ChangedIps(d, c);
      case _ =>
    }
  }

  lemma InterfaceLeft(d: Device, ip: string)
    requires DeviceInv(d)
    ensures
      var i := FindIp(d.contexts, ip);
      if i < |d.contexts| then
        && Ips(d)[i] == ip && Ips(Removed(d, i)) == Ips(d)[..i] + Ips(d)[i + 1..]
        && ip !in Ips(Removed(d, i))
      else ip !in Ips(d)
  {
    hide Removed;
    var i := FindIp(d.contexts, ip);
    if i < |d.contexts| {
      RemovedIps(d, i);
      assert forall n :: 0 <= n < |d.contexts| && n != i ==> d.contexts[n].ip != ip;
    }
  }

  // ---------- flags ----------

  /** The subscription of service v in the context with address ip; none if there is no such context. */
  predicate Subscribed(d: Device, ip: string, v: Service) {
    var i := FindIp(d.contexts, ip);
    i < |d.contexts| && v in d.contexts[i].subscribed
  }

  predicate HasProxy(d: Device, ip: string, v: Service) {
    var i := FindIp(d.contexts, ip);
    i < |d.contexts| && v in d.contexts[i].services
  }

  predicate AnySubscribed(d: Device, ip: string) {
    var i := FindIp(d.contexts, ip);
    i < |d.contexts| && d.contexts[i].subscribed != {}
  }

  /** The address that subscriptions go to. */
  function PreferredIp(d: Device): string
    requires d.contexts != []
  {
    d.contexts[Preferred(d.contexts)].ip
  }

  lemma FindThere(cs: seq<Context>, n: nat)
    requires Distinct(cs) && n < |cs|
    ensures FindIp(cs, cs[n].ip) == n
  {}

  lemma FindSame(cs: seq<Context>, cs': seq<Context>, ip: string)
    requires SameIps(cs, cs')
    ensures FindIp(cs, ip) == FindIp(cs', ip)
  {
    var i, j := FindIp(cs, ip), FindIp(cs', ip);
    assert i < |cs| ==> cs'[i].ip == ip;
    assert j < |cs| ==> cs[j].ip == ip;
  }

  /** A subscription that moves goes to every service of the preferred context, unless something of it is subscribed
      to already, and is taken away from every other. */
  lemma SwitchedFlags(d: Device, ip: string, v: Service)
    requires Distinct(d.contexts) && d.contexts != [] && AtMostOne(d)
    ensures
      var d' := Switched(d);
      && (Subscribed(d', ip, v) <==>
            if ip != PreferredIp(d) then false
            else if AnySubscribed(d, ip) then Subscribed(d, ip, v)
            else HasProxy(d, ip, v))
      && (HasProxy(d', ip, v) <==> HasProxy(d, ip, v)) && d'.contexts != [] && PreferredIp(d') == PreferredIp(d)
  {
    hide Switched, DeviceInv, AtMostOne, Listening, Loopback, FirstLoopback;
    SwitchedKeeps(d);
    var d' := Switched(d);
    FindSame(d.contexts, d'.contexts, ip);
    SamePreferred(d.contexts, d'.contexts);
    var i := FindIp(d.contexts, ip);
    if i < |d.contexts| {
      FindThere(d.contexts, i);
      FindThere(d.contexts, Preferred(d.contexts));
      SwitchedAt(d, i);
    } else {
      FindThere(d.contexts, Preferred(d.contexts));
    }
  }

  lemma SwitchedAt(d: Device, n: nat)
    requires AtMostOne(d) && n < |d.contexts|
    ensures
      var c, c', p := d.contexts[n], Switched(d).contexts[n], Preferred(d.contexts);
      && c'.services == c.services
      && c'.subscribed == if n != p then {} else if c.subscribed != {} then c.subscribed else c.services
  {
    hide Loopback, FirstLoopback, Preferred;
    var cs, first := d.contexts, FirstSubscribed(d.contexts);
    if first < |cs| {
      SamePreferred(cs, cs[first := Unsubscribed(cs[first])]);
    }
  }

  /** Where an address is looked up after one of the contexts has gone. */
  lemma FindRemoved(cs: seq<Context>, i: nat, ip: string)
    requires Distinct(cs) && i < |cs|
    ensures
      var j, cs' := FindIp(cs, ip), cs[..i] + cs[i + 1..];
      FindIp(cs', ip) == if j == i || j == |cs| then |cs'| else if j < i then j else j - 1
  {
    var cs' := cs[..i] + cs[i + 1..];
    var j, k := FindIp(cs, ip), FindIp(cs', ip);
    assert forall n :: 0 <= n < |cs'| ==> cs'[n] == cs[if n < i then n else n + 1];
    if j < |cs| && j != i {
      assert cs'[if j < i then j else j - 1].ip == ip;
    }
    assert k < |cs'| ==> cs[if k < i then k else k + 1].ip == ip;
  }

  lemma RemovedFlags(d: Device, i: nat, ip: string, v: Service)
    requires Distinct(d.contexts) && i < |d.contexts|
    ensures Subscribed(Removed(d, i), ip, v) <==> ip != d.contexts[i].ip && Subscribed(d, ip, v)
    ensures HasProxy(Removed(d, i), ip, v) <==> ip != d.contexts[i].ip && HasProxy(d, ip, v)
  {
    hide FindIp, Distinct;
    FindRemoved(d.contexts, i, ip);
    FindThere(d.contexts, i);
    var cs' := Removed(d, i).contexts;
    assert forall n :: 0 <= n < |cs'| ==> cs'[n] == d.contexts[if n < i then n else n + 1];
  }

  lemma UpdatedFlags(d: Device, i: nat, c: Context, ip: string, v: Service)
    requires Distinct(d.contexts) && i < |d.contexts|
    requires c.ip == d.contexts[i].ip && c.services == d.contexts[i].services
    ensures
      var d' := d.(contexts := d.contexts[i := c]);
      && (Subscribed(d', ip, v) <==> if ip == c.ip then v in c.subscribed else Subscribed(d, ip, v))
      && (HasProxy(d', ip, v) <==> HasProxy(d, ip, v))
  {
    var cs' := d.contexts[i := c];
    FindSame(d.contexts, cs', ip);
    FindThere(d.contexts, i);
  }

  lemma LostFlags(d: Device, i: nat, v: Service, ip: string, u: Service)
    requires Distinct(d.contexts) && i < |d.contexts|
    ensures Subscribed(Lost(d, i, v), ip, u) <==>
      Subscribed(d, ip, u) && !(ip == d.contexts[i].ip && u == v && v in d.contexts[i].expiring)
    ensures Subscribed(Expired(d, i, v), ip, u) <==> Subscribed(d, ip, u)
    ensures HasProxy(Lost(d, i, v), ip, u) <==> HasProxy(d, ip, u)
    ensures HasProxy(Expired(d, i, v), ip, u) <==> HasProxy(d, ip, u)
  {
    hide FindIp;
    var c := d.contexts[i];
    FindThere(d.contexts, i);
    UpdatedFlags(d, i, Lost(d, i, v).contexts[i], ip, u);
    UpdatedFlags(d, i, Expired(d, i, v).contexts[i], ip, u);
  }

  lemma TimerFlags(d: Device, ip: string, v: Service)
    requires DeviceInv(d) && d.contexts != []
    ensures Subscribed(TimerFired(d), ip, v) <==>
      if ip == PreferredIp(d) then HasProxy(d, ip, v) else Subscribed(d, ip, v)
    ensures HasProxy(TimerFired(d), ip, v) <==> HasProxy(d, ip, v)
  {
    hide FindIp, Preferred;
    var p := Preferred(d.contexts);
    var c := d.contexts[p];
    FindThere(d.contexts, p);
    UpdatedFlags(d, p, c.(subscribed := c.subscribed + c.services), ip, v);
    UpdatedFlags(d.(timer := false), p, c.(subscribed := c.subscribed + c.services), ip, v);
  }

  /** The preferred context is the first on the loopback interface, or else the first of all; and these are the
      addresses of the loopback interface. */
  lemma PreferredIs(cs: seq<Context>)
    requires cs != []
    ensures (forall n :: 0 <= n < |cs| ==> !Loopback(cs[n].ip)) ==> Preferred(cs) == 0
    ensures (exists n :: 0 <= n < |cs| && Loopback(cs[n].ip)) ==>
      Loopback(cs[Preferred(cs)].ip) && forall m :: 0 <= m < Preferred(cs) ==> !Loopback(cs[m].ip)
    ensures forall ip :: Loopback(ip) <==>
      (|ip| >= 8 && ip[..8] == "127.0.0.") || ip in ["::1", "0:0:0:0:0:0:0:1"]
  {}

  lemma AppendedFlags(d: Device, a: string, services: set<Service>, ip: string, v: Service)
    requires DeviceInv(d) && FindIp(d.contexts, a) == |d.contexts|
    ensures
      var d' := Appended(d, a, services);
      && d'.contexts != []
      && (HasProxy(d', ip, v) <==> if ip == a then v in services else HasProxy(d, ip, v))
      && (Subscribed(d', ip, v) <==>
            if ip != PreferredIp(d') then false
            else if AnySubscribed(d, ip) then Subscribed(d, ip, v)
            else HasProxy(d', ip, v))
  {
    hide DeviceInv, AtMostOne, Switched, FindIp;
    var d1 := d.(contexts := d.contexts + [NewContext(a, services)]);
    NewIsDistinct(d, a, services);
    SwitchedFlags(d1, ip, v);
    FindAppended(d.contexts, NewContext(a, services), ip);
  }

  lemma NewIsDistinct(d: Device, a: string, services: set<Service>)
    requires DeviceInv(d) && FindIp(d.contexts, a) == |d.contexts|
    ensures
      var d1 := d.(contexts := d.contexts + [NewContext(a, services)]);
      Distinct(d1.contexts) && AtMostOne(d1)
  {
    var d1 := d.(contexts := d.contexts + [NewContext(a, services)]);
    InvMeansAtMostOne(d);
    StillAtMostOne(d, d1);
  }

  lemma FindAppended(cs: seq<Context>, c: Context, ip: string)
    requires FindIp(cs, c.ip) == |cs|
    ensures FindIp(cs + [c], ip) ==
      if ip == c.ip then |cs| else if FindIp(cs, ip) < |cs| then FindIp(cs, ip) else |cs| + 1
  {
    var j, k := FindIp(cs, ip), FindIp(cs + [c], ip);
    assert (cs + [c])[|cs|] == c;
    assert j < |cs| ==> (cs + [c])[j].ip == ip;
    assert k < |cs| ==> cs[k].ip == ip;
  }

  /** What an event does to the subscription of service v on interface ip, in a device that stays.  When the
      subscription is moved, by the construction chain or because the device appeared on another interface, every
      service of the preferred context is subscribed to, unless something of it was, and nothing else. */
  predicate FlagAfter(d: Device, d': Device, e: Event, ip: string, v: Service) {
    match e
    case Available(_, a, services) =>
      if a in Ips(d) then Subscribed(d, ip, v)
      else
        && d'.contexts != [] && ip == PreferredIp(d')
        && (if AnySubscribed(d, ip) then Subscribed(d, ip, v)
            else if ip == a then v in services
            else HasProxy(d, ip, v))
    case Unavailable(_, a) => ip != a && Subscribed(d, ip, v)
    case Subscribing(_) =>
      && d.contexts != [] && ip == PreferredIp(d)
      && (if AnySubscribed(d, ip) then Subscribed(d, ip, v) else HasProxy(d, ip, v))
    case Changed(_, Timer) =>
      if d.contexts != [] && ip == PreferredIp(d) then HasProxy(d, ip, v) else Subscribed(d, ip, v)
    case Changed(_, SubscriptionLost(a, u)) => Subscribed(d, ip, v) && !(ip == a && v == u && Expiring(d, a, u))
    case _ => Subscribed(d, ip, v)
  }

  /** The subscription has been lost once in the last ten seconds. */
  predicate Expiring(d: Device, ip: string, v: Service) {
    var i := FindIp(d.contexts, ip);
    i < |d.contexts| && v in d.contexts[i].expiring
  }

  lemma FindIsIn(d: Device, ip: string)
    ensures FindIp(d.contexts, ip) < |d.contexts| <==> ip in Ips(d)
  {
    if FindIp(d.contexts, ip) < |d.contexts| { assert Ips(d)[FindIp(d.contexts, ip)] == ip; }
  }

  lemma ChangeFlags(d: Device, d': Device, e: Event, ip: string, v: Service)
    requires DeviceInv(d) && e.Changed? && (e.change.Timer? ==> d.contexts != []) && d' == AfterChange(d, e.change)
    ensures Subscribed(d', ip, v) <==> FlagAfter(d, d', e, ip, v)
  {
    hide FindIp, Subscribed, HasProxy, Lost, Expired, TimerFired;
    match e.change
    case Timer => TimerFlags(d, ip, v);
    case SubscriptionLost(a, u) =>
      if FindIp(d.contexts, a) < |d.contexts| { LostFlags(d, FindIp(d.contexts, a), u, ip, v); }
    case WindowOver(a, u) =>
      if FindIp(d.contexts, a) < |d.contexts| { LostFlags(d, FindIp(d.contexts, a), u, ip, v); }
  }

  lemma GoneIsNot(d: Device, a: string, ip: string, v: Service)
    requires FindIp(d.contexts, a) == |d.contexts|
    ensures ip == a ==> !Subscribed(d, ip, v)
  {}

  /** In any run, whatever comes, a device that stays has exactly those subscriptions. */
  lemma FlagsFollow(rs: seq<Registry>, es: seq<Event>, n: nat, udn: string, ip: string, v: Service)
    requires Run(rs, es) && n < |es| && Stays(rs[n], rs[n + 1], udn)
    ensures
      var d, d' := DeviceFor(rs[n], udn), DeviceFor(rs[n + 1], udn);
      Subscribed(d', ip, v) <==>
        if es[n].udn != udn then Subscribed(d, ip, v) else FlagAfter(d, d', es[n], ip, v)
  {
    hide Inv, May, Safe, Step, DeviceInv, Appended, Removed, Switched, AfterChange, FindIp, Subscribed, HasProxy,
      AnySubscribed;
    RunKeepsInv(rs, es, n);
    RunStep(rs, es, n);
    var r, e := rs[n], es[n];
    if e.udn != udn {
      OthersUntouched(r, e, udn);
    } else {
      StepOnDevice(r, e, udn);
      Facts(r, udn);
      FlagsOnDevice(r, e, udn, ip, v);
    }
  }

  lemma FlagsOnDevice(r: Registry, e: Event, udn: string, ip: string, v: Service)
    requires Inv(r) && May(r, e) && Safe(r, e) && e.udn == udn && Stays(r, Step(r, e), udn)
    requires DeviceInv(DeviceFor(r, udn))
    ensures
      var d, d' := DeviceFor(r, udn), DeviceFor(Step(r, e), udn);
      Subscribed(d', ip, v) <==> FlagAfter(d, d', e, ip, v)
  {
    hide Inv, Step, DeviceInv, AtMostOne, Removed, Switched, AfterChange, FindIp, Subscribed, HasProxy, AnySubscribed;
    StepOnDevice(r, e, udn);
    var d, d' := DeviceFor(r, udn), DeviceFor(Step(r, e), udn);
    match e
    case Available(_, a, services) =>
      FindIsIn(d, a);
      if a !in Ips(d) { AppendedFlags(d, a, services, ip, v); }
    case Unavailable(_, a) =>
      if FindIp(d.contexts, a) < |d.contexts| {
        AreDistinct(d);
        FoundIp(d.contexts, a);
        RemovedFlags(d, FindIp(d.contexts, a), ip, v);
      } else {
        GoneIsNot(d, a, ip, v);
      }
    case Subscribing(_) =>
      SubscribingFacts(r, udn);
      AreDistinct(d);
      InvMeansAtMostOne(d);
      SwitchedFlags(d, ip, v);
    case Changed(_, c) => TimerFacts(r, udn, c); ChangeFlags(d, d', e, ip, v);
    case _ =>
  }

  lemma AreDistinct(d: Device)
    requires DeviceInv(d)
    ensures Distinct(d.contexts)
  {}

  lemma FoundIp(cs: seq<Context>, ip: string)
    requires FindIp(cs, ip) < |cs|
    ensures cs[FindIp(cs, ip)].ip == ip
  {}

  lemma TimerFacts(r: Registry, udn: string, c: Change)
    requires Safe(r, Changed(udn, c)) && Live(r, udn)
    ensures c.Timer? ==> DeviceFor(r, udn).contexts != []
  {}

  /** The resubscription timer is pending exactly if it was and has not fired, or a context that AV or CM events came
      through has just gone and others are left. */
  lemma TimerIsExact(rs: seq<Registry>, es: seq<Event>, n: nat, udn: string)
    requires Run(rs, es) && n < |es| && Stays(rs[n], rs[n + 1], udn)
    ensures
      var d, d', e := DeviceFor(rs[n], udn), DeviceFor(rs[n + 1], udn), es[n];
      d'.timer <==>
        || (d.timer && e != Changed(udn, Timer))
        || (e.Unavailable? && e.udn == udn && d'.contexts != []
            && (Subscribed(d, e.ip, AvTransport) || Subscribed(d, e.ip, ConnectionManager)))
  {
    hide Inv, Step, DeviceInv, Switched, FindIp;
    RunKeepsInv(rs, es, n);
    RunStep(rs, es, n);
    var r, e := rs[n], es[n];
    if e.udn != udn {
      OthersUntouched(r, e, udn);
    } else {
      StepOnDevice(r, e, udn);
      var d := DeviceFor(r, udn);
      TimersStay(d);
      if e.Available? { TimersStay(d.(contexts := d.contexts + [NewContext(e.ip, e.services)])); }
      if e.Subscribing? { SubscribingFacts(r, udn); }
    }
  }

  lemma TimersStay(d: Device)
    ensures d.contexts != [] ==> Switched(d).timer == d.timer
  {}

  // ---------- windows ----------

  lemma SwitchedWindows(d: Device, ip: string, v: Service)
    requires Distinct(d.contexts) && d.contexts != [] && AtMostOne(d)
    ensures Expiring(Switched(d), ip, v) <==> Expiring(d, ip, v) && !(AnySubscribed(d, ip) && ip != PreferredIp(d))
  {
    hide Switched, DeviceInv, AtMostOne, Listening, Loopback, FirstLoopback;
    SwitchedKeeps(d);
    FindSame(d.contexts, Switched(d).contexts, ip);
    FindThere(d.contexts, Preferred(d.contexts));
    var i := FindIp(d.contexts, ip);
    if i < |d.contexts| {
      FindThere(d.contexts, i);
      SwitchedWindow(d, i);
    }
  }

  lemma SwitchedWindow(d: Device, n: nat)
    requires AtMostOne(d) && n < |d.contexts|
    ensures
      var c := d.contexts[n];
      Switched(d).contexts[n].expiring == if n != Preferred(d.contexts) && c.subscribed != {} then {} else c.expiring
  {
    hide Loopback, FirstLoopback, Preferred;
    var cs, first := d.contexts, FirstSubscribed(d.contexts);
    if first < |cs| {
      SamePreferred(cs, cs[first := Unsubscribed(cs[first])]);
    }
  }

  lemma AppendedWindows(d: Device, a: string, services: set<Service>, ip: string, v: Service)
    requires DeviceInv(d) && FindIp(d.contexts, a) == |d.contexts|
    ensures
      var d' := Appended(d, a, services);
      && d'.contexts != []
      && (Expiring(d', ip, v) <==> Expiring(d, ip, v) && !(AnySubscribed(d, ip) && ip != PreferredIp(d')))
  {
    hide DeviceInv, AtMostOne, Switched, FindIp;
    var d1 := d.(contexts := d.contexts + [NewContext(a, services)]);
    NewIsDistinct(d, a, services);
    SwitchedWindows(d1, ip, v);
    SwitchedFlags(d1, ip, v);
    FindAppended(d.contexts, NewContext(a, services), ip);
  }

  lemma RemovedWindows(d: Device, i: nat, ip: string, v: Service)
    requires Distinct(d.contexts) && i < |d.contexts|
    ensures Expiring(Removed(d, i), ip, v) <==> ip != d.contexts[i].ip && Expiring(d, ip, v)
  {
    hide FindIp, Distinct;
    FindRemoved(d.contexts, i, ip);
    FindThere(d.contexts, i);
    var cs' := Removed(d, i).contexts;
    assert forall n :: 0 <= n < |cs'| ==> cs'[n] == d.contexts[if n < i then n else n + 1];
  }

  lemma UpdatedWindows(d: Device, i: nat, c: Context, ip: string, v: Service)
    requires Distinct(d.contexts) && i < |d.contexts| && c.ip == d.contexts[i].ip
    ensures
      var d' := d.(contexts := d.contexts[i := c]);
      Expiring(d', ip, v) <==> if ip == c.ip then v in c.expiring else Expiring(d, ip, v)
  {
    FindSame(d.contexts, d.contexts[i := c], ip);
    FindThere(d.contexts, i);
  }

  /** What an event does to the ten seconds that run for service v on interface ip since its subscription was lost. */
  predicate WindowAfter(d: Device, d': Device, e: Event, ip: string, v: Service) {
    match e
    case Available(_, a, _) =>
      Expiring(d, ip, v) && (a in Ips(d) || !AnySubscribed(d, ip) || (d'.contexts != [] && ip == PreferredIp(d')))
    case Unavailable(_, a) => ip != a && Expiring(d, ip, v)
    case Subscribing(_) =>
      Expiring(d, ip, v) && (!AnySubscribed(d, ip) || (d.contexts != [] && ip == PreferredIp(d)))
    case Changed(_, SubscriptionLost(a, u)) =>
      if ip == a && v == u && a in Ips(d) then !Expiring(d, ip, v) else Expiring(d, ip, v)
    case Changed(_, WindowOver(a, u)) => Expiring(d, ip, v) && !(ip == a && v == u)
    case _ => Expiring(d, ip, v)
  }

  lemma TimerWindows(d: Device, ip: string, v: Service)
    requires DeviceInv(d) && d.contexts != []
    ensures Expiring(TimerFired(d), ip, v) <==> Expiring(d, ip, v)
  {
    hide FindIp, Preferred;
    var p := Preferred(d.contexts);
    FindThere(d.contexts, p);
    UpdatedWindows(d.(timer := false), p, TimerFired(d).contexts[p], ip, v);
    WindowAt(d, p, v);
  }

  lemma WindowAt(d: Device, n: nat, v: Service)
    requires Distinct(d.contexts) && n < |d.contexts|
    ensures Expiring(d, d.contexts[n].ip, v) <==> v in d.contexts[n].expiring
  {
    FindThere(d.contexts, n);
  }

  lemma LostWindows(d: Device, i: nat, u: Service, ip: string, v: Service)
    requires DeviceInv(d) && i < |d.contexts|
    ensures Expiring(Lost(d, i, u), ip, v) <==>
      if ip == d.contexts[i].ip && v == u then !Expiring(d, ip, v) else Expiring(d, ip, v)
    ensures Expiring(Expired(d, i, u), ip, v) <==> Expiring(d, ip, v) && !(ip == d.contexts[i].ip && v == u)
  {
    hide FindIp, Expiring;
    UpdatedWindows(d, i, Lost(d, i, u).contexts[i], ip, v);
    UpdatedWindows(d, i, Expired(d, i, u).contexts[i], ip, v);
    WindowAt(d, i, v);
  }

  lemma ChangeWindows(d: Device, d': Device, e: Event, ip: string, v: Service)
    requires DeviceInv(d) && e.Changed? && (e.change.Timer? ==> d.contexts != []) && d' == AfterChange(d, e.change)
    ensures Expiring(d', ip, v) <==> WindowAfter(d, d', e, ip, v)
  {
    hide FindIp, Expiring, AnySubscribed, Preferred, DeviceInv, Lost, Expired, TimerFired;
    match e.change
    case Timer => TimerWindows(d, ip, v);
    case SubscriptionLost(a, u) =>
      FindIsIn(d, a);
      if a in Ips(d) {
        FoundIp(d.contexts, a);
        LostWindows(d, FindIp(d.contexts, a), u, ip, v);
      }
    case WindowOver(a, u) =>
      if FindIp(d.contexts, a) < |d.contexts| {
        FoundIp(d.contexts, a);
        LostWindows(d, FindIp(d.contexts, a), u, ip, v);
      } else {
        WindowGone(d, a, ip, v);
      }
  }

  lemma WindowGone(d: Device, a: string, ip: string, v: Service)
    requires FindIp(d.contexts, a) == |d.contexts|
    ensures ip == a ==> !Expiring(d, ip, v)
  {}

  /** In any run, whatever comes, exactly those windows are open in a device that stays. */
  lemma WindowsFollow(rs: seq<Registry>, es: seq<Event>, n: nat, udn: string, ip: string, v: Service)
    requires Run(rs, es) && n < |es| && Stays(rs[n], rs[n + 1], udn)
    ensures
      var d, d' := DeviceFor(rs[n], udn), DeviceFor(rs[n + 1], udn);
      Expiring(d', ip, v) <==>
        if es[n].udn != udn then Expiring(d, ip, v) else WindowAfter(d, d', es[n], ip, v)
  {
    hide Inv, May, Safe, Step, DeviceInv, Appended, Removed, Switched, AfterChange, FindIp, Expiring, AnySubscribed;
    RunKeepsInv(rs, es, n);
    RunStep(rs, es, n);
    var r, e := rs[n], es[n];
    if e.udn != udn {
      OthersUntouched(r, e, udn);
    } else {
      StepOnDevice(r, e, udn);
      Facts(r, udn);
      WindowsOnDevice(r, e, udn, ip, v);
    }
  }

  lemma WindowsOnDevice(r: Registry, e: Event, udn: string, ip: string, v: Service)
    requires Inv(r) && May(r, e) && Safe(r, e) && e.udn == udn && Stays(r, Step(r, e), udn)
    requires DeviceInv(DeviceFor(r, udn))
    ensures
      var d, d' := DeviceFor(r, udn), DeviceFor(Step(r, e), udn);
      Expiring(d', ip, v) <==> WindowAfter(d, d', e, ip, v)
  {
    hide Inv, Step, DeviceInv, AtMostOne, Removed, Switched, AfterChange, FindIp, Expiring, AnySubscribed;
    StepOnDevice(r, e, udn);
    var d, d' := DeviceFor(r, udn), DeviceFor(Step(r, e), udn);
    match e
    case Available(_, a, services) =>
      FindIsIn(d, a);
      if a !in Ips(d) { AppendedWindows(d, a, services, ip, v); }
    case Unavailable(_, a) =>
      if FindIp(d.contexts, a) < |d.contexts| {
        AreDistinct(d);
        FoundIp(d.contexts, a);
        RemovedWindows(d, FindIp(d.contexts, a), ip, v);
      } else {
        WindowGone(d, a, ip, v);
      }
    case Subscribing(_) =>
      SubscribingFacts(r, udn);
      AreDistinct(d);
      InvMeansAtMostOne(d);
      SwitchedWindows(d, ip, v);
    case Changed(_, c) => TimerFacts(r, udn, c); ChangeWindows(d, d', e, ip, v);
    case _ =>
  }

  // ---------- chains ----------

  /** How far the chain of a device under construction has got after an event that leaves it there. */
  lemma ChainsFollow(rs: seq<Registry>, es: seq<Event>, n: nat, udn: string)
    requires Run(rs, es) && n < |es| && udn in rs[n].building && udn in rs[n + 1].building
    ensures
      var b, b', e := rs[n].building[udn], rs[n + 1].building[udn], es[n];
      b'.chain ==
        if e.udn != udn then b.chain
        else if e.Unavailable? && b.chain.Running? && OnlyOn(b.device, e.ip) then Over(true)
        else match e
             case Subscribing(_) => Running(true)
             case DeclareFailed(_) => Stuck
             case ChainGone(_, cancelled) => Over(cancelled)
             case _ => b.chain
  {
    hide Devices, Signals, Appended, Removed, Switched, AfterChange;
    RunKeepsInv(rs, es, n);
    RunStep(rs, es, n);
    if es[n].Unavailable? && Live(rs[n], es[n].udn) { LastRemoved(DeviceFor(rs[n], es[n].udn), es[n].ip); }
  }
}
