/**
 Which media renderers are known.  A device that appears is first under construction, while a chain of
 tasks looks at it; when the chain has run it becomes known and FoundServer is signalled; when its last
 context goes, LostServer is.  A device is made out under its UDN, and is published under a path with a
 number that is counted up for each new device.
 */
module RegistryModel {
  import opened Subscription
  import Decimal

  /** FoundServer and LostServer.  For the record a signal names the device by its number. */
  datatype Signal = Found(birth: nat) | Gone(birth: nat)

  /** How far the construction chain of a device has got: its queue is in the task processor's table, and has
      got past the subscription task or not; or its last task, which declares the object, has failed, so that it
      never ends (ConstructionChain.StuckForever); or the queue is gone and its finally idle pending. */
  datatype Chain = Running(joined: bool) | Stuck | Over(cancelled: bool)

  datatype Building = Building(device: Device, chain: Chain)

  /** `names`, for the record: the UDN that each number was given to. */
  datatype Registry = Registry(
    known: map<string, Device>, building: map<string, Building>, counter: nat, signals: seq<Signal>, names: seq<string>)

  const EMPTY := Registry(map[], map[], 0, [], [])

  const SERVER_PATH := "/com/intel/RendererServiceUPnP/server/"

  /** The object path: the counter is an unsigned int. */
  function Path(birth: nat): string {
    SERVER_PATH + Decimal.Digits(birth % 0x1_0000_0000)
  }

  /** What happens inside a device: its resubscription timer, a lost subscription, the end of ten seconds. */
  datatype Change = Timer | SubscriptionLost(ip: string, service: Service) | WindowOver(ip: string, service: Service)

  datatype Event =
    | Available(udn: string, ip: string, services: set<Service>)
    | Unavailable(udn: string, ip: string)
    | Subscribing(udn: string)
    | DeclareFailed(udn: string)
    | ChainGone(udn: string, cancelled: bool)
    | FinallyRuns(udn: string)
    | Changed(udn: string, change: Change)

  predicate Live(r: Registry, udn: string) {
    udn in r.known || udn in r.building
  }

  function DeviceFor(r: Registry, udn: string): Device
    requires udn in r.known || udn in r.building
  {
    if udn in r.known then r.known[udn] else r.building[udn].device
  }

  function PutDevice(r: Registry, udn: string, d: Device): Registry
    requires udn in r.known || udn in r.building
  {
    if udn in r.known then r.(known := r.known[udn := d])
    else r.(building := r.building[udn := r.building[udn].(device := d)])
  }

  function AddNew(r: Registry, udn: string, ip: string, services: set<Service>): Registry {
    r.(building := r.building[udn := Building(NewDevice(r.counter, ip, services), Running(false))],
       counter := r.counter + 1, names := r.names + [udn])
  }

  function BecomeAvailable(r: Registry, udn: string, ip: string, services: set<Service>): Registry {
    if udn !in r.known && udn !in r.building then AddNew(r, udn, ip, services)
    else PutDevice(r, udn, Appended(DeviceFor(r, udn), ip, services))
  }

  function PutChain(r: Registry, udn: string, c: Chain): Registry
    requires udn in r.building
  {
    r.(building := r.building[udn := r.building[udn].(chain := c)])
  }

  /** The last context of a device has gone: it is lost, or its chain cancelled, which removes the chain's queue
      unless it is stuck. */
  function DropDevice(r: Registry, udn: string): Registry
    requires udn in r.known || udn in r.building
  {
    if udn in r.known then r.(known := r.known - {udn}, signals := r.signals + [Gone(r.known[udn].birth)])
    else if r.building[udn].chain.Running? then PutChain(r, udn, Over(true))
    else r
  }

  function BecomeUnavailable(r: Registry, udn: string, ip: string): Registry {
    if udn !in r.known && udn !in r.building then r else
      var d := DeviceFor(r, udn);
      var i := FindIp(d.contexts, ip);
      if i == |d.contexts| then r else
        var r1 := PutDevice(r, udn, Removed(d, i));
        if Removed(d, i).contexts == [] then DropDevice(r1, udn) else r1
  }

  /** The finally callback of the construction chain. */
  function EndChain(r: Registry, udn: string): Registry
    requires udn in r.building && r.building[udn].chain.Over?
  {
    var d := r.building[udn].device;
    if r.building[udn].chain.cancelled then r.(building := r.building - {udn})
    else r.(building := r.building - {udn}, known := r.known[udn := d], signals := r.signals + [Found(d.birth)])
  }

  function AfterChange(d: Device, c: Change): Device
    requires c.Timer? ==> d.contexts != []
  {
    match c
    case Timer => TimerFired(d)
    case SubscriptionLost(ip, v) => var i := FindIp(d.contexts, ip); if i < |d.contexts| then Lost(d, i, v) else d
    case WindowOver(ip, v) => var i := FindIp(d.contexts, ip); if i < |d.contexts| then Expired(d, i, v) else d
  }

  /** What may come next.  The chain of a device runs its tasks in order: first the subscription task, then
      the one that declares the object; then its queue goes, and the finally callback comes from an idle; a
      stuck chain does nothing more. */
  predicate May(r: Registry, e: Event) {
    match e
    case Available(_, _, _) => true
    case Unavailable(_, _) => true
    case Subscribing(udn) => udn in r.building && r.building[udn].chain == Running(false)
    case DeclareFailed(udn) => udn in r.building && r.building[udn].chain == Running(true)
    case ChainGone(udn, cancelled) =>
      udn in r.building && r.building[udn].chain.Running? && (cancelled || r.building[udn].chain.joined)
    case FinallyRuns(udn) => udn in r.building && r.building[udn].chain.Over?
    case Changed(udn, c) => (udn in r.known || udn in r.building) && (c.Timer? ==> DeviceFor(r, udn).timer)
  }

  /** The device under construction loses its last context, so that its chain is cancelled. */
  predicate LosesLast(r: Registry, udn: string, ip: string) {
    udn !in r.known && udn in r.building && |r.building[udn].device.contexts| == 1 &&
      r.building[udn].device.contexts[0].ip == ip
  }

  /** What the C code takes for granted: it subscribes through the preferred context without asking whether
      the device has a context left, and it cancels a chain without asking whether its queue is still there. */
  predicate Safe(r: Registry, e: Event) {
    match e
    case Available(_, _, _) => true
    case Unavailable(udn, ip) => LosesLast(r, udn, ip) ==> !r.building[udn].chain.Over?
    case Subscribing(udn) => udn in r.building && r.building[udn].device.contexts != []
    case DeclareFailed(udn) => udn in r.building
    case ChainGone(udn, _) => udn in r.building
    case FinallyRuns(udn) => udn in r.building && r.building[udn].chain.Over?
    case Changed(udn, c) => (udn in r.known || udn in r.building) && (c.Timer? ==> DeviceFor(r, udn).contexts != [])
  }

  function Step(r: Registry, e: Event): Registry
    requires Safe(r, e)
  {
    match e
    case Available(udn, ip, services) => BecomeAvailable(r, udn, ip, services)
    case Unavailable(udn, ip) => BecomeUnavailable(r, udn, ip)
    case Subscribing(udn) =>
      r.(building := r.building[udn := Building(Switched(r.building[udn].device), Running(true))])
    case DeclareFailed(udn) => PutChain(r, udn, Stuck)
    case ChainGone(udn, cancelled) => PutChain(r, udn, Over(cancelled))
    case FinallyRuns(udn) => EndChain(r, udn)
    case Changed(udn, c) => PutDevice(r, udn, AfterChange(DeviceFor(r, udn), c))
  }

  ghost predicate Run(rs: seq<Registry>, es: seq<Event>) {
    && |rs| == |es| + 1 && rs[0] == EMPTY
    && forall n :: 0 <= n < |es| ==> May(rs[n], es[n]) && Safe(rs[n], es[n]) && rs[n + 1] == Step(rs[n], es[n])
  }

  // ---------- the invariant ----------

  /** What a client that follows the signals takes to be there. */
  function Listed(signals: seq<Signal>): set<nat> {
    if signals == [] then {} else
      var before := Listed(signals[..|signals|-1]);
      match signals[|signals|-1]
      case Found(b) => before + {b}
      case Gone(b) => before - {b}
  }

  /** No signal is sent twice, and LostServer only after FoundServer. */
  ghost predicate Orderly(signals: seq<Signal>) {
    && (forall m, n :: 0 <= m < n < |signals| ==> signals[m] != signals[n])
    && (forall n :: 0 <= n < |signals| && signals[n].Gone? ==> Found(signals[n].birth) in signals[..n])
  }

  /** Every device has a number of its own. */
  ghost predicate Births(r: Registry) {
    && |r.names| == r.counter
    && r.known.Keys !! r.building.Keys
    && (forall u :: u in r.known ==> r.known[u].birth < r.counter && r.names[r.known[u].birth] == u)
    && (forall u :: u in r.building ==>
         r.building[u].device.birth < r.counter && r.names[r.building[u].device.birth] == u)
  }

  /** A device under construction has a context, unless its chain is stuck or was cancelled. */
  ghost predicate BuildingInv(b: Building) {
    DeviceInv(b.device) && (b.device.contexts == [] ==> b.chain == Stuck || b.chain == Over(true))
  }

  /** A known device has a context. */
  ghost predicate Devices(r: Registry) {
    && (forall u :: u in r.known ==> DeviceInv(r.known[u]) && r.known[u].contexts != [])
    && (forall u :: u in r.building ==> BuildingInv(r.building[u]))
  }

  /** The devices signalled and not lost since are the known ones. */
  ghost predicate Signals(r: Registry) {
    && Orderly(r.signals)
    && (forall u :: u in r.known ==> r.known[u].birth in Listed(r.signals))
    && (forall b :: b in Listed(r.signals) ==> b < |r.names| && r.names[b] in r.known && r.known[r.names[b]].birth == b)
    && (forall n :: 0 <= n < |r.signals| ==> r.signals[n].birth < r.counter)
    && (forall n, u :: 0 <= n < |r.signals| && u in r.building ==> r.signals[n].birth != r.building[u].device.birth)
  }

  ghost predicate Inv(r: Registry) {
    Births(r) && Devices(r) && Signals(r)
  }

  lemma {:induction false} ListedAreFound(signals: seq<Signal>, b: nat)
    requires b in Listed(signals)
    ensures Found(b) in signals
  {
    var n := |signals| - 1;
    if signals[n] != Found(b) {
      ListedAreFound(signals[..n], b);
    }
  }

  lemma {:induction false} ListedNotGone(signals: seq<Signal>, b: nat)
    requires Orderly(signals) && b in Listed(signals)
    ensures Gone(b) !in signals
  {
    var n := |signals| - 1;
    var before := signals[..n];
    if b in Listed(before) {
      assert Orderly(before) by {
        assert forall m :: 0 <= m < n ==> before[..m] == signals[..m];
      }
      ListedNotGone(before, b);
    } else {
      assert signals[n] == Found(b);
      assert forall m :: 0 <= m < n ==> signals[m] != Found(b);
    }
  }

  lemma SignalAdded(signals: seq<Signal>, x: Signal)
    requires Orderly(signals) && x !in signals
    requires x.Gone? ==> Found(x.birth) in signals
    ensures Orderly(signals + [x])
    ensures Listed(signals + [x]) == if x.Found? then Listed(signals) + {x.birth} else Listed(signals) - {x.birth}
  {
    var signals' := signals + [x];
    assert signals'[..|signals|] == signals;
    assert forall n :: 0 <= n < |signals| ==> signals'[..n] == signals[..n];
  }

  lemma BirthsDiffer(r: Registry, u: string, v: string)
    requires Births(r) && Live(r, u) && Live(r, v) && u != v
    ensures DeviceFor(r, u).birth != DeviceFor(r, v).birth
    ensures DeviceFor(r, u).birth < r.counter && DeviceFor(r, v).birth < r.counter
  {}

  // ---------- every event keeps it ----------

  lemma PutDeviceKeeps(r: Registry, udn: string, d: Device)
    requires Births(r) && (udn in r.known || udn in r.building)
    requires d.birth == DeviceFor(r, udn).birth
    ensures Births(PutDevice(r, udn, d))
    ensures Signals(r) ==> Signals(PutDevice(r, udn, d))
  {
    hide Orderly, Listed;
  }

  lemma PutDeviceDevices(r: Registry, udn: string, d: Device)
    requires Births(r) && Devices(r) && (udn in r.known || udn in r.building)
    requires DeviceInv(d) && (d.contexts == [] ==>
      udn in r.building && (r.building[udn].chain == Stuck || r.building[udn].chain == Over(true)))
    ensures Devices(PutDevice(r, udn, d))
  {
    hide DeviceInv;
  }

  lemma AddNewKeeps(r: Registry, udn: string, ip: string, services: set<Service>)
    requires Inv(r) && udn !in r.known && udn !in r.building
    ensures Inv(AddNew(r, udn, ip, services))
  {
    hide DeviceInv, Orderly, Listed;
    NewDeviceKeeps(r.counter, ip, services);
  }

  lemma AvailableKeeps(r: Registry, udn: string, ip: string, services: set<Service>)
    requires Inv(r)
    ensures Inv(BecomeAvailable(r, udn, ip, services))
  {
    hide DeviceInv, Births, Devices, Signals, PutDevice, AddNew, Appended;
    if udn !in r.known && udn !in r.building {
      AddNewKeeps(r, udn, ip, services);
    } else {
      KnownFacts(r, udn);
      AppendedKeeps(DeviceFor(r, udn), ip, services);
      AppendedSame(DeviceFor(r, udn), ip, services);
      PutDeviceKeeps(r, udn, Appended(DeviceFor(r, udn), ip, services));
      PutDeviceDevices(r, udn, Appended(DeviceFor(r, udn), ip, services));
    }
  }

  lemma KnownFacts(r: Registry, udn: string)
    requires Devices(r) && (udn in r.known || udn in r.building)
    ensures DeviceInv(DeviceFor(r, udn))
  {}

  lemma AppendedSame(d: Device, ip: string, services: set<Service>)
    ensures Appended(d, ip, services).birth == d.birth
  {}

  lemma KnownGone(r: Registry, udn: string)
    requires Births(r) && Signals(r) && udn in r.known
    ensures Births(DropDevice(r, udn)) && Signals(DropDevice(r, udn))
  {
    hide Orderly, Listed;
    var b := r.known[udn].birth;
    ListedAreFound(r.signals, b);
    ListedNotGone(r.signals, b);
    SignalAdded(r.signals, Gone(b));
  }

  lemma BuildingGone(r: Registry, udn: string)
    requires Births(r) && Signals(r) && udn in r.building && udn !in r.known
    ensures Births(DropDevice(r, udn)) && Signals(DropDevice(r, udn))
  {
    hide Orderly, Listed;
  }

  /** When the last context goes, a known device does, and a chain ends as cancelled or is stuck. */
  lemma DropDevices(r: Registry, udn: string, d: Device)
    requires Births(r) && Devices(r) && (udn in r.known || udn in r.building)
    requires DeviceInv(d) && (udn in r.building ==> !r.building[udn].chain.Over?)
    ensures Devices(DropDevice(PutDevice(r, udn, d), udn))
  {
    hide DeviceInv;
  }

  lemma OneLeft(d: Device, i: nat)
    requires i < |d.contexts| && Removed(d, i).contexts == []
    ensures |d.contexts| == 1 && i == 0
  {}

  lemma UnavailableKeeps(r: Registry, udn: string, ip: string)
    requires Inv(r) && Safe(r, Unavailable(udn, ip))
    ensures Inv(BecomeUnavailable(r, udn, ip))
  {
    hide DeviceInv, Births, Devices, Signals, DropDevice, Removed;
    if udn in r.known || udn in r.building {
      var d := DeviceFor(r, udn);
      var i := FindIp(d.contexts, ip);
      if i < |d.contexts| {
        var r1 := PutDevice(r, udn, Removed(d, i));
        KnownFacts(r, udn);
        RemovedKeeps(d, i);
        RemovedSame(d, i);
        PutDeviceKeeps(r, udn, Removed(d, i));
        if Removed(d, i).contexts != [] {
          PutDeviceDevices(r, udn, Removed(d, i));
        } else {
          OneLeft(d, i);
          NotBoth(r, udn);
          DropDevices(r, udn, Removed(d, i));
          if udn in r.known { KnownGone(r1, udn); } else { BuildingGone(r1, udn); }
        }
      }
    }
  }

  lemma NotBoth(r: Registry, udn: string)
    requires Births(r)
    ensures udn !in r.known || udn !in r.building
  {}

  lemma RemovedSame(d: Device, i: nat)
    requires i < |d.contexts|
    ensures Removed(d, i).birth == d.birth
  {}

  lemma EndChainKeeps(r: Registry, udn: string)
    requires Births(r) && Signals(r) && udn in r.building && r.building[udn].chain.Over?
    ensures Births(EndChain(r, udn)) && Signals(EndChain(r, udn))
  {
    hide Orderly, Listed;
    SignalAdded(r.signals, Found(r.building[udn].device.birth));
  }

  lemma EndChainDevices(r: Registry, udn: string)
    requires Devices(r) && May(r, FinallyRuns(udn))
    ensures Devices(EndChain(r, udn))
  {
    hide DeviceInv;
  }

  lemma ChangeKeeps(d: Device, c: Change)
    requires DeviceInv(d) && (c.Timer? ==> d.contexts != [])
    ensures DeviceInv(AfterChange(d, c)) && AfterChange(d, c).birth == d.birth &&
      |AfterChange(d, c).contexts| == |d.contexts|
  {
    hide DeviceInv;
    match c
    case Timer => TimerKeeps(d);
    case SubscriptionLost(ip, v) =>
      if FindIp(d.contexts, ip) < |d.contexts| { LostKeeps(d, FindIp(d.contexts, ip), v); }
    case WindowOver(ip, v) => if FindIp(d.contexts, ip) < |d.contexts| { LostKeeps(d, FindIp(d.contexts, ip), v); }
  }

  lemma ChangedKeeps(r: Registry, udn: string, c: Change)
    requires Inv(r) && Safe(r, Changed(udn, c))
    ensures Inv(Step(r, Changed(udn, c)))
  {
    hide DeviceInv, Births, Signals, PutDevice, AfterChange;
    ChangeKeeps(DeviceFor(r, udn), c);
    PutDeviceKeeps(r, udn, AfterChange(DeviceFor(r, udn), c));
    PutDeviceDevices(r, udn, AfterChange(DeviceFor(r, udn), c));
  }

  lemma JoinedKeeps(d: Device)
    requires DeviceInv(d) && d.contexts != []
    ensures DeviceInv(Switched(d)) && Switched(d).birth == d.birth && Switched(d).contexts != []
    ensures Listening(Switched(d)) <==> d.timer || d.contexts[Preferred(d.contexts)].services != {}
  {
    InvMeansAtMostOne(d);
    SwitchedKeeps(d);
  }

  lemma ChainGoesOn(r: Registry, udn: string, b: Building)
    requires Inv(r) && udn in r.building && BuildingInv(b) && b.device.birth == r.building[udn].device.birth
    ensures Inv(r.(building := r.building[udn := b]))
  {
    hide BuildingInv, DeviceInv, Orderly, Listed;
  }

  lemma BuildingFacts(r: Registry, udn: string)
    requires Devices(r) && udn in r.building
    ensures BuildingInv(r.building[udn])
  {}

  lemma StepKeepsInv(r: Registry, e: Event)
    requires Inv(r) && May(r, e) && Safe(r, e)
    ensures Inv(Step(r, e))
  {
    hide DeviceInv, BecomeAvailable, BecomeUnavailable, EndChain, PutDevice, AfterChange, Switched, Births, Signals,
      Devices;
    match e
    case Available(udn, ip, services) => AvailableKeeps(r, udn, ip, services);
    case Unavailable(udn, ip) => UnavailableKeeps(r, udn, ip);
    case Subscribing(udn) =>
      BuildingFacts(r, udn);
      JoinedKeeps(r.building[udn].device);
      ChainGoesOn(r, udn, Building(Switched(r.building[udn].device), Running(true)));
    case DeclareFailed(udn) =>
      BuildingFacts(r, udn);
      ChainGoesOn(r, udn, r.building[udn].(chain := Stuck));
    case ChainGone(udn, cancelled) =>
      BuildingFacts(r, udn);
      ChainGoesOn(r, udn, r.building[udn].(chain := Over(cancelled)));
    case FinallyRuns(udn) => EndChainKeeps(r, udn); EndChainDevices(r, udn);
    case Changed(udn, c) => ChangedKeeps(r, udn, c);
  }

  lemma {:induction false} RunKeepsInv(rs: seq<Registry>, es: seq<Event>, n: nat)
    requires Run(rs, es) && n < |rs|
    ensures Inv(rs[n])
    decreases n
  {
    hide Inv, Step, May, Safe;
    if n == 0 {
      EmptyInv();
    } else {
      RunKeepsInv(rs, es, n - 1);
      StepKeepsInv(rs[n - 1], es[n - 1]);
    }
  }

  lemma EmptyInv()
    ensures Inv(EMPTY)
  {}
}
