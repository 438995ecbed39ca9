/** What holds of the registry in every run. */
module RegistryTheorems {
  import opened Subscription
  import opened RegistryModel
  import Decimal

  const WRAP := 0x1_0000_0000

  // ---------- devices and their paths ----------

  /** A UDN is known or under construction, not both; a known device has a context, and the contexts of any
      device have different addresses. */
  lemma OnePlacePerUdn(rs: seq<Registry>, es: seq<Event>, n: nat, udn: string)
    requires Run(rs, es) && n < |rs|
    ensures udn !in rs[n].known || udn !in rs[n].building
    ensures udn in rs[n].known ==> rs[n].known[udn].contexts != []
    ensures Live(rs[n], udn) ==> Distinct(DeviceFor(rs[n], udn).contexts)
  {
    RunKeepsInv(rs, es, n);
  }

  lemma SamePath(a: nat, b: nat)
    ensures Path(a) == Path(b) <==> a % WRAP == b % WRAP
  {
    if Path(a) == Path(b) {
      var p := |SERVER_PATH|;
      assert Decimal.Digits(a % WRAP) == Path(a)[p..] && Decimal.Digits(b % WRAP) == Path(b)[p..];
      Decimal.DigitsInjective(a % WRAP, b % WRAP);
    }
  }

  /** Two devices that are there at the same time have different paths, unless the counter has gone all the
      way round between them. */
  lemma PathsDiffer(rs: seq<Registry>, es: seq<Event>, n: nat, u: string, v: string)
    requires Run(rs, es) && n < |rs| && Live(rs[n], u) && Live(rs[n], v) && u != v
    ensures
      var a, b := DeviceFor(rs[n], u).birth, DeviceFor(rs[n], v).birth;
      a != b && (Path(a) == Path(b) <==> a % WRAP == b % WRAP) && (rs[n].counter <= WRAP ==> Path(a) != Path(b))
  {
    hide Step, May, Safe, Signals, Devices, Births, Path;
    RunKeepsInv(rs, es, n);
    BirthsDiffer(rs[n], u, v);
    SamePath(DeviceFor(rs[n], u).birth, DeviceFor(rs[n], v).birth);
  }

  // ---------- the signals ----------

  /** FoundServer and LostServer are signalled at most once each for a device, in that order; and, until the
      counter wraps, for a path. */
  lemma FoundThenLost(rs: seq<Registry>, es: seq<Event>, n: nat, i: nat, j: nat)
    requires Run(rs, es) && n < |rs| && i < |rs[n].signals| && j < |rs[n].signals|
    ensures i != j ==> rs[n].signals[i] != rs[n].signals[j]
    ensures rs[n].signals[i].Gone? ==> exists k :: 0 <= k < i && rs[n].signals[k] == Found(rs[n].signals[i].birth)
    ensures
      var a, b := rs[n].signals[i], rs[n].signals[j];
      rs[n].counter <= WRAP && a.Found? == b.Found? && Path(a.birth) == Path(b.birth) ==> i == j
  {
    hide Step, May, Safe, Path;
    RunKeepsInv(rs, es, n);
    var signals := rs[n].signals;
    SamePath(signals[i].birth, signals[j].birth);
    if signals[i].Gone? {
      assert Found(signals[i].birth) in signals[..i];
      var k :| 0 <= k < i && signals[..i][k] == Found(signals[i].birth);
      assert signals[k] == Found(signals[i].birth);
    }
  }

  /** The paths a client holds that starts with none and follows the signals. */
  function Followed(signals: seq<Signal>): set<string> {
    if signals == [] then {} else
      var before := Followed(signals[..|signals|-1]);
      match signals[|signals|-1]
      case Found(b) => before + {Path(b)}
      case Gone(b) => before - {Path(b)}
  }

  /** The answer to GetServers. */
  function Servers(r: Registry): set<string> {
    set u | u in r.known :: Path(r.known[u].birth)
  }

  lemma {:induction false} FollowedAreListed(signals: seq<Signal>, p: string)
    requires forall n :: 0 <= n < |signals| ==> signals[n].birth < WRAP
    ensures p in Followed(signals) <==> exists b :: b in Listed(signals) && Path(b) == p
  {
    if signals != [] {
      var before, x := signals[..|signals|-1], signals[|signals|-1];
      FollowedAreListed(before, p);
      forall b | b in Listed(before)
        ensures Path(b) == Path(x.birth) <==> b == x.birth
      {
        ListedAreFound(before, b);
        SamePath(b, x.birth);
      }
      if x.Found? && p == Path(x.birth) {
        assert x.birth in Listed(signals);
      }
    }
  }

  /** A client that follows the signals knows what GetServers would tell it, until the counter wraps. */
  lemma ClientsAreUpToDate(rs: seq<Registry>, es: seq<Event>, n: nat)
    requires Run(rs, es) && n < |rs| && rs[n].counter <= WRAP
    ensures Followed(rs[n].signals) == Servers(rs[n])
  {
    RunKeepsInv(rs, es, n);
    var r := rs[n];
    forall p
      ensures p in Followed(r.signals) <==> p in Servers(r)
    {
      FollowedAreListed(r.signals, p);
      if p in Followed(r.signals) {
        var b :| b in Listed(r.signals) && Path(b) == p;
        assert r.names[b] in r.known;
      }
    }
  }

  // ---------- subscriptions ----------

  /** Whatever comes and goes, at most one context of a device is subscribed to, and it is the preferred one. */
  lemma SubscribedIsPreferred(rs: seq<Registry>, es: seq<Event>, n: nat, udn: string, i: nat)
    requires Run(rs, es) && n < |rs| && Live(rs[n], udn)
    requires i < |DeviceFor(rs[n], udn).contexts| && DeviceFor(rs[n], udn).contexts[i].subscribed != {}
    ensures i == Preferred(DeviceFor(rs[n], udn).contexts)
  {
    RunKeepsInv(rs, es, n);
    OneSubscription(DeviceFor(rs[n], udn), i, i);
  }

  /** The device known or built under udn is the same before and after the event. */
  predicate Stays(r: Registry, r': Registry, udn: string) {
    Live(r, udn) && Live(r', udn) && DeviceFor(r, udn).birth == DeviceFor(r', udn).birth
  }

  lemma OthersUntouched(r: Registry, e: Event, udn: string)
    requires Inv(r) && May(r, e) && Safe(r, e) && e.udn != udn && Live(r, udn)
    ensures Live(Step(r, e), udn) && DeviceFor(Step(r, e), udn) == DeviceFor(r, udn)
  {
    hide Signals, Devices, DeviceInv, Appended, Removed, Switched, AfterChange;
  }

  /** What an event that leaves the device in place does to it. */
  lemma StepOnDevice(r: Registry, e: Event, udn: string)
    requires Inv(r) && May(r, e) && Safe(r, e) && e.udn == udn && Stays(r, Step(r, e), udn)
    ensures
      var d, d' := DeviceFor(r, udn), DeviceFor(Step(r, e), udn);
      match e
      case Available(_, ip, services) => d' == Appended(d, ip, services)
      case Unavailable(_, ip) =>
        d' == (if FindIp(d.contexts, ip) < |d.contexts| then Removed(d, FindIp(d.contexts, ip)) else d)
      case Subscribing(_) => d' == Switched(d)
      case Changed(_, c) => d' == AfterChange(d, c)
      case _ => d' == d
  {
    hide Signals, Devices, DeviceInv, Appended, Removed, Switched, AfterChange;
  }

  lemma Facts(r: Registry, udn: string)
    requires Inv(r) && Live(r, udn)
    ensures DeviceInv(DeviceFor(r, udn))
  {}

  lemma SubscribingFacts(r: Registry, udn: string)
    requires Inv(r) && Safe(r, Subscribing(udn)) && Live(r, udn)
    ensures DeviceFor(r, udn).contexts != []
  {}

  /** The context that would be preferred if the device appeared on another interface has a proxy. */
  predicate Hears(d: Device, ip: string, services: set<Service>) {
    var cs := More(d, ip, services);
    cs[Preferred(cs)].services != {}
  }

  /** The events after which a device that listened no longer does. */
  predicate Silences(d: Device, e: Event) {
    match e
    case Available(_, ip, services) => FindIp(d.contexts, ip) == |d.contexts| && !d.timer && !Hears(d, ip, services)
    case Unavailable(_, ip) =>
      var i := FindIp(d.contexts, ip);
      && i < |d.contexts| && !d.timer && d.contexts[i].subscribed != {}
      && (|d.contexts| == 1 || !Needed(d.contexts[i]))
    case Changed(_, Timer) => d.contexts != [] && d.contexts[Preferred(d.contexts)].services == {}
    case Changed(_, SubscriptionLost(ip, v)) =>
      var i := FindIp(d.contexts, ip);
      i < |d.contexts| && !d.timer && v in d.contexts[i].expiring && d.contexts[i].subscribed == {v}
    case _ => false
  }

  /** The events after which a device that did not listen does. */
  predicate Wakens(d: Device, e: Event) {
    match e
    case Available(_, ip, services) => FindIp(d.contexts, ip) == |d.contexts| && Hears(d, ip, services)
    case Subscribing(_) => d.contexts != [] && d.contexts[Preferred(d.contexts)].services != {}
    case _ => false
  }

  lemma ChangeListens(d: Device, c: Change)
    requires DeviceInv(d) && (c.Timer? ==> d.contexts != [] && d.timer)
    ensures Listening(AfterChange(d, c)) <==> Listening(d) && !Silences(d, Changed("", c))
  {
    hide DeviceInv;
    match c
    case Timer => TimerKeeps(d);
    case SubscriptionLost(ip, v) =>
      if FindIp(d.contexts, ip) < |d.contexts| { LostKeeps(d, FindIp(d.contexts, ip), v); }
    case WindowOver(ip, v) => if FindIp(d.contexts, ip) < |d.contexts| { LostKeeps(d, FindIp(d.contexts, ip), v); }
  }

  lemma RemovalListens(d: Device, ip: string)
    requires DeviceInv(d) && FindIp(d.contexts, ip) < |d.contexts|
    ensures Listening(Removed(d, FindIp(d.contexts, ip))) <==> Listening(d) && !Silences(d, Unavailable("", ip))
  {
    hide DeviceInv, Removed;
    var i := FindIp(d.contexts, ip);
    RemovedKeeps(d, i);
    assert d.contexts[i].subscribed != {} ==> Listening(d);
    NeededIsSubscribed(d.contexts[i]);
  }

  lemma NeededIsSubscribed(c: Context)
    ensures Needed(c) ==> c.subscribed != {}
  {}

  lemma SwitchListens(d: Device)
    requires DeviceInv(d) && d.contexts != []
    ensures Listening(d) && !d.timer ==> d.contexts[Preferred(d.contexts)].services != {}
  {}

  /** After any event a device that stays listens, that is something is subscribed to or the timer pending,
      exactly if it did and the event is none of those that silence it, or it did not and the event is one
      that wakens it. */
  lemma WhatSilences(r: Registry, e: Event, udn: string)
    requires Inv(r) && May(r, e) && Safe(r, e) && Stays(r, Step(r, e), udn)
    ensures
      var d, d' := DeviceFor(r, udn), DeviceFor(Step(r, e), udn);
      Listening(d') <==>
        if e.udn != udn then Listening(d)
        else if Listening(d) then !Silences(d, e)
        else Wakens(d, e)
  {
    hide Inv, Step, DeviceInv, Appended, Removed, Switched, AfterChange, Listening, Hears;
    if e.udn != udn {
      OthersUntouched(r, e, udn);
    } else {
      StepOnDevice(r, e, udn);
      Facts(r, udn);
      var d := DeviceFor(r, udn);
      match e
      case Available(_, ip, services) => AppendListens(d, ip, services);
      case Unavailable(_, ip) =>
        if FindIp(d.contexts, ip) < |d.contexts| { RemovalListens(d, ip); SilentRemoval(d, e); }
      case Subscribing(_) => SubscribingFacts(r, udn); JoinedKeeps(d); SwitchListens(d); PendingListens(d);
      case Changed(_, c) => ChangeListens(d, c);
      case _ =>
    }
  }

  lemma PendingListens(d: Device)
    ensures d.timer ==> Listening(d)
  {}

  lemma SilentRemoval(d: Device, e: Event)
    requires e.Unavailable?
    ensures Silences(d, e) <==> Silences(d, Unavailable("", e.ip))
  {}

  lemma AppendListens(d: Device, ip: string, services: set<Service>)
    requires DeviceInv(d)
    ensures FindIp(d.contexts, ip) < |d.contexts| ==> Appended(d, ip, services) == d
    ensures FindIp(d.contexts, ip) == |d.contexts| ==>
      (Listening(Appended(d, ip, services)) <==> d.timer || Hears(d, ip, services))
    ensures d.timer ==> Listening(d)
  {
    hide DeviceInv;
    AppendedKeeps(d, ip, services);
  }

  /** The device stays in place from one state to another and no event silences it. */
  ghost predicate Served(rs: seq<Registry>, es: seq<Event>, udn: string, m: nat, n: nat)
    requires Run(rs, es) && m <= n < |rs|
  {
    forall k: nat :: m <= k < n ==>
      Stays(rs[k], rs[k + 1], udn) && !(es[k].udn == udn && Silences(DeviceFor(rs[k], udn), es[k]))
  }

  /** Over any stretch of a run, a device that listens goes on listening unless one of those events comes. */
  lemma {:induction false} ServedStaysListening(rs: seq<Registry>, es: seq<Event>, udn: string, m: nat, n: nat)
    requires Run(rs, es) && m <= n < |rs| && Served(rs, es, udn, m, n)
    requires Live(rs[m], udn) && Listening(DeviceFor(rs[m], udn))
    ensures Live(rs[n], udn) && Listening(DeviceFor(rs[n], udn))
    decreases n
  {
    hide Step, May, Safe, Inv, Silences, Wakens, Listening;
    if m < n {
      ServedStaysListening(rs, es, udn, m, n - 1);
      RunKeepsInv(rs, es, n - 1);
      assert Stays(rs[n - 1], rs[(n - 1) + 1], udn);
      WhatSilences(rs[n - 1], es[n - 1], udn);
    }
  }

  /** When its chain gets past the subscription task, a device listens exactly if its timer is pending or its
      preferred context has a proxy. */
  lemma JoiningListens(r: Registry, udn: string)
    requires Inv(r) && May(r, Subscribing(udn)) && Safe(r, Subscribing(udn))
    ensures
      var d := r.building[udn].device;
      Listening(Step(r, Subscribing(udn)).building[udn].device) <==>
        d.timer || d.contexts[Preferred(d.contexts)].services != {}
  {
    hide DeviceInv, Switched, Births, Signals;
    BuildingFacts(r, udn);
    JoinedKeeps(r.building[udn].device);
  }

  predicate LosesNeeded(d: Device, e: Event, udn: string) {
    && e.Unavailable? && e.udn == udn
    && FindIp(d.contexts, e.ip) < |d.contexts| && Needed(d.contexts[FindIp(d.contexts, e.ip)])
  }

  predicate AllSubscribed(c: Context) {
    c.subscribed == c.services
  }

  /** When a context that AV or CM events came through goes and others remain, the timer is started; it stays
      pending whatever happens until it fires; and when it fires every service of the preferred context is
      subscribed to. */
  lemma TimerRunsItsCourse(r: Registry, e: Event, udn: string)
    requires Inv(r) && May(r, e) && Safe(r, e) && Stays(r, Step(r, e), udn)
    ensures
      var d, d' := DeviceFor(r, udn), DeviceFor(Step(r, e), udn);
      && (LosesNeeded(d, e, udn) && d'.contexts != [] ==> d'.timer)
      && (d.timer && e != Changed(udn, Timer) ==> d'.timer)
      && (e == Changed(udn, Timer) ==>
           !d'.timer && d'.contexts != [] && AllSubscribed(d'.contexts[Preferred(d'.contexts)]))
  {
    hide Inv, Step, DeviceInv;
    if e.udn != udn {
      OthersUntouched(r, e, udn);
    } else {
      StepOnDevice(r, e, udn);
      Facts(r, udn);
      if e == Changed(udn, Timer) { FiredSubscribes(DeviceFor(r, udn)); }
    }
  }

  lemma FiredSubscribes(d: Device)
    requires DeviceInv(d) && d.contexts != []
    ensures
      var d' := TimerFired(d);
      !d'.timer && d'.contexts != [] &&
        d'.contexts[Preferred(d'.contexts)].subscribed == d'.contexts[Preferred(d'.contexts)].services
  {
    TimerKeeps(d);
    SamePreferred(d.contexts, TimerFired(d).contexts);
  }

  // ---------- what the code takes for granted ----------

  /** The timer of a device under construction that has no context left: its chain is stuck, or was cancelled
      and its finally callback has not come yet. */
  predicate Orphaned(r: Registry, e: Event) {
    e.Changed? && e.change.Timer? && e.udn in r.building && r.building[e.udn].device.contexts == []
  }

  /** The last context of a device under construction goes when the queue of its chain is gone already, and the
      finally callback has not come yet. */
  predicate Late(r: Registry, e: Event) {
    e.Unavailable? && LosesLast(r, e.udn, e.ip) && r.building[e.udn].chain.Over?
  }

  /** Whatever comes is safe except, and always except, in those two cases. */
  lemma OnlyTwoAreUnsafe(rs: seq<Registry>, es: seq<Event>, n: nat, e: Event)
    requires Run(rs, es) && n < |rs| && May(rs[n], e)
    ensures Safe(rs[n], e) <==> !Orphaned(rs[n], e) && !Late(rs[n], e)
    ensures Orphaned(rs[n], e) ==> rs[n].building[e.udn].chain == Stuck || rs[n].building[e.udn].chain == Over(true)
  {
    RunKeepsInv(rs, es, n);
  }
}
