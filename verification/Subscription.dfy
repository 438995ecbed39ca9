/**
 The contexts of one device: the network interfaces it has been seen on, in the order they appeared,
 and what is subscribed to on each.  At any time one context is the preferred one.
 */
module Subscription {
  datatype Service = ConnectionManager | AvTransport | RenderingControl

  /** `services`: those the device has a proxy for; `subscribed`: the subscribed_cm, _av and _rc flags;
      `expiring`: those whose ten second timer runs since a subscription was lost. */
  datatype Context = Context(ip: string, services: set<Service>, subscribed: set<Service>, expiring: set<Service>)

  /** `timer`: the resubscription timer is pending. */
  datatype Device = Device(birth: nat, contexts: seq<Context>, timer: bool)

  // ---------- the preferred context ----------

  predicate Loopback(ip: string) {
    "127.0.0." <= ip || ip == "::1" || ip == "0:0:0:0:0:0:0:1"
  }

  /** The first loopback context; |cs| when there is none. */
  function FirstLoopback(cs: seq<Context>): (r: nat)
    ensures r <= |cs| && (r < |cs| ==> Loopback(cs[r].ip))
    ensures forall n :: 0 <= n < r ==> !Loopback(cs[n].ip)
  {
    if cs == [] || Loopback(cs[0].ip) then 0 else 1 + FirstLoopback(cs[1..])
  }

  function Preferred(cs: seq<Context>): (r: nat)
    requires cs != []
    ensures r < |cs|
  {
    if FirstLoopback(cs) == |cs| then 0 else FirstLoopback(cs)
  }

  /** The first context with a subscription; |cs| when there is none. */
  function FirstSubscribed(cs: seq<Context>): (r: nat)
    ensures r <= |cs| && (r < |cs| ==> cs[r].subscribed != {})
    ensures forall n :: 0 <= n < r ==> cs[n].subscribed == {}
  {
    if cs == [] || cs[0].subscribed != {} then 0 else 1 + FirstSubscribed(cs[1..])
  }

  function FindIp(cs: seq<Context>, ip: string): (r: nat)
    ensures r <= |cs| && (r < |cs| ==> cs[r].ip == ip)
    ensures forall n :: 0 <= n < r ==> cs[n].ip != ip
  {
    if cs == [] || cs[0].ip == ip then 0 else 1 + FindIp(cs[1..], ip)
  }

  // ---------- what happens to a device ----------

  function NewContext(ip: string, services: set<Service>): Context {
    Context(ip, services, {}, {})
  }

  function NewDevice(birth: nat, ip: string, services: set<Service>): Device {
    Device(birth, [NewContext(ip, services)], false)
  }

  /** Every flag of a service with a proxy is set on the preferred context. */
  function Resubscribed(d: Device): Device
    requires d.contexts != []
  {
    var p := Preferred(d.contexts);
    var c := d.contexts[p];
    d.(contexts := d.contexts[p := c.(subscribed := c.subscribed + c.services)])
  }

  function Unsubscribed(c: Context): Context {
    c.(subscribed := {}, expiring := {})
  }

  /** The subscription moves to the preferred context unless it is there already. */
  function Switched(d: Device): Device
    requires d.contexts != []
  {
    var s := FirstSubscribed(d.contexts);
    if s == Preferred(d.contexts) then d
    else if s < |d.contexts| then Resubscribed(d.(contexts := d.contexts[s := Unsubscribed(d.contexts[s])]))
    else Resubscribed(d)
  }

  function Appended(d: Device, ip: string, services: set<Service>): Device {
    if FindIp(d.contexts, ip) < |d.contexts| then d
    else Switched(d.(contexts := d.contexts + [NewContext(ip, services)]))
  }

  /** Losing a context that AV or CM events came through starts the timer. */
  predicate Needed(c: Context) {
    AvTransport in c.subscribed || ConnectionManager in c.subscribed
  }

  function Removed(d: Device, i: nat): Device
    requires i < |d.contexts|
  {
    var cs := d.contexts[..i] + d.contexts[i + 1..];
    d.(contexts := cs, timer := d.timer || (cs != [] && Needed(d.contexts[i])))
  }

  function TimerFired(d: Device): Device
    requires d.contexts != []
  {
    Resubscribed(d.(timer := false))
  }

  /** A lost subscription is tried again once; if it is lost again within ten seconds, that is that. */
  function Lost(d: Device, i: nat, v: Service): Device
    requires i < |d.contexts|
  {
    var c := d.contexts[i];
    d.(contexts := d.contexts[i :=
      if v !in c.expiring then c.(expiring := c.expiring + {v})
      else c.(expiring := c.expiring - {v}, subscribed := c.subscribed - {v})])
  }

  function Expired(d: Device, i: nat, v: Service): Device
    requires i < |d.contexts|
  {
    var c := d.contexts[i];
    d.(contexts := d.contexts[i := c.(expiring := c.expiring - {v})])
  }

  // ---------- the invariant ----------

  predicate Distinct(cs: seq<Context>) {
    forall m, n :: 0 <= m < n < |cs| ==> cs[m].ip != cs[n].ip
  }

  /** Any subscribed context is the preferred one, and subscribed to no more than it has proxies for. */
  ghost predicate DeviceInv(d: Device) {
    && Distinct(d.contexts)
    && (forall n :: 0 <= n < |d.contexts| && d.contexts[n].subscribed != {} ==>
          n == Preferred(d.contexts) && d.contexts[n].subscribed <= d.contexts[n].services)
  }

  /** Something is subscribed to, or will be tried when the timer fires. */
  predicate Listening(d: Device) {
    d.timer || exists n :: 0 <= n < |d.contexts| && d.contexts[n].subscribed != {}
  }

  /** The same contexts, whatever is subscribed to. */
  predicate SameIps(cs: seq<Context>, cs': seq<Context>) {
    |cs| == |cs'| && forall n :: 0 <= n < |cs| ==> cs[n].ip == cs'[n].ip
  }

  lemma SamePreferred(cs: seq<Context>, cs': seq<Context>)
    requires SameIps(cs, cs') && cs != []
    ensures Preferred(cs) == Preferred(cs')
  {
    var a, b := FirstLoopback(cs), FirstLoopback(cs');
    assert a < |cs| ==> Loopback(cs'[a].ip);
    assert b < |cs| ==> Loopback(cs[b].ip);
  }

  /** At most one context is subscribed to, and it is the preferred one. */
  lemma OneSubscription(d: Device, m: nat, n: nat)
    requires DeviceInv(d) && m < |d.contexts| && n < |d.contexts|
    requires d.contexts[m].subscribed != {} && d.contexts[n].subscribed != {}
    ensures m == n == Preferred(d.contexts)
  {}

  lemma ResubscribedKeeps(d: Device)
    requires DeviceInv(d) && d.contexts != []
    ensures DeviceInv(Resubscribed(d)) && SameIps(d.contexts, Resubscribed(d).contexts)
    ensures Resubscribed(d).contexts[Preferred(d.contexts)].subscribed == d.contexts[Preferred(d.contexts)].services
    ensures Listening(Resubscribed(d)) <==> d.timer || d.contexts[Preferred(d.contexts)].services != {}
  {
    SamePreferred(d.contexts, Resubscribed(d).contexts);
  }

  /** No context but one is subscribed to, and that one to no more than it has proxies for. */
  ghost predicate AtMostOne(d: Device) {
    forall n :: 0 <= n < |d.contexts| && d.contexts[n].subscribed != {} ==>
      n == FirstSubscribed(d.contexts) && d.contexts[n].subscribed <= d.contexts[n].services
  }

  lemma SwitchedKeeps(d: Device)
    requires Distinct(d.contexts) && d.contexts != [] && AtMostOne(d)
    ensures DeviceInv(Switched(d)) && SameIps(d.contexts, Switched(d).contexts)
    ensures Listening(Switched(d)) <==> d.timer || d.contexts[Preferred(d.contexts)].services != {}
  {
    var s := FirstSubscribed(d.contexts);
    if s == Preferred(d.contexts) {
      assert d.contexts[s].subscribed != {};
    } else if s < |d.contexts| {
      var d1 := d.(contexts := d.contexts[s := Unsubscribed(d.contexts[s])]);
      SamePreferred(d.contexts, d1.contexts);
      ResubscribedKeeps(d1);
    } else {
      ResubscribedKeeps(d);
    }
  }

  lemma InvMeansAtMostOne(d: Device)
    requires DeviceInv(d)
    ensures AtMostOne(d)
  {
    forall n | 0 <= n < |d.contexts| && d.contexts[n].subscribed != {}
      ensures n == FirstSubscribed(d.contexts)
    {
      assert FirstSubscribed(d.contexts) < |d.contexts|;
    }
  }

  /** The contexts of a device that has appeared on another interface. */
  function More(d: Device, ip: string, services: set<Service>): (r: seq<Context>)
    ensures r != []
  {
    d.contexts + [NewContext(ip, services)]
  }

  /** Adding a context keeps the invariant; and afterwards the device listens exactly if the timer is pending
      or the context that is now preferred has a proxy. */
  lemma AppendedKeeps(d: Device, ip: string, services: set<Service>)
    requires DeviceInv(d)
    ensures DeviceInv(Appended(d, ip, services)) && Appended(d, ip, services).contexts != []
    ensures FindIp(d.contexts, ip) == |d.contexts| ==>
      var cs := More(d, ip, services);
      (Listening(Appended(d, ip, services)) <==> d.timer || cs[Preferred(cs)].services != {})
  {
    if FindIp(d.contexts, ip) == |d.contexts| {
      var d1 := d.(contexts := More(d, ip, services));
      InvMeansAtMostOne(d);
      StillAtMostOne(d, d1);
      SwitchedKeeps(d1);
    }
  }

  lemma StillAtMostOne(d: Device, d1: Device)
    requires AtMostOne(d) && |d1.contexts| == |d.contexts| + 1 && d1.contexts[..|d.contexts|] == d.contexts
    requires d1.contexts[|d.contexts|].subscribed == {}
    ensures AtMostOne(d1)
  {
    forall n | 0 <= n < |d1.contexts| && d1.contexts[n].subscribed != {}
      ensures n == FirstSubscribed(d1.contexts) && d1.contexts[n].subscribed <= d1.contexts[n].services
    {
      assert d1.contexts[n] == d1.contexts[..|d.contexts|][n] == d.contexts[n];
      var s := FirstSubscribed(d1.contexts);
      assert d1.contexts[s] == d1.contexts[..|d.contexts|][s] == d.contexts[s];
    }
  }

  lemma NewDeviceKeeps(birth: nat, ip: string, services: set<Service>)
    ensures DeviceInv(NewDevice(birth, ip, services))
  {}

  /** Taking out a context other than the preferred one leaves the preferred one preferred. */
  lemma PreferredStays(cs: seq<Context>, i: nat)
    requires i < |cs| && i != Preferred(cs)
    ensures |cs| > 1
    ensures var cs' := cs[..i] + cs[i + 1..]; cs'[Preferred(cs')] == cs[Preferred(cs)]
  {
    var cs' := cs[..i] + cs[i + 1..];
    var p := FirstLoopback(cs);
    assert forall n :: 0 <= n < |cs'| ==> cs'[n] == cs[if n < i then n else n + 1];
    if p == |cs| {
      assert FirstLoopback(cs') == |cs'|;
    } else {
      var p' := if p < i then p else p - 1;
      assert cs'[p'] == cs[p];
      assert FirstLoopback(cs') == p';
    }
  }

  /** Removing a context keeps the invariant; and what was listening still does exactly if the timer was
      pending, or is started because AV or CM events came through the context and others are left, or nothing
      came through it. */
  lemma RemovedKeeps(d: Device, i: nat)
    requires DeviceInv(d) && i < |d.contexts|
    ensures DeviceInv(Removed(d, i))
    ensures Listening(Removed(d, i)) <==>
      d.timer || (|d.contexts| > 1 && Needed(d.contexts[i])) || (d.contexts[i].subscribed == {} && Listening(d))
  {
    hide DeviceInv, Listening;
    RemovedListens(d, i);
    RemovedInv(d, i);
  }

  lemma RemovedInv(d: Device, i: nat)
    requires DeviceInv(d) && i < |d.contexts|
    ensures DeviceInv(Removed(d, i))
  {
    hide Listening, FirstLoopback;
    var cs, cs' := d.contexts, Removed(d, i).contexts;
    if i != Preferred(cs) {
      PreferredStays(cs, i);
    }
    assert forall n :: 0 <= n < |cs'| ==> cs'[n] == cs[if n < i then n else n + 1];
  }

  lemma RemovedListens(d: Device, i: nat)
    requires DeviceInv(d) && i < |d.contexts|
    ensures Listening(Removed(d, i)) <==>
      d.timer || (|d.contexts| > 1 && Needed(d.contexts[i])) || (d.contexts[i].subscribed == {} && Listening(d))
  {
    hide Preferred;
    var cs, cs' := d.contexts, Removed(d, i).contexts;
    assert forall n :: 0 <= n < |cs'| ==> cs'[n] == cs[if n < i then n else n + 1];
    if cs[i].subscribed == {} && Listening(d) && !d.timer {
      var n :| 0 <= n < |cs| && cs[n].subscribed != {};
      assert cs'[if n < i then n else n - 1] == cs[n];
    }
  }

  lemma TimerKeeps(d: Device)
    requires DeviceInv(d) && d.contexts != []
    ensures DeviceInv(TimerFired(d))
    ensures var p := Preferred(d.contexts); TimerFired(d).contexts[p].subscribed == d.contexts[p].services
    ensures Listening(TimerFired(d)) <==> d.contexts[Preferred(d.contexts)].services != {}
  {
    ResubscribedKeeps(d.(timer := false));
  }

  lemma ContextUpdateKeeps(d: Device, i: nat, c: Context)
    requires DeviceInv(d) && i < |d.contexts| && c.ip == d.contexts[i].ip && c.services == d.contexts[i].services
    requires c.subscribed <= d.contexts[i].subscribed
    ensures DeviceInv(d.(contexts := d.contexts[i := c]))
  {
    var d' := d.(contexts := d.contexts[i := c]);
    SamePreferred(d.contexts, d'.contexts);
  }

  /** A lost subscription keeps the invariant; and what was listening still does exactly unless this is the
      second loss within ten seconds, nothing else is subscribed to and the timer is not pending. */
  lemma LostKeeps(d: Device, i: nat, v: Service)
    requires DeviceInv(d) && i < |d.contexts|
    ensures DeviceInv(Lost(d, i, v)) && DeviceInv(Expired(d, i, v))
    ensures Listening(d) ==>
      (Listening(Lost(d, i, v)) <==> d.timer || !(v in d.contexts[i].expiring && d.contexts[i].subscribed == {v}))
    ensures !Listening(d) ==> !Listening(Lost(d, i, v))
    ensures Listening(Expired(d, i, v)) <==> Listening(d)
  {
    var c := d.contexts[i];
    ContextUpdateKeeps(d, i, Lost(d, i, v).contexts[i]);
    ContextUpdateKeeps(d, i, Expired(d, i, v).contexts[i]);
    UpdateListens(d, i, Lost(d, i, v).contexts[i]);
    UpdateListens(d, i, Expired(d, i, v).contexts[i]);
    assert c.subscribed - {v} == {} <==> c.subscribed == {} || c.subscribed == {v};
  }

  lemma UpdateListens(d: Device, i: nat, c: Context)
    requires DeviceInv(d) && i < |d.contexts|
    requires c.subscribed <= d.contexts[i].subscribed
    ensures Listening(d.(contexts := d.contexts[i := c])) <==>
      d.timer || if d.contexts[i].subscribed == {} then Listening(d) else c.subscribed != {}
  {
    var d' := d.(contexts := d.contexts[i := c]);
    if d.contexts[i].subscribed == {} {
      if Listening(d) && !d.timer {
        var n :| 0 <= n < |d.contexts| && d.contexts[n].subscribed != {};
        assert d'.contexts[n].subscribed != {};
      }
    } else if c.subscribed != {} {
      assert d'.contexts[i].subscribed != {};
    }
  }

  // ---------- losing a subscription again and again ----------

  /** What comes of a row of callbacks about one service of a context: a loss for true, the end of ten
      seconds for false. */
  function Suffered(d: Device, i: nat, v: Service, losses: seq<bool>): (r: Device)
    requires i < |d.contexts|
    ensures |r.contexts| == |d.contexts|
    decreases |losses|
  {
    if losses == [] then d
    else Suffered(if losses[0] then Lost(d, i, v) else Expired(d, i, v), i, v, losses[1..])
  }

  predicate TwoInARow(losses: seq<bool>) {
    exists k :: 0 <= k < |losses| - 1 && losses[k] && losses[k + 1]
  }

  lemma {:induction false} OnceLostStaysLost(d: Device, i: nat, v: Service, losses: seq<bool>)
    requires i < |d.contexts| && v !in d.contexts[i].subscribed
    ensures v !in Suffered(d, i, v, losses).contexts[i].subscribed
    decreases |losses|
  {
    if losses != [] {
      OnceLostStaysLost(if losses[0] then Lost(d, i, v) else Expired(d, i, v), i, v, losses[1..]);
    }
  }

  lemma TwoLater(losses: seq<bool>)
    requires losses != []
    ensures TwoInARow(losses) <==> TwoInARow(losses[1..]) || (|losses| > 1 && losses[0] && losses[1])
  {
    var rest := losses[1..];
    if TwoInARow(rest) {
      var k :| 0 <= k < |rest| - 1 && rest[k] && rest[k + 1];
      assert losses[k + 1] && losses[k + 2];
    }
    if TwoInARow(losses) && !(|losses| > 1 && losses[0] && losses[1]) {
      var k :| 0 <= k < |losses| - 1 && losses[k] && losses[k + 1];
      assert rest[k - 1] && rest[k];
    }
  }

  lemma {:induction false} LossesCount(d: Device, i: nat, v: Service, losses: seq<bool>)
    requires i < |d.contexts| && v in d.contexts[i].subscribed
    ensures v in Suffered(d, i, v, losses).contexts[i].subscribed <==>
      !TwoInARow(losses) && !(v in d.contexts[i].expiring && losses != [] && losses[0])
    decreases |losses|
  {
    if losses != [] {
      TwoLater(losses);
      var d1 := if losses[0] then Lost(d, i, v) else Expired(d, i, v);
      if v in d1.contexts[i].subscribed {
        LossesCount(d1, i, v, losses[1..]);
      } else {
        OnceLostStaysLost(d1, i, v, losses[1..]);
      }
    }
  }

  /** However often a subscription is lost, it survives exactly if it is never lost twice without ten seconds
      running out in between. */
  lemma SecondLossEndsIt(d: Device, i: nat, v: Service, losses: seq<bool>)
    requires i < |d.contexts| && v in d.contexts[i].subscribed && v !in d.contexts[i].expiring
    ensures v in Suffered(d, i, v, losses).contexts[i].subscribed <==> !TwoInARow(losses)
  {
    LossesCount(d, i, v, losses);
  }
}
