/** Runs of the registry that get where one would not want it to. */
module RegistryWitnesses {
  import opened Subscription
  import opened RegistryModel
  import opened RegistryTheorems

  lemma StartRun()
    ensures Run([EMPTY], [])
  {}

  /** The event may come, is handled and leads from r to r'. */
  predicate Goes(r: Registry, e: Event, r': Registry) {
    May(r, e) && Safe(r, e) && Step(r, e) == r'
  }

  lemma RunOn(rs: seq<Registry>, es: seq<Event>, e: Event, r': Registry) returns (rs': seq<Registry>, es': seq<Event>)
    requires Run(rs, es) && Goes(rs[|es|], e, r')
    ensures Run(rs', es') && |es'| == |es| + 1 && rs'[|es'|] == r'
  {
    hide Step, May, Safe;
    rs', es' := rs + [r'], es + [e];
  }

  // ---------- the states they go through ----------

  /** A context on interface ip before and after its services are subscribed to. */
  function Plain(ip: string, sv: set<Service>): Context { NewContext(ip, sv) }

  function Heard(ip: string, sv: set<Service>): Context { Context(ip, sv, sv, {}) }

  function InConstruction(cs: seq<Context>, timer: bool, chain: Chain): Registry {
    Registry(map[], map["u" := Building(Device(0, cs, timer), chain)], 1, [], ["u"])
  }

  function Published(cs: seq<Context>): Registry {
    Registry(map["u" := Device(0, cs, false)], map[], 1, [Found(0)], ["u"])
  }

  /** On "a" alone, and on "a" and "b", neither of them a loopback address. */
  lemma Preferences(a: Context, b: Context)
    requires a.ip == "a" && b.ip == "b"
    ensures Preferred([a]) == 0 && Preferred([a, b]) == 0 && Preferred([b]) == 0
    ensures FindIp([a], "b") == 1 && FindIp([a], "a") == 0 && FindIp([a, b], "a") == 0 && FindIp([b], "b") == 0
  {
    assert !Loopback(a.ip);
    assert !Loopback(b.ip);
  }

  lemma SubscribeOne(sv: set<Service>, timer: bool)
    requires sv != {}
    ensures Switched(Device(0, [Plain("a", sv)], timer)) == Device(0, [Heard("a", sv)], timer)
  {
    var a := [Plain("a", sv)];
    Preferences(a[0], Plain("b", sv));
    assert FirstSubscribed(a) == 1;
    assert a[0].(subscribed := a[0].subscribed + a[0].services) == Heard("a", sv);
    assert a[0 := Heard("a", sv)] == [Heard("a", sv)];
  }

  lemma AppendSecond(sv: set<Service>, c: Context)
    requires sv != {} && (c == Plain("a", sv) || c == Heard("a", sv))
    ensures Appended(Device(0, [c], false), "b", sv) == Device(0, [Heard("a", sv), Plain("b", sv)], false)
  {
    var cs := [c] + [Plain("b", sv)];
    Preferences(c, Plain("b", sv));
    assert cs == [c, Plain("b", sv)];
    assert c.subscribed == {} ==> FirstSubscribed(cs) == 2;
    assert c.subscribed != {} ==> FirstSubscribed(cs) == 0;
    assert c.(subscribed := c.subscribed + c.services) == Heard("a", sv);
    assert cs[0 := Heard("a", sv)] == [Heard("a", sv), Plain("b", sv)];
  }

  lemma RemoveFirst(sv: set<Service>)
    ensures Removed(Device(0, [Heard("a", sv), Plain("b", sv)], false), 0)
         == Device(0, [Plain("b", sv)], AvTransport in sv || ConnectionManager in sv)
  {
    var cs := [Heard("a", sv), Plain("b", sv)];
    assert cs[..0] + cs[1..] == [Plain("b", sv)];
  }

  lemma RemoveSecond(sv: set<Service>)
    ensures Removed(Device(0, [Plain("b", sv)], true), 0) == Device(0, [], true)
  {
    var cs := [Plain("b", sv)];
    assert cs[..0] + cs[1..] == [];
  }

  lemma Appear(sv: set<Service>)
    ensures Goes(EMPTY, Available("u", "a", sv), InConstruction([Plain("a", sv)], false, Running(false)))
  {}

  lemma Join(sv: set<Service>)
    requires sv != {}
    ensures Goes(InConstruction([Plain("a", sv)], false, Running(false)), Subscribing("u"),
                 InConstruction([Heard("a", sv)], false, Running(true)))
  {
    hide Switched, Plain, Heard;
    SubscribeOne(sv, false);
  }

  lemma AppearAgain(sv: set<Service>, c: Context, chain: Chain)
    requires sv != {} && (c == Plain("a", sv) || c == Heard("a", sv))
    ensures Goes(InConstruction([c], false, chain), Available("u", "b", sv),
                 InConstruction([Heard("a", sv), Plain("b", sv)], false, chain))
  {
    hide Appended, Plain, Heard;
    AppendSecond(sv, c);
  }

  lemma LoseFirst(sv: set<Service>, chain: Chain)
    ensures Goes(InConstruction([Heard("a", sv), Plain("b", sv)], false, chain), Unavailable("u", "a"),
                 InConstruction([Plain("b", sv)], AvTransport in sv || ConnectionManager in sv, chain))
  {
    hide Removed, FindIp;
    Preferences(Heard("a", sv), Plain("b", sv));
    RemoveFirst(sv);
  }

  lemma LoseSecond(sv: set<Service>, chain: Chain)
    requires !chain.Over?
    ensures Goes(InConstruction([Plain("b", sv)], true, chain), Unavailable("u", "b"),
                 InConstruction([], true, if chain.Running? then Over(true) else chain))
  {
    hide Removed, FindIp;
    Preferences(Plain("a", sv), Plain("b", sv));
    RemoveSecond(sv);
  }

  lemma BecomeKnown(cs: seq<Context>)
    ensures Goes(InConstruction(cs, false, Running(true)), ChainGone("u", false),
      InConstruction(cs, false, Over(false)))
    ensures Goes(InConstruction(cs, false, Over(false)), FinallyRuns("u"), Published(cs))
  {}

  lemma Fail(cs: seq<Context>)
    ensures Goes(InConstruction(cs, false, Running(true)), DeclareFailed("u"), InConstruction(cs, false, Stuck))
  {}

  // ---------- the runs ----------

  const AV := {AvTransport}
  const RC := {RenderingControl}

  /** A device seen on two interfaces, whose object cannot be registered, is lost on both within a second: its
      timer finds no context. */
  lemma StuckOrphanExists() returns (rs: seq<Registry>, es: seq<Event>)
    ensures Run(rs, es) && rs[|es|] == InConstruction([], true, Stuck)
    ensures May(rs[|es|], Changed("u", Timer)) && Orphaned(rs[|es|], Changed("u", Timer))
  {
    hide Run, Goes, Plain, Heard;
    StartRun();
    rs, es := [EMPTY], [];
    Appear(AV);
    rs, es := RunOn(rs, es, Available("u", "a", AV), InConstruction([Plain("a", AV)], false, Running(false)));
    Join(AV);
    rs, es := RunOn(rs, es, Subscribing("u"), InConstruction([Heard("a", AV)], false, Running(true)));
    AppearAgain(AV, Heard("a", AV), Running(true));
    rs, es := RunOn(rs, es, Available("u", "b", AV),
      InConstruction([Heard("a", AV), Plain("b", AV)], false, Running(true)));
    Fail([Heard("a", AV), Plain("b", AV)]);
    rs, es := RunOn(rs, es, DeclareFailed("u"), InConstruction([Heard("a", AV), Plain("b", AV)], false, Stuck));
    LoseFirst(AV, Stuck);
    rs, es := RunOn(rs, es, Unavailable("u", "a"), InConstruction([Plain("b", AV)], true, Stuck));
    LoseSecond(AV, Stuck);
    rs, es := RunOn(rs, es, Unavailable("u", "b"), InConstruction([], true, Stuck));
  }

  /** One that is lost on both interfaces while its chain is at work: the timer may come before the finally
      callback. */
  lemma CancelledOrphanExists() returns (rs: seq<Registry>, es: seq<Event>)
    ensures Run(rs, es) && rs[|es|] == InConstruction([], true, Over(true))
    ensures May(rs[|es|], Changed("u", Timer)) && Orphaned(rs[|es|], Changed("u", Timer))
  {
    hide Run, Goes, Plain, Heard;
    StartRun();
    rs, es := [EMPTY], [];
    Appear(AV);
    rs, es := RunOn(rs, es, Available("u", "a", AV), InConstruction([Plain("a", AV)], false, Running(false)));
    AppearAgain(AV, Plain("a", AV), Running(false));
    rs, es := RunOn(rs, es, Available("u", "b", AV),
      InConstruction([Heard("a", AV), Plain("b", AV)], false, Running(false)));
    LoseFirst(AV, Running(false));
    rs, es := RunOn(rs, es, Unavailable("u", "a"), InConstruction([Plain("b", AV)], true, Running(false)));
    LoseSecond(AV, Running(false));
    rs, es := RunOn(rs, es, Unavailable("u", "b"), InConstruction([], true, Over(true)));
  }

  /** One that is lost when its chain has run and the finally callback has not come yet: the chain is cancelled
      though its queue is gone. */
  lemma LateExists() returns (rs: seq<Registry>, es: seq<Event>)
    ensures Run(rs, es) && May(rs[|es|], Unavailable("u", "a")) && Late(rs[|es|], Unavailable("u", "a"))
  {
    hide Run, Goes, Plain;
    StartRun();
    rs, es := [EMPTY], [];
    Appear(AV);
    rs, es := RunOn(rs, es, Available("u", "a", AV), InConstruction([Plain("a", AV)], false, Running(false)));
    Join(AV);
    rs, es := RunOn(rs, es, Subscribing("u"), InConstruction([Heard("a", AV)], false, Running(true)));
    BecomeKnown([Heard("a", AV)]);
    rs, es := RunOn(rs, es, ChainGone("u", false), InConstruction([Heard("a", AV)], false, Over(false)));
  }

  lemma KnownListens(cs: seq<Context>)
    requires cs != [] && cs[0].subscribed != {}
    ensures Listening(Published(cs).known["u"])
  {}

  /** A known device that loses its only subscription for the second time within ten seconds: nothing is
      subscribed to any more and no timer pending. */
  lemma DeafByLossExists() returns (rs: seq<Registry>, es: seq<Event>)
    ensures Run(rs, es) && "u" in rs[|es|].known && Listening(rs[|es|].known["u"])
    ensures Silences(rs[|es|].known["u"], Changed("u", SubscriptionLost("a", AvTransport)))
  {
    hide Run, Goes, Plain;
    var cs := [Heard("a", AV)];
    StartRun();
    rs, es := [EMPTY], [];
    Appear(AV);
    rs, es := RunOn(rs, es, Available("u", "a", AV), InConstruction([Plain("a", AV)], false, Running(false)));
    Join(AV);
    rs, es := RunOn(rs, es, Subscribing("u"), InConstruction(cs, false, Running(true)));
    BecomeKnown(cs);
    rs, es := RunOn(rs, es, ChainGone("u", false), InConstruction(cs, false, Over(false)));
    rs, es := RunOn(rs, es, FinallyRuns("u"), Published(cs));
    LoseOnce();
    rs, es := RunOn(rs, es, Changed("u", SubscriptionLost("a", AvTransport)), Published([Context("a", AV, AV, AV)]));
    KnownListens([Context("a", AV, AV, AV)]);
    Preferences(Context("a", AV, AV, AV), Heard("b", AV));
  }

  lemma LoseOnce()
    ensures Goes(Published([Heard("a", AV)]), Changed("u", SubscriptionLost("a", AvTransport)),
      Published([Context("a", AV, AV, AV)]))
  {
    var cs := [Heard("a", AV)];
    Preferences(cs[0], Heard("b", AV));
    assert cs[0].(expiring := {} + {AvTransport}) == Context("a", AV, AV, AV);
    assert cs[0 := Context("a", AV, AV, AV)] == [Context("a", AV, AV, AV)];
  }

  /** A known device with nothing but rendering control, on two interfaces, that loses the one it is subscribed
      to on: no timer is started. */
  lemma DeafByRemovalExists() returns (rs: seq<Registry>, es: seq<Event>)
    ensures Run(rs, es) && "u" in rs[|es|].known && |rs[|es|].known["u"].contexts| == 2 &&
      Listening(rs[|es|].known["u"])
    ensures Silences(rs[|es|].known["u"], Unavailable("u", "a"))
  {
    hide Run, Goes;
    var cs := [Heard("a", RC), Plain("b", RC)];
    StartRun();
    rs, es := [EMPTY], [];
    Appear(RC);
    rs, es := RunOn(rs, es, Available("u", "a", RC), InConstruction([Plain("a", RC)], false, Running(false)));
    Join(RC);
    rs, es := RunOn(rs, es, Subscribing("u"), InConstruction([Heard("a", RC)], false, Running(true)));
    AppearAgain(RC, Heard("a", RC), Running(true));
    rs, es := RunOn(rs, es, Available("u", "b", RC), InConstruction(cs, false, Running(true)));
    BecomeKnown(cs);
    rs, es := RunOn(rs, es, ChainGone("u", false), InConstruction(cs, false, Over(false)));
    rs, es := RunOn(rs, es, FinallyRuns("u"), Published(cs));
    KnownListens(cs);
    Preferences(cs[0], cs[1]);
  }
}
