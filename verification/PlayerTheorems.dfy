/** A client that applies the signals to its copy of the player properties has what the service has. */
module PlayerTheorems {
  import opened Options
  import opened PlayerModel
  import Decimal
  import Speeds

  // ---------- applying signals ----------

  /** What a client does with a signal: later entries for a property win. */
  function Apply(copy: Props, signal: Signal): Props
    decreases |signal|
  {
    if signal == [] then copy else Apply(copy[signal[0].0 := signal[0].1], signal[1..])
  }

  function ApplyAll(copy: Props, signals: seq<Signal>): Props
    decreases |signals|
  {
    if signals == [] then copy else ApplyAll(Apply(copy, signals[0]), signals[1..])
  }

  lemma {:induction false} ApplyMore(copy: Props, signal: Signal, key: Property, value: Value)
    ensures Apply(copy, signal + [(key, value)]) == Apply(copy, signal)[key := value]
    decreases |signal|
  {
    var more := signal + [(key, value)];
    if signal == [] {
      assert more[1..] == [];
    } else {
      assert more[1..] == signal[1..] + [(key, value)];
      ApplyMore(copy[signal[0].0 := signal[0].1], signal[1..], key, value);
    }
  }

  /** What has been collected takes a client from start to where the properties are. */
  predicate Tracks(start: Props, d: Delta) {
    Apply(start, d.changes) == d.props
  }

  lemma ChangeTracks(start: Props, d: Delta, key: Property, value: Value)
    requires Tracks(start, d)
    ensures Tracks(start, Change(d, key, value))
  {
    ApplyMore(start, d.changes, key, value);
  }

  lemma ChangeOptionTracks(start: Props, d: Delta, key: Property, value: Option<Value>)
    requires Tracks(start, d)
    ensures Tracks(start, ChangeOption(d, key, value))
  {
    if value.Some? { ChangeTracks(start, d, key, value.value); }
  }

  lemma MergeOptionTracks(start: Props, d: Delta, key: string, value: Option<Value>)
    requires Tracks(start, d)
    ensures Tracks(start, MergeOption(d, key, value))
  {
    if value.Some? { ChangeTracks(start, d, Metadata, Dict(Merge(MetadataOf(d.props), key, value.value))); }
  }

  lemma {:induction false} FlagsTrack(start: Props, d: Delta, flags: seq<(Property, bool)>)
    requires Tracks(start, d)
    ensures Tracks(start, Flags(d, flags))
    decreases |flags|
  {
    if flags != [] {
      ChangeTracks(start, d, flags[0].0, Flag(flags[0].1));
      FlagsTrack(start, Change(d, flags[0].0, Flag(flags[0].1)), flags[1..]);
    }
  }

  lemma MetadataTracks(start: Props, d: Delta, e: AvEvent)
    requires Tracks(start, d)
    ensures Tracks(start, OnMetadata(d, e))
  {
    hide Tracks, MergeOption, Length;
    match e.metadata
    case Some(found) =>
      if found.Some? {
        ChangeTracks(start, d, Metadata,
          Dict(Entry("mpris:length", Length(e.duration)) + Entry("xesam:url", Uri(e.uri)) + found.value));
      }
    case None =>
      MergeOptionTracks(start, d, "mpris:length", Length(e.duration));
      MergeOptionTracks(start, MergeOption(d, "mpris:length", Length(e.duration)), "xesam:url", Uri(e.uri));
  }

  lemma TransportTracks(start: Props, d: Delta, e: AvEvent)
    requires Tracks(start, d)
    ensures Tracks(start, OnTransport(d, e))
  {
    hide Tracks, ChangeOption, SpeedOf, StateOf, CountOf;
    var d1 := ChangeOption(d, Rate, SpeedOf(e));
    var d2 := ChangeOption(d1, PlaybackStatus, StateOf(e));
    var d3 := ChangeOption(d2, NumberOfTracks, CountOf(e.tracks));
    ChangeOptionTracks(start, d, Rate, SpeedOf(e));
    ChangeOptionTracks(start, d1, PlaybackStatus, StateOf(e));
    ChangeOptionTracks(start, d2, NumberOfTracks, CountOf(e.tracks));
    ChangeOptionTracks(start, d3, CurrentTrack, CountOf(e.current));
  }

  lemma ActionsTrack(start: Props, d: Delta, e: AvEvent)
    requires Tracks(start, d)
    ensures Tracks(start, OnActions(d, e)) && Tracks(start, AddAllActions(d))
  {
    hide Tracks, Offers, Flags;
    if e.actions.Some? {
      FlagsTrack(start, d, ActionFlags(e.actions.value));
    }
    FlagsTrack(start, d, ALL_ACTIONS);
  }

  lemma AvTracks(p: Player, e: AvEvent)
    ensures OnAv(p, e).1 == [OnAv(p, e).1[0]] && Apply(p.props, OnAv(p, e).1[0]) == OnAv(p, e).0.props
  {
    hide OnMetadata, OnActions, OnTransport, Apply;
    var d := Delta(p.props, []);
    StartTracks(p.props);
    MetadataTracks(p.props, d, e);
    ActionsTrack(p.props, OnMetadata(d, e), e);
    TransportTracks(p.props, OnActions(OnMetadata(d, e), e), e);
  }

  lemma StartTracks(props: Props)
    ensures Tracks(props, Delta(props, []))
  {}

  lemma BoundsTrack(start: Props, d: Delta, allowed: seq<string>)
    requires Tracks(start, d)
    ensures Tracks(start, RateBounds(d, allowed))
  {
    hide Tracks, Change, Speeds.Scan, Speeds.ToDouble, Speeds.Published, Speeds.Usable;
    if allowed != [] {
      var (lo, hi) := Speeds.Scan(allowed[0], allowed[0], allowed);
      var min, max := Speeds.ToDouble(lo), Speeds.ToDouble(hi);
      ChangeTracks(start, d, MinimumRate, Number(min));
      var d1 := if min != 0.0 then Change(d, MinimumRate, Number(min)) else d;
      ChangeTracks(start, d1, MaximumRate, Number(max));
      var d2 := if max != 0.0 then Change(d1, MaximumRate, Number(max)) else d1;
      ChangeTracks(start, d2, TransportPlaySpeeds, Numbers(Speeds.Published(Speeds.Usable(allowed))));
    }
  }

  lemma SyncTracks(p: Player, desc: Description)
    ensures Synced(p, desc).1 == [Synced(p, desc).1[0]] &&
      Apply(p.props, Synced(p, desc).1[0]) == Synced(p, desc).0.props
  {
    hide RateBounds, AddAllActions, Apply;
    var d := Delta(p.props, []);
    StartTracks(p.props);
    BoundsTrack(p.props, d, desc.allowed);
    ActionsTrack(p.props, RateBounds(d, desc.allowed), AvEvent(None, None, None, None, None, None, None, None));
  }

  lemma ApplyOne(copy: Props, signal: Signal)
    ensures ApplyAll(copy, [signal]) == Apply(copy, signal) && ApplyAll(copy, []) == copy
  {}

  lemma ApplyTwo(copy: Props, a: Signal, b: Signal)
    ensures ApplyAll(copy, [a, b]) == Apply(Apply(copy, a), b)
  {
    assert [a, b][1..] == [b];
    ApplyOne(Apply(copy, a), b);
  }

  lemma SyncedOnceTracks(p: Player, desc: Description)
    ensures ApplyAll(p.props, SyncedOnce(p, desc).1) == SyncedOnce(p, desc).0.props
  {
    hide Synced, Apply;
    SyncTracks(p, desc);
    ApplyOne(p.props, Synced(p, desc).1[0]);
  }

  lemma VolumeTracks(p: Player, volume: nat, desc: Description)
    ensures ApplyAll(p.props, OnVolume(p, volume, desc).1) == OnVolume(p, volume, desc).0.props
  {
    hide Synced, Apply, ApplyAll;
    var (p1, signals) := SyncedOnce(p, desc);
    SyncedOnceTracks(p, desc);
    if p1.maxVolume != 0 {
      var v := Number(volume as real / p1.maxVolume as real);
      StartTracks(p1.props);
      ChangeTracks(p1.props, Delta(p1.props, []), Volume, v);
      var signal := Change(Delta(p1.props, []), Volume, v).changes;
      if p.synced {
        ApplyOne(p.props, signal);
        assert [] + [signal] == [signal];
      } else {
        SyncTracks(p, desc);
        ApplyOne(p.props, signals[0]);
        ApplyTwo(p.props, signals[0], signal);
        assert signals + [signal] == [signals[0], signal];
      }
    }
  }

  lemma PositionTracks(p: Player, time: string)
    ensures ApplyAll(p.props, OnPosition(p, time).1) == OnPosition(p, time).0.props
  {
    hide Apply, ApplyAll;
    var d := Delta(p.props, []);
    var v := OnPosition(p, time).0.props[Position];
    StartTracks(p.props);
    ChangeTracks(p.props, d, Position, v);
    ApplyOne(p.props, Change(d, Position, v).changes);
  }

  /** The signals of any event but a client's setting of the rate turn a copy of the old properties into
      one of the new. */
  lemma SignalsCarryChanges(p: Player, e: Event)
    requires Safe(p, e) && !e.RateSet?
    ensures ApplyAll(p.props, Step(p, e).1) == Step(p, e).0.props
  {
    hide OnAv, OnVolume, OnPosition, SyncedOnce, Apply, ApplyAll;
    match e
    case AvChanged(av) => AvTracks(p, av); ApplyOne(p.props, OnAv(p, av).1[0]);
    case VolumeChanged(volume, desc) => VolumeTracks(p, volume, desc);
    case PositionRead(time) => PositionTracks(p, time);
    case PropsRead(desc) => SyncedOnceTracks(p, desc);
  }

  // ---------- copies over whole runs ----------

  /** The copy of a client that has the properties right in state m and follows the signals from there on. */
  function Copy(ps: seq<Player>, es: seq<Event>, m: nat, n: nat): Props
    requires Run(ps, es) && m <= n < |ps|
    decreases n
  {
    if n == m then ps[m].props else ApplyAll(Copy(ps, es, m, n - 1), Step(ps[n - 1], es[n - 1]).1)
  }

  /** Since state m a client has set the rate, and no event with the speed has come after that. */
  predicate Stale(ps: seq<Player>, es: seq<Event>, m: nat, n: nat)
    requires Run(ps, es) && m <= n < |ps|
    decreases n
  {
    n > m && match es[n - 1]
             case RateSet(r) => Accepts(ps[n - 1], r) || Stale(ps, es, m, n - 1)
             case AvChanged(av) => av.speed.None? && Stale(ps, es, m, n - 1)
             case _ => Stale(ps, es, m, n - 1)
  }

  function RateOf(props: Props): Option<Value> {
    if Rate in props then Some(props[Rate]) else None
  }

  /** The rate last signalled since state m, or the one there was then. */
  function Heard(ps: seq<Player>, es: seq<Event>, m: nat, n: nat): Option<Value>
    requires Run(ps, es) && m <= n < |ps|
    decreases n
  {
    if n == m then RateOf(ps[m].props)
    else if es[n - 1].AvChanged? && es[n - 1].av.speed.Some? then Some(Number(MapSpeed(es[n - 1].av.speed.value)))
    else Heard(ps, es, m, n - 1)
  }

  predicate SameAt(a: Props, b: Props, key: Property) {
    (key in a <==> key in b) && (key in a ==> a[key] == b[key])
  }

  ghost predicate SameButRate(a: Props, b: Props) {
    forall key :: key != Rate ==> SameAt(a, b, key)
  }

  predicate Carries(signal: Signal, key: Property) {
    exists n :: 0 <= n < |signal| && signal[n].0 == key
  }

  lemma SameButUpdate(a: Props, b: Props, key: Property, value: Value)
    requires SameButRate(a, b)
    ensures SameButRate(a[key := value], b[key := value])
  {
    var a', b' := a[key := value], b[key := value];
    forall k | k != Rate
      ensures SameAt(a', b', k)
    {
      assert SameAt(a, b, k);
    }
  }

  lemma {:induction false} ApplySame(a: Props, b: Props, signal: Signal)
    requires SameButRate(a, b)
    ensures SameButRate(Apply(a, signal), Apply(b, signal))
    ensures SameAt(a, b, Rate) || Carries(signal, Rate) ==> SameAt(Apply(a, signal), Apply(b, signal), Rate)
    decreases |signal|
  {
    if signal != [] {
      var (key, value) := signal[0];
      SameButUpdate(a, b, key, value);
      ApplySame(a[key := value], b[key := value], signal[1..]);
      if Carries(signal, Rate) && key != Rate {
        var n :| 0 <= n < |signal| && signal[n].0 == Rate;
        assert signal[1..][n - 1].0 == Rate;
      }
    }
  }

  lemma {:induction false} ApplyAllSame(a: Props, b: Props, signals: seq<Signal>)
    requires SameButRate(a, b)
    ensures SameButRate(ApplyAll(a, signals), ApplyAll(b, signals))
    ensures SameAt(a, b, Rate) ==> SameAt(ApplyAll(a, signals), ApplyAll(b, signals), Rate)
    decreases |signals|
  {
    if signals != [] {
      ApplySame(a, b, signals[0]);
      ApplyAllSame(Apply(a, signals[0]), Apply(b, signals[0]), signals[1..]);
    }
  }

  /** A transport event with the speed in it carries the rate. */
  lemma SpeedCarriesRate(p: Player, e: AvEvent)
    requires e.speed.Some?
    ensures Carries(OnAv(p, e).1[0], Rate)
  {
    hide OnMetadata, OnActions, MapSpeed;
    var d := OnActions(OnMetadata(Delta(p.props, []), e), e);
    var signal := OnAv(p, e).1[0];
    assert signal[|d.changes|].0 == Rate;
  }

  /** The rate after a transport event with the speed in it. */
  lemma SpeedIsRate(p: Player, e: AvEvent)
    requires e.speed.Some?
    ensures RateOf(OnAv(p, e).0.props) == Some(Number(MapSpeed(e.speed.value)))
  {
    hide OnMetadata, OnActions, MapSpeed, MapState;
  }

  // ---------- signals without the rate ----------

  lemma ChangeLacks(d: Delta, key: Property, value: Value)
    requires !Carries(d.changes, Rate) && key != Rate
    ensures !Carries(Change(d, key, value).changes, Rate)
  {
    var signal := Change(d, key, value).changes;
    assert forall n :: 0 <= n < |signal| ==> signal[n] == if n < |d.changes| then d.changes[n] else (key, value);
  }

  lemma ChangeOptionLacks(d: Delta, key: Property, value: Option<Value>)
    requires !Carries(d.changes, Rate) && key != Rate
    ensures !Carries(ChangeOption(d, key, value).changes, Rate)
  {
    if value.Some? { ChangeLacks(d, key, value.value); }
  }

  lemma MergeOptionLacks(d: Delta, key: string, value: Option<Value>)
    requires !Carries(d.changes, Rate)
    ensures !Carries(MergeOption(d, key, value).changes, Rate)
  {
    if value.Some? { ChangeLacks(d, Metadata, Dict(Merge(MetadataOf(d.props), key, value.value))); }
  }

  lemma {:induction false} FlagsLack(d: Delta, flags: seq<(Property, bool)>)
    requires !Carries(d.changes, Rate) && forall n :: 0 <= n < |flags| ==> flags[n].0 != Rate
    ensures !Carries(Flags(d, flags).changes, Rate)
    decreases |flags|
  {
    if flags != [] {
      ChangeLacks(d, flags[0].0, Flag(flags[0].1));
      FlagsLack(Change(d, flags[0].0, Flag(flags[0].1)), flags[1..]);
    }
  }

  lemma MetadataLacks(d: Delta, e: AvEvent)
    requires !Carries(d.changes, Rate)
    ensures !Carries(OnMetadata(d, e).changes, Rate)
  {
    hide Carries, MergeOption, Length;
    match e.metadata
    case Some(found) =>
      if found.Some? {
        ChangeLacks(d, Metadata,
          Dict(Entry("mpris:length", Length(e.duration)) + Entry("xesam:url", Uri(e.uri)) + found.value));
      }
    case None =>
      MergeOptionLacks(d, "mpris:length", Length(e.duration));
      MergeOptionLacks(MergeOption(d, "mpris:length", Length(e.duration)), "xesam:url", Uri(e.uri));
  }

  lemma ActionsLack(d: Delta, e: AvEvent)
    requires !Carries(d.changes, Rate)
    ensures !Carries(OnActions(d, e).changes, Rate) && !Carries(AddAllActions(d).changes, Rate)
  {
    hide Carries, Offers, Flags;
    if e.actions.Some? { FlagsLack(d, ActionFlags(e.actions.value)); }
    FlagsLack(d, ALL_ACTIONS);
  }

  lemma TransportLacks(d: Delta, e: AvEvent)
    requires !Carries(d.changes, Rate) && e.speed.None?
    ensures !Carries(OnTransport(d, e).changes, Rate)
  {
    hide Carries, ChangeOption, StateOf, CountOf;
    var d1 := ChangeOption(d, Rate, SpeedOf(e));
    assert d1 == d by { NoChange(d, Rate); }
    var d2 := ChangeOption(d1, PlaybackStatus, StateOf(e));
    var d3 := ChangeOption(d2, NumberOfTracks, CountOf(e.tracks));
    ChangeOptionLacks(d1, PlaybackStatus, StateOf(e));
    ChangeOptionLacks(d2, NumberOfTracks, CountOf(e.tracks));
    ChangeOptionLacks(d3, CurrentTrack, CountOf(e.current));
  }

  lemma NoChange(d: Delta, key: Property)
    ensures ChangeOption(d, key, None) == d
  {}

  lemma BoundsLack(d: Delta, allowed: seq<string>)
    requires !Carries(d.changes, Rate)
    ensures !Carries(RateBounds(d, allowed).changes, Rate)
  {
    hide Carries, Change, Speeds.Scan, Speeds.ToDouble, Speeds.Published, Speeds.Usable;
    if allowed != [] {
      var (lo, hi) := Speeds.Scan(allowed[0], allowed[0], allowed);
      var min, max := Speeds.ToDouble(lo), Speeds.ToDouble(hi);
      ChangeLacks(d, MinimumRate, Number(min));
      var d1 := if min != 0.0 then Change(d, MinimumRate, Number(min)) else d;
      ChangeLacks(d1, MaximumRate, Number(max));
      var d2 := if max != 0.0 then Change(d1, MaximumRate, Number(max)) else d1;
      ChangeLacks(d2, TransportPlaySpeeds, Numbers(Speeds.Published(Speeds.Usable(allowed))));
    }
  }

  lemma AvLacks(p: Player, e: AvEvent)
    requires e.speed.None?
    ensures OnAv(p, e).1 == [OnAv(p, e).1[0]] && !Carries(OnAv(p, e).1[0], Rate)
  {
    hide Carries, OnMetadata, OnActions, OnTransport;
    var d := Delta(p.props, []);
    NothingLacks();
    MetadataLacks(d, e);
    ActionsLack(OnMetadata(d, e), e);
    TransportLacks(OnActions(OnMetadata(d, e), e), e);
  }

  lemma NothingLacks()
    ensures !Carries([], Rate)
  {}

  lemma SyncLacks(p: Player, desc: Description)
    ensures Synced(p, desc).1 == [Synced(p, desc).1[0]] && !Carries(Synced(p, desc).1[0], Rate)
  {
    hide Carries, RateBounds, AddAllActions;
    var d := Delta(p.props, []);
    NothingLacks();
    BoundsLack(d, desc.allowed);
    ActionsLack(RateBounds(d, desc.allowed), AvEvent(None, None, None, None, None, None, None, None));
  }

  lemma {:induction false} ApplyLacking(copy: Props, signal: Signal)
    requires !Carries(signal, Rate)
    ensures RateOf(Apply(copy, signal)) == RateOf(copy)
    decreases |signal|
  {
    if signal != [] {
      assert signal[0].0 != Rate;
      assert forall n :: 0 <= n < |signal| - 1 ==> signal[1..][n] == signal[n + 1];
      ApplyLacking(copy[signal[0].0 := signal[0].1], signal[1..]);
    }
  }

  lemma {:induction false} ApplyAllLacking(copy: Props, signals: seq<Signal>)
    requires forall n :: 0 <= n < |signals| ==> !Carries(signals[n], Rate)
    ensures RateOf(ApplyAll(copy, signals)) == RateOf(copy)
    decreases |signals|
  {
    hide Carries;
    if signals != [] {
      ApplyLacking(copy, signals[0]);
      ApplyAllLacking(Apply(copy, signals[0]), signals[1..]);
    }
  }

  /** Only a transport event with the speed in it sends the rate. */
  lemma OnlySpeedCarriesRate(p: Player, e: Event)
    requires Safe(p, e) && !(e.AvChanged? && e.av.speed.Some?)
    ensures forall n :: 0 <= n < |Step(p, e).1| ==> !Carries(Step(p, e).1[n], Rate)
  {
    hide Carries, OnAv, Synced, SetRate;
    match e
    case AvChanged(av) => AvLacks(p, av);
    case VolumeChanged(volume, desc) =>
      SyncLacks(p, desc);
      NothingLacks();
      var p1 := SyncedOnce(p, desc).0;
      if p1.maxVolume != 0 { ChangeLacks(Delta(p1.props, []), Volume, Number(volume as real / p1.maxVolume as real)); }
    case PositionRead(time) =>
      NothingLacks();
      ChangeLacks(Delta(p.props, []), Position, OnPosition(p, time).0.props[Position]);
    case PropsRead(desc) => SyncLacks(p, desc);
    case RateSet(_) =>
  }

  // ---------- the copy ----------

  /** The properties with another rate, or with none. */
  function WithRate(props: Props, rate: Option<Value>): Props {
    match rate
    case None => props - {Rate}
    case Some(v) => props[Rate := v]
  }

  lemma SameWithRate(a: Props, b: Props)
    requires SameButRate(a, b)
    ensures a == WithRate(b, RateOf(a))
  {
    var c := WithRate(b, RateOf(a));
    forall key
      ensures key in a <==> key in c
      ensures key in a ==> a[key] == c[key]
    {
      assert key != Rate ==> SameAt(a, b, key);
    }
  }

  lemma RateSetSame(p: Player, r: real, copy: Props)
    requires Safe(p, RateSet(r)) && SameButRate(copy, p.props)
    ensures SameButRate(copy, SetRate(p, r).props)
  {
    forall k | k != Rate
      ensures SameAt(copy, SetRate(p, r).props, k)
    {
      assert SameAt(copy, p.props, k);
    }
  }

  /** One event: the copy goes on agreeing with the properties but for the rate, and changes its rate only when
      the speed is signalled. */
  lemma CopyFollows(p: Player, e: Event, copy: Props)
    requires Safe(p, e) && SameButRate(copy, p.props)
    ensures var (p', signals) := Step(p, e);
      && SameButRate(ApplyAll(copy, signals), p'.props)
      && RateOf(ApplyAll(copy, signals)) ==
         if e.AvChanged? && e.av.speed.Some? then Some(Number(MapSpeed(e.av.speed.value))) else RateOf(copy)
  {
    hide OnAv, OnVolume, OnPosition, SyncedOnce, Apply, ApplyAll, SetRate, Carries, MapSpeed;
    var signals := Step(p, e).1;
    if e.AvChanged? && e.av.speed.Some? {
      SpeedFollows(p, e.av, copy);
    } else {
      OnlySpeedCarriesRate(p, e);
      ApplyAllLacking(copy, signals);
      if e.RateSet? {
        RateSetSame(p, e.rate, copy);
        NothingApplied(copy);
      } else {
        SignalsCarryChanges(p, e);
        ApplyAllSame(copy, p.props, signals);
      }
    }
  }

  lemma NothingApplied(copy: Props)
    ensures ApplyAll(copy, []) == copy
  {}

  lemma SpeedFollows(p: Player, e: AvEvent, copy: Props)
    requires e.speed.Some? && SameButRate(copy, p.props)
    ensures SameButRate(ApplyAll(copy, OnAv(p, e).1), OnAv(p, e).0.props)
    ensures RateOf(ApplyAll(copy, OnAv(p, e).1)) == Some(Number(MapSpeed(e.speed.value)))
  {
    hide OnAv, Apply, ApplyAll, Carries, MapSpeed;
    var signals := OnAv(p, e).1;
    AvTracks(p, e);
    SpeedCarriesRate(p, e);
    SpeedIsRate(p, e);
    ApplySame(copy, p.props, signals[0]);
    ApplyOne(copy, signals[0]);
  }

  /** Over any run, from whatever state on a client listens, its copy is the properties with the rate last
      signalled in place of the rate; so it is right exactly while the rate is the one last signalled. */
  lemma {:induction false} CopiesAreKnown(ps: seq<Player>, es: seq<Event>, m: nat, n: nat)
    requires Run(ps, es) && m <= n < |ps|
    ensures Copy(ps, es, m, n) == WithRate(ps[n].props, Heard(ps, es, m, n))
    ensures Copy(ps, es, m, n) == ps[n].props <==> RateOf(ps[n].props) == Heard(ps, es, m, n)
  {
    hide Step, Safe, Run, MapSpeed;
    CopyAgrees(ps, es, m, n);
    SameWithRate(Copy(ps, es, m, n), ps[n].props);
  }

  lemma {:induction false} CopyAgrees(ps: seq<Player>, es: seq<Event>, m: nat, n: nat)
    requires Run(ps, es) && m <= n < |ps|
    ensures SameButRate(Copy(ps, es, m, n), ps[n].props)
    ensures RateOf(Copy(ps, es, m, n)) == Heard(ps, es, m, n)
    decreases n
  {
    hide Step, ApplyAll, Safe, MapSpeed;
    if n > m {
      CopyAgrees(ps, es, m, n - 1);
      CopyFollows(ps[n - 1], es[n - 1], Copy(ps, es, m, n - 1));
      assert ps[(n - 1) + 1] == Step(ps[n - 1], es[n - 1]).0;
    }
  }

  /** In particular it is right unless a client has set the rate and no event with the speed has come since. */
  lemma {:induction false} CopiesAreRight(ps: seq<Player>, es: seq<Event>, m: nat, n: nat)
    requires Run(ps, es) && m <= n < |ps|
    ensures !Stale(ps, es, m, n) ==> Copy(ps, es, m, n) == ps[n].props
    decreases n
  {
    hide Step, ApplyAll, Accepts, Safe, Copy, MapSpeed;
    CopiesAreKnown(ps, es, m, n);
    if n > m && !Stale(ps, es, m, n) {
      CopiesAreRight(ps, es, m, n - 1);
      CopiesAreKnown(ps, es, m, n - 1);
      assert ps[(n - 1) + 1] == Step(ps[n - 1], es[n - 1]).0;
      RateFollows(ps[n - 1], es[n - 1]);
    }
  }

  /** What an event does to the rate. */
  lemma RateFollows(p: Player, e: Event)
    requires Safe(p, e)
    ensures var p' := Step(p, e).0;
      && (e.AvChanged? && e.av.speed.Some? ==> RateOf(p'.props) == Some(Number(MapSpeed(e.av.speed.value))))
      && (!(e.AvChanged? && e.av.speed.Some?) && !(e.RateSet? && Accepts(p, e.rate)) ==>
           RateOf(p'.props) == RateOf(p.props))
  {
    hide OnAv, OnVolume, OnPosition, SyncedOnce, ApplyAll, MapSpeed, Carries, Accepts;
    if e.AvChanged? && e.av.speed.Some? {
      SpeedIsRate(p, e.av);
    } else if !e.RateSet? {
      OnlySpeedCarriesRate(p, e);
      ApplyAllLacking(p.props, Step(p, e).1);
      SignalsCarryChanges(p, e);
    }
  }

  /** The speed that is chosen for a rate. */
  function Chosen(p: Player, r: real): real
    requires Accepts(p, r)
  {
    Offered(p).value[Speeds.Choose(Offered(p).value, r)]
  }

  /** Setting the rate leaves a copy that was right right exactly if it is refused or changes nothing. */
  lemma RateSetIsUnheard(p: Player, r: real)
    requires Safe(p, RateSet(r))
    ensures ApplyAll(p.props, Step(p, RateSet(r)).1) == Step(p, RateSet(r)).0.props
      <==> (Accepts(p, r) ==> RateOf(p.props) == Some(Number(Chosen(p, r))))
  {
    if Accepts(p, r) {
      var p' := SetRate(p, r);
      assert RateOf(p'.props) == Some(Number(Chosen(p, r)));
      if RateOf(p.props) == Some(Number(Chosen(p, r))) {
        assert p'.props == p.props;
      }
    }
  }

  // ---------- metadata ----------

  /** The value a reader of the dictionary gets for a key: the last one. */
  function Lookup(entries: seq<(string, Value)>, key: string): Option<Value> {
    if entries == [] then None
    else if entries[|entries|-1].0 == key then Some(entries[|entries|-1].1)
    else Lookup(entries[..|entries|-1], key)
  }

  lemma {:induction false} LookupMerged(entries: seq<(string, Value)>, key: string, value: Value, k: string)
    ensures Lookup(Merged(entries, key, value), k) ==
      if k == key && HasKey(entries, key) then Some(value) else Lookup(entries, k)
  {
    if entries != [] {
      var init := entries[..|entries|-1];
      LookupMerged(init, key, value, k);
      assert Merged(entries, key, value)[..|entries|-1] == Merged(init, key, value);
      if HasKey(entries, key) && entries[|entries|-1].0 != key {
        var n :| 0 <= n < |entries| && entries[n].0 == key;
        assert init[n].0 == key;
      }
      assert HasKey(init, key) ==> HasKey(entries, key) by {
        if HasKey(init, key) {
          var n :| 0 <= n < |init| && init[n].0 == key;
          assert entries[n].0 == key;
        }
      }
    } else {
      assert Merged(entries, key, value) == [];
    }
  }

  /** Merging a value into the metadata sets its key and leaves every other as it was. */
  lemma MergeSetsOneKey(entries: seq<(string, Value)>, key: string, value: Value, k: string)
    ensures Lookup(Merge(entries, key, value), k) == if k == key then Some(value) else Lookup(entries, k)
  {
    if HasKey(entries, key) {
      LookupMerged(entries, key, value, k);
    } else {
      assert (entries + [(key, value)])[..|entries|] == entries;
    }
  }

  // ---------- what an event touches ----------

  /** The properties a transport event may change. */
  function Touched(e: AvEvent): set<Property> {
    (if e.metadata.Some? || e.duration.Some? || e.uri.Some? then {Metadata} else {})
    + (if e.actions.Some? then {CanControl, CanPlay, CanPause, CanSeek, CanGoNext, CanGoPrevious} else {})
    + (if e.speed.Some? then {Rate} else {}) + (if e.state.Some? then {PlaybackStatus} else {})
    + (if e.tracks.Some? then {NumberOfTracks} else {}) + (if e.current.Some? then {CurrentTrack} else {})
  }

  lemma {:induction false} FlagsSpare(d: Delta, flags: seq<(Property, bool)>, key: Property)
    requires forall n :: 0 <= n < |flags| ==> flags[n].0 != key
    ensures SameAt(Flags(d, flags).props, d.props, key)
    decreases |flags|
  {
    if flags != [] {
      FlagsSpare(Change(d, flags[0].0, Flag(flags[0].1)), flags[1..], key);
    }
  }

  lemma ActionsSpare(d: Delta, e: AvEvent, key: Property)
    requires key !in Touched(e)
    ensures SameAt(OnActions(d, e).props, d.props, key)
  {
    hide Offers, Flags;
    if e.actions.Some? {
      FlagsSpare(d, ActionFlags(e.actions.value), key);
    }
  }

  lemma MetadataSpares(d: Delta, e: AvEvent, key: Property)
    requires key !in Touched(e)
    ensures SameAt(OnMetadata(d, e).props, d.props, key)
  {
    hide Merge;
  }

  lemma TransportSpares(d: Delta, e: AvEvent, key: Property)
    requires key !in Touched(e)
    ensures SameAt(OnTransport(d, e).props, d.props, key)
  {
    hide MapSpeed, MapState;
  }

  /** A transport event leaves every property alone that it says nothing about. */
  lemma EventsTouchTheirOwn(p: Player, e: AvEvent, key: Property)
    requires key !in Touched(e)
    ensures SameAt(OnAv(p, e).0.props, p.props, key)
  {
    hide OnMetadata, OnActions, OnTransport, Touched;
    var d := Delta(p.props, []);
    MetadataSpares(d, e, key);
    ActionsSpare(OnMetadata(d, e), e, key);
    TransportSpares(OnActions(OnMetadata(d, e), e), e, key);
  }

  // ---------- setting the rate ----------

  /** The published speeds are those stored, in the same order, and all of them are fractions. */
  ghost predicate Aligned(p: Player) {
    && (TransportPlaySpeeds in p.props ==> p.props[TransportPlaySpeeds] == Numbers(Speeds.Published(p.speeds)))
    && (forall s :: s in p.speeds ==> Speeds.Valid(s))
  }

  lemma AllActionsSpare(d: Delta)
    ensures SameAt(AddAllActions(d).props, d.props, TransportPlaySpeeds)
  {
    hide Flags;
    FlagsSpare(d, ALL_ACTIONS, TransportPlaySpeeds);
  }

  lemma SyncAligned(p: Player, desc: Description)
    requires Aligned(p)
    ensures Aligned(Synced(p, desc).0)
  {
    hide AddAllActions, Speeds.Published, Speeds.Scan, Speeds.ToDouble, Speeds.Valid;
    AllActionsSpare(RateBounds(Delta(p.props, []), desc.allowed));
  }

  lemma StepAligned(p: Player, e: Event)
    requires Aligned(p)
    ensures Safe(p, e) && Aligned(Step(p, e).0)
  {
    hide Synced, OnAv, Speeds.Valid;
    SafeWhenAligned(p, e);
    match e
    case AvChanged(av) => EventsTouchTheirOwn(p, av, TransportPlaySpeeds); AvKeepsSpeeds(p, av);
    case VolumeChanged(_, desc) => SyncAligned(p, desc);
    case PositionRead(_) =>
    case PropsRead(desc) => SyncAligned(p, desc);
    case RateSet(_) =>
  }

  lemma SafeWhenAligned(p: Player, e: Event)
    requires Aligned(p)
    ensures Safe(p, e)
    ensures Offered(p).Some? ==> Offered(p).value == Speeds.Published(p.speeds)
  {}

  lemma AvKeepsSpeeds(p: Player, av: AvEvent)
    ensures OnAv(p, av).0.speeds == p.speeds
  {}

  lemma {:induction false} RunAligned(ps: seq<Player>, es: seq<Event>, n: nat)
    requires Run(ps, es) && n < |ps|
    ensures Aligned(ps[n])
    decreases n
  {
    hide Aligned, Step, Safe;
    if n == 0 {
      NewAligned();
    } else {
      RunAligned(ps, es, n - 1);
      StepAligned(ps[n - 1], es[n - 1]);
    }
  }

  lemma NewAligned()
    ensures Aligned(NEW_PLAYER)
  {}

  /** In any state that can be reached, setting the rate is safe; it is accepted exactly if a published speed
      is within 0.01 of it; the rate shown is then the first such speed, and the UPnP speed chosen is within
      0.015 of what was asked for. */
  lemma RateIsHonoured(ps: seq<Player>, es: seq<Event>, n: nat, r: real)
    requires Run(ps, es) && n < |ps|
    ensures
      var p := ps[n];
      && Safe(p, RateSet(r))
      && (Accepts(p, r) <==> Offered(p).Some? && exists x :: x in Offered(p).value && Speeds.Near(r, x))
      && var p' := Step(p, RateSet(r)).0;
         if Accepts(p, r) then
           && Rate in p'.props && p'.props[Rate].Number? && Speeds.Near(r, p'.props[Rate].number)
           && Speeds.Valid(p'.rate) && -0.015 <= r - Speeds.Value(p'.rate) <= 0.015
         else p' == p
  {
    hide Run, Speeds.Valid, Speeds.Value, Speeds.ToDouble;
    RunAligned(ps, es, n);
    var p := ps[n];
    SafeWhenAligned(p, RateSet(r));
    if Offered(p).Some? {
      var tps := Offered(p).value;
      var i := Speeds.Choose(tps, r);
      if i < |tps| {
        assert tps[i] in tps && p.speeds[i] in p.speeds;
        Speeds.ChosenIsClose(p.speeds, r);
      }
    }
  }

  lemma ActionsSpareBounds(d: Delta, key: Property)
    requires key == MinimumRate || key == MaximumRate || key == TransportPlaySpeeds
    ensures SameAt(AddAllActions(d).props, d.props, key)
  {
    hide Flags;
    FlagsSpare(d, ALL_ACTIONS, key);
  }

  // ---------- the range of rates ----------

  /** The description the device was synchronised with, if it was. */
  function SyncOf(ps: seq<Player>, es: seq<Event>, n: nat): Option<Description>
    requires Run(ps, es) && n < |ps|
  {
    if n == 0 then None
    else if SyncOf(ps, es, n - 1).Some? then SyncOf(ps, es, n - 1)
    else match es[n - 1]
         case VolumeChanged(_, desc) => Some(desc)
         case PropsRead(desc) => Some(desc)
         case _ => None
  }

  /** What synchronising sets: the bounds and the speeds. */
  function BoundProps(desc: Option<Description>): Props {
    match desc
    case None => map[]
    case Some(d) => RateBounds(Delta(map[], []), d.allowed).props
  }

  predicate IsBound(key: Property) {
    key == MinimumRate || key == MaximumRate || key == TransportPlaySpeeds
  }

  ghost predicate BoundsAre(p: Player, desc: Option<Description>) {
    (p.synced <==> desc.Some?) && forall key :: IsBound(key) ==> SameAt(p.props, BoundProps(desc), key)
  }

  lemma SyncBounds(p: Player, desc: Description)
    requires BoundsAre(p, None)
    ensures BoundsAre(Synced(p, desc).0, Some(desc))
  {
    hide AddAllActions, Speeds.Scan, Speeds.ToDouble, Speeds.Published, Speeds.Usable;
    var p' := Synced(p, desc).0;
    forall key | IsBound(key)
      ensures SameAt(p'.props, BoundProps(Some(desc)), key)
    {
      assert SameAt(p.props, BoundProps(None), key);
      ActionsSpareBounds(RateBounds(Delta(p.props, []), desc.allowed), key);
    }
  }

  lemma OthersBounds(p: Player, p': Player, desc: Option<Description>)
    requires BoundsAre(p, desc) && p'.synced == p.synced && forall key :: IsBound(key) ==>
      SameAt(p'.props, p.props, key)
    ensures BoundsAre(p', desc)
  {
    forall key | IsBound(key)
      ensures SameAt(p'.props, BoundProps(desc), key)
    {
      assert SameAt(p.props, BoundProps(desc), key) && SameAt(p'.props, p.props, key);
    }
  }

  lemma SyncedOnceBounds(p: Player, d: Description, desc: Option<Description>)
    requires BoundsAre(p, desc)
    ensures BoundsAre(SyncedOnce(p, d).0, if desc.Some? then desc else Some(d))
  {
    hide BoundsAre, Synced;
    SyncedMeans(p, desc);
    if !p.synced { SyncBounds(p, d); }
  }

  lemma SyncedMeans(p: Player, desc: Option<Description>)
    requires BoundsAre(p, desc)
    ensures p.synced <==> desc.Some?
  {}

  lemma StepBounds(p: Player, e: Event, desc: Option<Description>)
    requires Safe(p, e) && BoundsAre(p, desc)
    ensures BoundsAre(Step(p, e).0,
      if desc.Some? then desc else if e.VolumeChanged? || e.PropsRead? then Some(e.desc) else None)
  {
    hide BoundsAre, OnAv, SyncedOnce, SetRate, Safe;
    match e
    case AvChanged(av) => AvSpares(p, av); OthersBounds(p, OnAv(p, av).0, desc);
    case VolumeChanged(volume, d) =>
      SyncedOnceBounds(p, d, desc);
      var p1 := SyncedOnce(p, d).0;
      OthersBounds(p1, OnVolume(p, volume, d).0, if desc.Some? then desc else Some(d));
    case PositionRead(time) => OthersBounds(p, OnPosition(p, time).0, desc);
    case PropsRead(d) => SyncedOnceBounds(p, d, desc);
    case RateSet(r) => SetRateSpares(p, r); OthersBounds(p, SetRate(p, r), desc);
  }

  lemma SetRateSpares(p: Player, r: real)
    requires Safe(p, RateSet(r))
    ensures SetRate(p, r).synced == p.synced && forall key :: IsBound(key) ==> SameAt(SetRate(p, r).props, p.props, key)
  {}

  lemma AvSpares(p: Player, av: AvEvent)
    ensures OnAv(p, av).0.synced == p.synced
    ensures forall key :: IsBound(key) ==> SameAt(OnAv(p, av).0.props, p.props, key)
  {
    hide OnMetadata, OnActions, OnTransport, SameAt;
    forall key | IsBound(key)
      ensures SameAt(OnAv(p, av).0.props, p.props, key)
    {
      EventsTouchTheirOwn(p, av, key);
    }
  }

  lemma {:induction false} RunBounds(ps: seq<Player>, es: seq<Event>, n: nat)
    requires Run(ps, es) && n < |ps|
    ensures BoundsAre(ps[n], SyncOf(ps, es, n))
    decreases n
  {
    hide BoundsAre, Step, Safe;
    if n == 0 {
      NewBounds();
    } else {
      RunBounds(ps, es, n - 1);
      StepBounds(ps[n - 1], es[n - 1], SyncOf(ps, es, n - 1));
    }
  }

  lemma NewBounds()
    ensures BoundsAre(NEW_PLAYER, None)
  {}

  /** In every state after synchronising, whatever has come since, the published bounds enclose every published
      speed, for a list on which the search is right and whose bounds do not round to zero. */
  lemma BoundsArePublished(ps: seq<Player>, es: seq<Event>, n: nat)
    requires Run(ps, es) && n < |ps| && ps[n].synced
    ensures SyncOf(ps, es, n).Some?
    ensures
      var p, allowed := ps[n], SyncOf(ps, es, n).value.allowed;
      allowed != [] && Speeds.Tame(allowed) ==>
        var (lo, hi) := Speeds.Scan(allowed[0], allowed[0], allowed);
        && Offered(p) == Some(Speeds.Published(Speeds.Usable(allowed)))
        && (Speeds.IsLeast(lo, allowed) && Speeds.ToDouble(lo) != 0.0 ==>
              MinimumRate in p.props && p.props[MinimumRate].Number?
              && p.props[MinimumRate].number in Offered(p).value
              && forall x :: x in Offered(p).value ==> p.props[MinimumRate].number <= x)
        && (Speeds.IsGreatest(hi, allowed) && Speeds.ToDouble(hi) != 0.0 ==>
              MaximumRate in p.props && p.props[MaximumRate].Number?
              && p.props[MaximumRate].number in Offered(p).value
              && forall x :: x in Offered(p).value ==> x <= p.props[MaximumRate].number)
  {
    hide Run, Step, Safe, Speeds.Scan, Speeds.ToDouble, Speeds.IsLeast, Speeds.IsGreatest, Speeds.Tame,
      Speeds.Published, Speeds.Usable;
    RunBounds(ps, es, n);
    var p, allowed := ps[n], SyncOf(ps, es, n).value.allowed;
    if allowed != [] && Speeds.Tame(allowed) {
      var bounds := BoundProps(SyncOf(ps, es, n));
      assert SameAt(p.props, bounds, MinimumRate) && SameAt(p.props, bounds, MaximumRate);
      assert SameAt(p.props, bounds, TransportPlaySpeeds);
      SpeedsBetween(allowed);
    }
  }

  lemma BoundIsPublished(s: string, allowed: seq<string>)
    ensures Speeds.IsLeast(s, allowed) || Speeds.IsGreatest(s, allowed) ==>
      Speeds.ToDouble(s) in Speeds.Published(Speeds.Usable(allowed))
  {
    hide Speeds.ToDouble, Speeds.NotAbove;
    if s in Speeds.Usable(allowed) {
      var n :| 0 <= n < |Speeds.Usable(allowed)| && Speeds.Usable(allowed)[n] == s;
      assert Speeds.Published(Speeds.Usable(allowed))[n] == Speeds.ToDouble(s);
    }
  }

  lemma SpeedsBetween(allowed: seq<string>)
    requires allowed != [] && Speeds.Tame(allowed)
    ensures var (lo, hi) := Speeds.Scan(allowed[0], allowed[0], allowed);
      && (Speeds.IsLeast(lo, allowed) ==> Speeds.ToDouble(lo) in Speeds.Published(Speeds.Usable(allowed)))
      && (Speeds.IsGreatest(hi, allowed) ==> Speeds.ToDouble(hi) in Speeds.Published(Speeds.Usable(allowed)))
      && forall x :: x in Speeds.Published(Speeds.Usable(allowed)) ==>
           && (Speeds.IsLeast(lo, allowed) ==> Speeds.ToDouble(lo) <= x)
           && (Speeds.IsGreatest(hi, allowed) ==> x <= Speeds.ToDouble(hi))
  {
    hide Speeds.Scan, Speeds.ToDouble, Speeds.IsLeast, Speeds.IsGreatest, Speeds.Tame, Speeds.Published, Speeds.Usable;
    var xs := Speeds.Published(Speeds.Usable(allowed));
    var (least, greatest) := Speeds.Scan(allowed[0], allowed[0], allowed);
    BoundIsPublished(least, allowed);
    BoundIsPublished(greatest, allowed);
    forall x | x in xs
      ensures var (lo, hi) := Speeds.Scan(allowed[0], allowed[0], allowed);
        && (Speeds.IsLeast(lo, allowed) ==> Speeds.ToDouble(lo) <= x)
        && (Speeds.IsGreatest(hi, allowed) ==> x <= Speeds.ToDouble(hi))
    {
      var n: nat :| n < |xs| && xs[n] == x;
      Speeds.PublishedInRange(allowed, n);
    }
  }

  // ---------- a copy that is wrong ----------

  /** A device that offers the speed 1 alone, synchronised; a client then sets the rate to 1, which no signal has
      mentioned, and the copy of another is wrong. */
  lemma WrongCopyExists() returns (ps: seq<Player>, es: seq<Event>)
    ensures Run(ps, es) && Copy(ps, es, 0, |es|) != ps[|es|].props
  {
    hide Speeds.Published, Speeds.Usable, Speeds.Choose, AddAllActions, Speeds.Scan, Speeds.ToDouble;
    var desc := OneSpeed();
    var p1 := Synced(NEW_PLAYER, desc).0;
    var e1, e2 := PropsRead(desc), RateSet(1.0);
    OneSpeedOffered(desc);
    SyncLacks(NEW_PLAYER, desc);
    RateFollows(NEW_PLAYER, e1);
    StepAligned(NEW_PLAYER, e1);
    NewAligned();
    SafeWhenAligned(p1, e2);
    ps, es := [NEW_PLAYER, p1, SetRate(p1, 1.0)], [e1, e2];
    assert Run(ps, es);
    CopiesAreKnown(ps, es, 0, 2);
    assert Heard(ps, es, 0, 0) == None && Heard(ps, es, 0, 1) == None && Heard(ps, es, 0, 2) == None;
  }

  function OneSpeed(): Description {
    Description([Decimal.Digits(1)], None)
  }

  lemma OneSpeedOffered(desc: Description)
    requires desc == OneSpeed()
    ensures Accepts(Synced(NEW_PLAYER, desc).0, 1.0)
  {
    hide Decimal.Digits, Speeds.Numerator, Speeds.Denominator, AddAllActions, Speeds.Scan;
    Speeds.WholeNumber(1);
    ActionsSpareBounds(RateBounds(Delta(map[], []), desc.allowed), TransportPlaySpeeds);
    var one := Decimal.Digits(1);
    assert Speeds.Usable([one]) == [one];
    assert Speeds.ToDouble(one) == 1.0;
    assert Speeds.Published([one]) == [1.0];
  }
}
