/** The player properties changed in place, and the signals sent about them. */
module PlayerProps {
  import opened Options
  import opened PlayerModel
  import Duration
  import Speeds
  import Text

  class PlayerObject {
    var props: Props
    var synced: bool
    var maxVolume: nat
    var speeds: seq<string>
    var rate: string
    // The PropertiesChanged signals sent so far.
    var emitted: seq<Signal>

    ghost function View(): Player
      reads this
    {
      Player(props, synced, maxVolume, speeds, rate)
    }

    constructor ()
      ensures View() == NEW_PLAYER && emitted == []
    {
      props, synced, maxVolume, speeds, rate, emitted := map[], false, 0, [], "1", [];
    }

    /** prv_change_props; `vb` collects the changes for the signal. */
    method ChangeProps(key: Property, value: Value, vb: Signal) returns (vb': Signal)
      modifies this`props
      ensures Delta(props, vb') == Change(Delta(old(props), vb), key, value)
    {
      props := props[key := value];
      vb' := vb + [(key, value)];
    }

    /** prv_merge_meta_data. */
    method MergeMetaData(key: string, value: Value, vb: Signal) returns (vb': Signal)
      modifies this`props
      ensures Delta(props, vb') == MergeMetadata(Delta(old(props), vb), key, value)
    {
      var current := MetadataOf(props);
      var entries: seq<(string, Value)> := [];
      var replaced := false;
      var n := 0;
      while n < |current|
        invariant 0 <= n <= |current| == |Merged(current, key, value)|
        invariant entries == Merged(current, key, value)[..n]
        invariant replaced <==> exists m :: 0 <= m < n && current[m].0 == key
      {
        if current[n].0 == key {
          entries := entries + [(key, value)];
          replaced := true;
        } else {
          entries := entries + [current[n]];
        }
        n := n + 1;
      }
      assert replaced <==> HasKey(current, key);
      assert entries == Merged(current, key, value);
      if !replaced {
        assert entries == current;
        entries := entries + [(key, value)];
      }
      vb' := ChangeProps(Metadata, Dict(entries), vb);
    }

    /** prv_add_track_meta_data; `found`: what the parser finds, none if it fails. */
    method AddTrackMetaData(found: Found, duration: Option<string>, uri: Option<string>, vb: Signal)
        returns (vb': Signal)
      modifies this`props
      ensures Delta(props, vb') == ReplaceMetadata(Delta(old(props), vb), found, duration, uri)
    {
      var entries: seq<(string, Value)> := [];
      if duration.Some? {
        var length := Duration.DurationToInt64(duration.value);
        entries := entries + [("mpris:length", Int64(length))];
      }
      assert entries == Entry("mpris:length", Length(duration));
      if uri.Some? {
        entries := entries + [("xesam:url", Str(uri.value))];
      }
      assert entries == Entry("mpris:length", Length(duration)) + Entry("xesam:url", Uri(uri));
      vb' := vb;
      if found.Some? {
        vb' := ChangeProps(Metadata, Dict(entries + found.value), vb);
      }
    }

    /** prv_add_actions. */
    method AddActions(actions: string, vb: Signal) returns (vb': Signal)
      modifies this`props
      ensures Delta(props, vb') == PlayerModel.AddActions(Delta(old(props), vb), actions)
    {
      hide Text.Split, Text.Strip, Flags;
      var play, pause, seek, next, previous := ReadActions(actions);
      vb' := SetFlags([(CanControl, false), (CanPlay, play), (CanPause, pause), (CanSeek, seek), (CanGoNext, next),
                       (CanGoPrevious, previous)], vb);
    }

    /** The one prv_change_props after another of a row of flags. */
    method SetFlags(flags: seq<(Property, bool)>, vb: Signal) returns (vb': Signal)
      modifies this`props
      ensures Delta(props, vb') == Flags(Delta(old(props), vb), flags)
    {
      hide Change;
      vb' := vb;
      var n := 0;
      while n < |flags|
        invariant 0 <= n <= |flags|
        invariant Flags(Delta(props, vb'), flags[n..]) == Flags(Delta(old(props), vb), flags)
      {
        assert flags[n..][0] == flags[n] && flags[n..][1..] == flags[n + 1..];
        vb' := ChangeProps(flags[n].0, Flag(flags[n].1), vb');
        n := n + 1;
      }
    }

    /** The first half of prv_last_change_cb: the metadata. */
    method ChangeMetadata(e: AvEvent, vb: Signal) returns (vb': Signal)
      modifies this`props
      ensures Delta(props, vb') == OnMetadata(Delta(old(props), vb), e)
    {
      hide MergeMetadata, ReplaceMetadata;
      vb' := vb;
      if e.metadata.Some? {
        vb' := AddTrackMetaData(e.metadata.value, e.duration, e.uri, vb');
      } else {
        if e.duration.Some? {
          var length := Duration.DurationToInt64(e.duration.value);
          vb' := MergeMetaData("mpris:length", Int64(length), vb');
        }
        if e.uri.Some? {
          vb' := MergeMetaData("xesam:url", Str(e.uri.value), vb');
        }
      }
    }

    /** prv_last_change_cb. */
    method LastChange(e: AvEvent)
      modifies this
      ensures View() == OnAv(old(View()), e).0 && emitted == old(emitted) + OnAv(old(View()), e).1
    {
      hide OnMetadata, PlayerModel.AddActions, Change, MapSpeed, MapState;
      var vb := ChangeMetadata(e, []);
      if e.actions.Some? {
        vb := AddActions(e.actions.value, vb);
      }
      if e.speed.Some? {
        vb := ChangeProps(Rate, Number(MapSpeed(e.speed.value)), vb);
        rate := e.speed.value;
      }
      if e.state.Some? {
        vb := ChangeProps(PlaybackStatus, Str(MapState(e.state.value)), vb);
      }
      if e.tracks.Some? {
        vb := ChangeProps(NumberOfTracks, Count(e.tracks.value), vb);
      }
      if e.current.Some? {
        vb := ChangeProps(CurrentTrack, Count(e.current.value), vb);
      }
      emitted := emitted + [vb];
    }

    /** prv_props_update. */
    method PropsUpdate(desc: Description)
      modifies this
      ensures View() == Synced(old(View()), desc).0 && emitted == old(emitted) + Synced(old(View()), desc).1
    {
      hide Change, Flags, Speeds.Scan, Speeds.ToDouble, Speeds.Usable, Speeds.Published;
      var vb: Signal := [];
      if desc.allowed != [] {
        var mpris, upnp, lo, hi := Speeds.GetRatesValues(desc.allowed);
        speeds := upnp;
        if Speeds.ToDouble(lo) != 0.0 {
          vb := ChangeProps(MinimumRate, Number(Speeds.ToDouble(lo)), vb);
        }
        if Speeds.ToDouble(hi) != 0.0 {
          vb := ChangeProps(MaximumRate, Number(Speeds.ToDouble(hi)), vb);
        }
        vb := ChangeProps(TransportPlaySpeeds, Numbers(mpris), vb);
      }
      if desc.maxVolume.Some? {
        maxVolume := desc.maxVolume.value;
      }
      vb := SetFlags(ALL_ACTIONS, vb);
      synced := true;
      emitted := emitted + [vb];
    }

    /** prv_rc_last_change_cb. */
    method RcLastChange(volume: nat, desc: Description)
      modifies this
      ensures View() == OnVolume(old(View()), volume, desc).0 &&
        emitted == old(emitted) + OnVolume(old(View()), volume, desc).1
    {
      hide Synced;
      if !synced {
        PropsUpdate(desc);
      }
      if maxVolume == 0 {
        return;
      }
      var vb := ChangeProps(Volume, Number(volume as real / maxVolume as real), []);
      emitted := emitted + [vb];
    }

    /** prv_get_position_info_cb. */
    method PositionInfo(time: string)
      modifies this
      ensures View() == OnPosition(old(View()), time).0 && emitted == old(emitted) + OnPosition(old(View()), time).1
    {
      var pos := Duration.DurationToInt64(Text.Strip(time));
      var vb := ChangeProps(Position, Int64(pos), []);
      emitted := emitted + [vb];
    }

    /** prv_set_rate. */
    method SetRate(r: real) returns (ok: bool)
      requires Safe(View(), RateSet(r))
      modifies this
      ensures View() == PlayerModel.SetRate(old(View()), r) && emitted == old(emitted)
      ensures ok <==> Accepts(old(View()), r)
    {
      if TransportPlaySpeeds !in props || !props[TransportPlaySpeeds].Numbers? {
        return false;
      }
      var tps := props[TransportPlaySpeeds].numbers;
      var i := Speeds.FindSpeed(tps, r);
      if i == |tps| {
        return false;
      }
      rate := speeds[i];
      props := props[Rate := Number(tps[i])];
      ok := true;
    }
  }

  predicate OffersIn(parts: seq<string>, action: string) {
    exists n :: 0 <= n < |parts| && Text.Strip(parts[n]) == action
  }

  /** The loop of prv_add_actions over the actions a device offers. */
  method ReadActions(actions: string) returns (play: bool, pause: bool, seek: bool, next: bool, previous: bool)
    ensures play == Offers(actions, "Play") && pause == Offers(actions, "Pause") && seek == Offers(actions, "Seek")
    ensures next == Offers(actions, "Next") && previous == Offers(actions, "Previous")
  {
    hide Text.Split, Text.Strip;
    play, pause, seek, next, previous := false, false, false, false, false;
    var parts := Text.Split(actions, ',');
    var n := 0;
    while n < |parts|
      invariant 0 <= n <= |parts|
      invariant play == OffersIn(parts[..n], "Play") && pause == OffersIn(parts[..n], "Pause") &&
        seek == OffersIn(parts[..n], "Seek")
      invariant next == OffersIn(parts[..n], "Next") && previous == OffersIn(parts[..n], "Previous")
    {
      var action := Text.Strip(parts[n]);
      MoreOffers(parts, n);
      DifferentNames();
      if action == "Play" {
        play := true;
      } else if action == "Pause" {
        pause := true;
      } else if action == "Seek" {
        seek := true;
      } else if action == "Next" {
        next := true;
      } else if action == "Previous" {
        previous := true;
      }
      n := n + 1;
    }
    assert parts[..n] == parts;
  }

  lemma MoreOffers(parts: seq<string>, n: nat)
    requires n < |parts|
    ensures forall action :: OffersIn(parts[..n + 1], action) <==>
      OffersIn(parts[..n], action) || Text.Strip(parts[n]) == action
  {
    hide Text.Strip;
    forall action
      ensures OffersIn(parts[..n + 1], action) <==> OffersIn(parts[..n], action) || Text.Strip(parts[n]) == action
    {
      if OffersIn(parts[..n], action) {
        var m :| 0 <= m < n && Text.Strip(parts[..n][m]) == action;
        assert parts[..n + 1][m] == parts[m];
      }
      assert parts[..n + 1][n] == parts[n];
    }
  }

  lemma DifferentNames()
    ensures "Play"[0] == 'P' && "Seek"[0] == 'S' && "Next"[0] == 'N'
  {}
}
