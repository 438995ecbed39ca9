/**
 What the player properties come to mean: the value of every property after every event, read off the texts and
 numbers that the device sent.
 */
module PlayerEffects {
  import opened Options
  import opened PlayerModel
  import opened PlayerTheorems
  import Decimal
  import Duration
  import Speeds
  import Text

  // ---------- speeds ----------

  /** A whole number with or without a sign, and what it stands for. */
  datatype Sign = Bare | Plus | Minus

  function Numeral(sign: Sign, digits: string): string {
    match sign
    case Bare => digits
    case Plus => "+" + digits
    case Minus => "-" + digits
  }

  function Whole(sign: Sign, digits: string): int
    requires Decimal.AllDigits(digits)
  {
    if sign.Minus? then 0 - Decimal.Number(digits) else Decimal.Number(digits)
  }

  predicate Fits(digits: string) {
    Decimal.AllDigits(digits) && digits != [] && Decimal.Number(digits) < 0x8000_0000
  }

  lemma NumeralIsRead(sign: Sign, digits: string, rest: string)
    requires Fits(digits) && (rest == [] || !Decimal.IsDigit(rest[0]))
    ensures Text.Strtol(Numeral(sign, digits) + rest) == Whole(sign, digits)
    ensures Atoi(Text.Strip(Numeral(sign, digits))) == Whole(sign, digits)
  {
    hide Text.Strtol, Text.Strip, Decimal.Number;
    NumeralIsSolid(sign, digits);
    assert Numeral(sign, digits) + "" == Numeral(sign, digits);
    match sign {
      case Bare => Text.StrtolOfText(digits, rest); Text.StrtolOfText(digits, "");
      case Plus => Text.StrtolOfPlus(digits, rest); Text.StrtolOfPlus(digits, "");
      case Minus => Text.StrtolOfMinus(digits, rest); Text.StrtolOfMinus(digits, "");
    }
    Small(Whole(sign, digits));
  }

  lemma Small(n: int)
    requires -0x8000_0000 < n < 0x8000_0000
    ensures Speeds.ToInt(n) == n && Text.Clamp(n) == n
  {}

  lemma NumeralIsSolid(sign: Sign, digits: string)
    requires Decimal.AllDigits(digits) && digits != []
    ensures Text.Strip(Numeral(sign, digits)) == Numeral(sign, digits)
  {
    hide Text.Strip;
    Text.DigitsAreNoSpace(digits);
    Text.StripNothing(Numeral(sign, digits));
  }

  lemma NoSlash(sign: Sign, digits: string)
    requires Decimal.AllDigits(digits)
    ensures '/' !in Numeral(sign, digits)
  {}

  /** A speed that is a whole number or a fraction of two is shown as its value, which is the value that allowed
      speeds are compared by; a fraction over zero is shown as one, and so is text with more slashes and no text. */
  lemma SpeedsAreRead(m: Sign, a: string, n: Sign, b: string)
    requires Fits(a) && Fits(b)
    ensures MapSpeed(Numeral(m, a)) == Whole(m, a) as real == Speeds.Value(Numeral(m, a))
    ensures
      var text := Numeral(m, a) + "/" + Numeral(n, b);
      if Decimal.Number(b) == 0 then MapSpeed(text) == 1.0
      else Speeds.Denominator(text) != 0 &&
           MapSpeed(text) == Whole(m, a) as real / Whole(n, b) as real == Speeds.Value(text)
  {
    hide Text.Strtol, Text.Strip, Decimal.Number, Atoi, Text.Fields, Numeral;
    var x, y := Numeral(m, a), Numeral(n, b);
    NoSlash(m, a);
    NoSlash(n, b);
    NumeralIsRead(m, a, "");
    NumeralIsRead(m, a, "/" + y);
    NumeralIsRead(n, b, "");
    assert x + "" == x && y + "" == y && x + "/" + y == x + ("/" + y);
    NumeralIsSome(m, a);
    NumeralIsSome(n, b);
    Text.FieldsOne(x, '/');
    Text.FieldsOne(y, '/');
    Text.FieldsSplit(x, y, '/');
    assert x + ['/'] + y == x + "/" + y;
    Speeds.Slashed(x, y);
    assert (x + "/" + y)[|x|] == '/';
  }

  lemma NumeralIsSome(sign: Sign, digits: string)
    requires digits != []
    ensures Numeral(sign, digits) != []
  {}

  lemma OtherSpeeds(text: string)
    ensures text == [] || multiset(text)['/'] > 1 ==> MapSpeed(text) == 1.0
  {
    Text.FieldsCount(text, '/');
  }

  // ---------- transport events ----------

  lemma TransportKeeps(d: Delta, e: AvEvent, key: Property)
    ensures key !in {Rate, PlaybackStatus, NumberOfTracks, CurrentTrack} ==>
      SameAt(OnTransport(d, e).props, d.props, key)
  {
    hide MapSpeed, MapState;
  }

  /** The state of the transport as clients are told it. */
  predicate StateReads(state: string, told: string) {
    match state
    case "PLAYING" => told == "Playing"
    case "PAUSED_PLAYBACK" => told == "Paused"
    case "PAUSED_RECORDING" => told == "Paused"
    case _ => told == "Stopped"
  }

  predicate Reads(props: Props, key: Property, value: Value) {
    key in props && props[key] == value
  }

  /** After a transport event with a speed, a state or the counts of tracks in it, those are what the properties
      say, and the speed is the one stored; one signal is sent. */
  lemma TransportReads(p: Player, e: AvEvent)
    ensures
      var props := OnAv(p, e).0.props;
      && (e.speed.Some? ==> Reads(props, Rate, Number(MapSpeed(e.speed.value))) && OnAv(p, e).0.rate == e.speed.value)
      && (e.speed.None? ==> OnAv(p, e).0.rate == p.rate)
      && (e.state.Some? ==> exists told :: StateReads(e.state.value, told) && Reads(props, PlaybackStatus, Str(told)))
      && (e.tracks.Some? ==> Reads(props, NumberOfTracks, Count(e.tracks.value)))
      && (e.current.Some? ==> Reads(props, CurrentTrack, Count(e.current.value)))
      && |OnAv(p, e).1| == 1
  {
    hide OnMetadata, OnActions, MapSpeed;
    if e.state.Some? {
      var told := MapState(e.state.value);
      assert StateReads(e.state.value, told);
    }
  }

  // ---------- actions ----------

  /** The property that says whether an action is on offer. */
  function FlagOf(action: string): Property
    requires action in {"Play", "Pause", "Seek", "Next", "Previous"}
  {
    match action
    case "Play" => CanPlay
    case "Pause" => CanPause
    case "Seek" => CanSeek
    case "Next" => CanGoNext
    case _ => CanGoPrevious
  }

  lemma SixFlags(d: Delta, flags: seq<(Property, bool)>)
    requires |flags| == 6
    ensures
      Flags(d, flags).props == d.props[flags[0].0 := Flag(flags[0].1)][flags[1].0 := Flag(flags[1].1)]
        [flags[2].0 := Flag(flags[2].1)][flags[3].0 := Flag(flags[3].1)][flags[4].0 := Flag(flags[4].1)]
        [flags[5].0 := Flag(flags[5].1)]
  {
    var d1 := Change(d, flags[0].0, Flag(flags[0].1));
    var d2 := Change(d1, flags[1].0, Flag(flags[1].1));
    var d3 := Change(d2, flags[2].0, Flag(flags[2].1));
    var d4 := Change(d3, flags[3].0, Flag(flags[3].1));
    var d5 := Change(d4, flags[4].0, Flag(flags[4].1));
    var d6 := Change(d5, flags[5].0, Flag(flags[5].1));
    NextFlags(d, flags);
    NextFlags(d1, flags[1..]);
    NextFlags(d2, flags[1..][1..]);
    NextFlags(d3, flags[1..][1..][1..]);
    NextFlags(d4, flags[1..][1..][1..][1..]);
    NextFlags(d5, flags[1..][1..][1..][1..][1..]);
    assert flags[1..][1..][1..][1..][1..][1..] == [];
    assert Flags(d6, []) == d6;
  }

  lemma NextFlags(d: Delta, flags: seq<(Property, bool)>)
    requires flags != []
    ensures Flags(d, flags) == Flags(Change(d, flags[0].0, Flag(flags[0].1)), flags[1..])
  {}

  lemma OffersPieces(parts: seq<string>, action: string)
    requires parts != [] && action != [] && forall n :: 0 <= n < |parts| ==> ',' !in parts[n]
    ensures Offers(Text.Join(parts, ','), action) <==> exists n :: 0 <= n < |parts| && Text.Strip(parts[n]) == action
  {
    hide Text.Strip;
    Text.FieldsOfJoin(parts, ',');
    Text.StripNothing("");
    var text := Text.Join(parts, ',');
    if text == [] {
      assert parts == Text.Fields(text, ',') == [""];
      assert forall n :: 0 <= n < |parts| ==> Text.Strip(parts[n]) == "";
      assert Text.Split(text, ',') == [];
    } else {
      assert Text.Split(text, ',') == parts;
    }
  }

  lemma FlagsOfActions(d: Delta, actions: string, action: string)
    requires action in {"Play", "Pause", "Seek", "Next", "Previous"}
    ensures Reads(AddActions(d, actions).props, FlagOf(action), Flag(Offers(actions, action)))
    ensures Reads(AddActions(d, actions).props, CanControl, Flag(false))
  {
    hide Flags, Offers;
    SixFlags(d, ActionFlags(actions));
  }

  lemma FlagsLast(p: Player, e: AvEvent, key: Property, value: Value)
    requires key !in {Rate, PlaybackStatus, NumberOfTracks, CurrentTrack} && e.actions.Some?
    requires Reads(AddActions(OnMetadata(Delta(p.props, []), e), e.actions.value).props, key, value)
    ensures Reads(OnAv(p, e).0.props, key, value)
  {
    hide OnMetadata, OnTransport, AddActions;
    TransportKeeps(OnActions(OnMetadata(Delta(p.props, []), e), e), e, key);
  }

  /** After a transport event with a list of actions, separated by commas and whatever spaces, an action can be taken
      exactly if it is in the list; the player cannot be controlled as a whole. */
  lemma ActionsRead(p: Player, e: AvEvent, parts: seq<string>, action: string)
    requires parts != [] && forall n :: 0 <= n < |parts| ==> ',' !in parts[n]
    requires e.actions == Some(Text.Join(parts, ',')) && action in {"Play", "Pause", "Seek", "Next", "Previous"}
    ensures Reads(OnAv(p, e).0.props, FlagOf(action),
                  Flag(exists n :: 0 <= n < |parts| && Text.Strip(parts[n]) == action))
    ensures Reads(OnAv(p, e).0.props, CanControl, Flag(false))
  {
    hide OnAv, OnMetadata, AddActions, Offers, Text.Strip, Text.Join, Reads;
    FlagsOfActions(OnMetadata(Delta(p.props, []), e), e.actions.value, action);
    FlagsLast(p, e, FlagOf(action), Flag(Offers(e.actions.value, action)));
    FlagsLast(p, e, CanControl, Flag(false));
    OffersPieces(parts, action);
  }

  // ---------- metadata ----------

  lemma MetadataOnly(p: Player, e: AvEvent)
    ensures SameAt(OnAv(p, e).0.props, OnMetadata(Delta(p.props, []), e).props, Metadata)
  {
    hide OnMetadata, OnTransport, Flags, Offers;
    var d := OnMetadata(Delta(p.props, []), e);
    if e.actions.Some? { FlagsSpare(d, ActionFlags(e.actions.value), Metadata); }
    TransportKeeps(OnActions(d, e), e, Metadata);
  }

  /** What a reader of the metadata finds under a key. */
  function MetadataAt(props: Props, key: string): Option<Value> {
    Lookup(MetadataOf(props), key)
  }

  /** What an event itself says of a key: the length of the track in microseconds and its address. */
  function Said(e: AvEvent, key: string): Option<Value> {
    if key == "mpris:length" && e.duration.Some? then Some(Int64(Duration.Parse(e.duration.value)))
    else if key == "xesam:url" && e.uri.Some? then Some(Str(e.uri.value))
    else None
  }

  lemma {:induction false} LookupAppend(a: seq<(string, Value)>, b: seq<(string, Value)>, key: string)
    ensures Lookup(a + b, key) == if Lookup(b, key).Some? then Lookup(b, key) else Lookup(a, key)
  {
    if b == [] {
      assert a + b == a;
    } else {
      LookupAppend(a, b[..|b|-1], key);
      assert (a + b)[..|a + b|-1] == a + b[..|b|-1];
    }
  }

  lemma EntrySays(e: AvEvent, key: string)
    ensures Lookup(Entry("mpris:length", Length(e.duration)) + Entry("xesam:url", Uri(e.uri)), key) == Said(e, key)
  {
    hide Duration.Parse;
    LookupAppend(Entry("mpris:length", Length(e.duration)), Entry("xesam:url", Uri(e.uri)), key);
    LookupEntry("mpris:length", Length(e.duration), key);
    LookupEntry("xesam:url", Uri(e.uri), key);
  }

  lemma LookupEntry(k: string, value: Option<Value>, key: string)
    ensures Lookup(Entry(k, value), key) == if k == key then value else None
  {
    if value.Some? { assert Entry(k, value)[..0] == []; }
  }

  lemma MergedSays(d: Delta, k: string, value: Option<Value>, key: string)
    ensures MetadataAt(MergeOption(d, k, value).props, key) ==
      if k == key && value.Some? then value else MetadataAt(d.props, key)
  {
    hide Merge, Lookup;
    if value.Some? { MergeSetsOneKey(MetadataOf(d.props), k, value.value, key); }
  }

  /** After a transport event the metadata say: if the event has metadata that can be parsed, what is in them, and
      else what the event says of length and address, and nothing else; if it has metadata that cannot be parsed,
      what they said before; and if it has none, what it says of length and address, and else what they said. */
  lemma MetadataReads(p: Player, e: AvEvent, key: string)
    ensures
      MetadataAt(OnAv(p, e).0.props, key) ==
        match e.metadata
        case Some(None) => MetadataAt(p.props, key)
        case Some(Some(found)) => if Lookup(found, key).Some? then Lookup(found, key) else Said(e, key)
        case None => if Said(e, key).Some? then Said(e, key) else MetadataAt(p.props, key)
  {
    hide OnAv, Duration.Parse, Merge, Lookup, MergeOption;
    MetadataOnly(p, e);
    match e.metadata
    case Some(None) =>
    case Some(Some(found)) =>
      EntrySays(e, key);
      LookupAppend(Entry("mpris:length", Length(e.duration)) + Entry("xesam:url", Uri(e.uri)), found, key);
    case None =>
      var d1 := MergeOption(Delta(p.props, []), "mpris:length", Length(e.duration));
      MergedSays(Delta(p.props, []), "mpris:length", Length(e.duration), key);
      MergedSays(d1, "xesam:url", Uri(e.uri), key);
  }

  // ---------- position, volume, synchronising ----------

  /** After a position has been read from text of three numbers, with whatever after the last that is neither a digit
      nor a colon nor ends in a space, the position is that many seconds, in microseconds; nothing else changes. */
  lemma PositionReads(p: Player, h: string, m: string, t: string, rest: string)
    requires Decimal.AllDigits(h) && Decimal.AllDigits(m) && Decimal.AllDigits(t) && h != [] && m != [] && t != []
    requires rest == [] || (!Decimal.IsDigit(rest[0]) && !Text.IsSpace(rest[|rest|-1]) && ':' !in rest)
    requires Decimal.Number(h) * 3600 + Decimal.Number(m) * 60 + Decimal.Number(t) < Duration.UINT
    ensures
      var p' := OnPosition(p, h + ":" + m + ":" + t + rest).0;
      p' == p.(props := p.props[Position :=
        Int64((Decimal.Number(h) * 3600 + Decimal.Number(m) * 60 + Decimal.Number(t)) * 1_000_000)])
  {
    hide Duration.Parse, Text.Strip, Decimal.Number, Decimal.AllDigits;
    var text := h + ":" + m + ":" + t + rest;
    FirstAndLast(h);
    FirstAndLast(t);
    assert text[0] == h[0];
    assert text[|text|-1] == if rest == [] then t[|t|-1] else rest[|rest|-1];
    Text.StripNothing(text);
    Duration.ShortTimesAreRead(h, m, t, rest);
  }

  lemma FirstAndLast(s: string)
    requires Decimal.AllDigits(s) && s != []
    ensures !Text.IsSpace(s[0]) && !Text.IsSpace(s[|s|-1])
  {}

  /** The greatest volume that is known when a volume comes. */
  function Scale(p: Player, desc: Description): nat {
    if !p.synced && desc.maxVolume.Some? then desc.maxVolume.value else p.maxVolume
  }

  /** After a change of volume the volume is the fraction of the greatest, if that is known to be more than zero, and
      else what it was. */
  lemma VolumeReads(p: Player, volume: nat, desc: Description)
    ensures
      var p' := OnVolume(p, volume, desc).0;
      if Scale(p, desc) > 0 then
        Reads(p'.props, Volume, Number(volume as real / Scale(p, desc) as real)) && p'.maxVolume == Scale(p, desc)
      else SameAt(p'.props, p.props, Volume)
  {
    hide RateBounds, AddAllActions, SameAt;
    if !p.synced { SyncSpares(p, desc, Volume); }
    SameSelf(p.props, Volume);
  }

  lemma SameSelf(props: Props, key: Property)
    ensures SameAt(props, props, key)
  {}

  lemma SyncSpares(p: Player, desc: Description, key: Property)
    requires !IsBound(key) && key !in {CanPlay, CanPause, CanSeek, CanGoNext, CanGoPrevious, CanControl}
    ensures SameAt(Synced(p, desc).0.props, p.props, key)
  {
    hide Flags, Speeds.Scan, Speeds.ToDouble, Speeds.Published, Speeds.Usable;
    FlagsSpare(RateBounds(Delta(p.props, []), desc.allowed), ALL_ACTIONS, key);
  }

  /** Synchronising offers every action, takes over the greatest volume and the allowed speeds if they are given, and
      is done once. */
  lemma SyncReads(p: Player, desc: Description)
    ensures
      var p' := SyncedOnce(p, desc).0;
      && p'.synced && (p.synced ==> p' == p)
      && (!p.synced ==>
           && Reads(p'.props, CanPlay, Flag(true)) && Reads(p'.props, CanPause, Flag(true))
           && Reads(p'.props, CanSeek, Flag(true)) && Reads(p'.props, CanGoNext, Flag(true))
           && Reads(p'.props, CanGoPrevious, Flag(true)) && Reads(p'.props, CanControl, Flag(true))
           && p'.maxVolume == Scale(p, desc)
           && (desc.allowed != [] ==> forall s :: s in p'.speeds <==> s in desc.allowed && Speeds.Valid(s)))
  {
    hide RateBounds, Flags, Speeds.Valid;
    SixFlags(RateBounds(Delta(p.props, []), desc.allowed), ALL_ACTIONS);
  }
}
