/**
 The player properties of a device, which clients read and are told about in PropertiesChanged signals.
 Every event handler collects what it changes and sends it in one signal; a client that keeps a copy can
 follow along.
 */
module PlayerModel {
  import opened Options
  import Text
  import Duration
  import Speeds

  /** The properties of the player interface. */
  datatype Property =
    | PlaybackStatus | Rate | MinimumRate | MaximumRate | TransportPlaySpeeds | Volume
    | CanPlay | CanSeek | CanControl | CanPause | CanGoNext | CanGoPrevious
    | Position | Metadata | CurrentTrack | NumberOfTracks

  datatype Value =
    | Flag(flag: bool) | Number(number: real) | Str(str: string) | Int64(int64: int) | Count(count: nat)
    | Numbers(numbers: seq<real>) | Dict(entries: seq<(string, Value)>)

  type Props = map<Property, Value>

  /** The changed properties in a PropertiesChanged signal, in order. */
  type Signal = seq<(Property, Value)>

  /** The properties, and what has been collected for the signal so far. */
  datatype Delta = Delta(props: Props, changes: Signal)

  /** prv_change_props. */
  function Change(d: Delta, key: Property, value: Value): Delta {
    Delta(d.props[key := value], d.changes + [(key, value)])
  }

  // ---------- metadata ----------

  function Merged(entries: seq<(string, Value)>, key: string, value: Value): (r: seq<(string, Value)>)
    ensures |r| == |entries|
    ensures forall n :: 0 <= n < |entries| ==> r[n] == if entries[n].0 == key then (key, value) else entries[n]
  {
    seq(|entries|, n requires 0 <= n < |entries| => if entries[n].0 == key then (key, value) else entries[n])
  }

  predicate HasKey(entries: seq<(string, Value)>, key: string) {
    exists n :: 0 <= n < |entries| && entries[n].0 == key
  }

  function MetadataOf(props: Props): seq<(string, Value)> {
    if Metadata in props && props[Metadata].Dict? then props[Metadata].entries else []
  }

  /** prv_merge_meta_data: the value of the key is replaced where it stands, or added at the end. */
  function Merge(entries: seq<(string, Value)>, key: string, value: Value): seq<(string, Value)> {
    if HasKey(entries, key) then Merged(entries, key, value) else entries + [(key, value)]
  }

  function MergeMetadata(d: Delta, key: string, value: Value): Delta {
    Change(d, Metadata, Dict(Merge(MetadataOf(d.props), key, value)))
  }

  /** What the DIDL-Lite parser finds in the metadata of a track; none if it fails. */
  type Found = Option<seq<(string, Value)>>

  function Entry(key: string, value: Option<Value>): seq<(string, Value)> {
    match value
    case None => []
    case Some(v) => [(key, v)]
  }

  function Length(duration: Option<string>): Option<Value> {
    match duration
    case None => None
    case Some(s) => Some(Int64(Duration.Parse(s)))
  }

  function Uri(uri: Option<string>): Option<Value> {
    match uri
    case None => None
    case Some(s) => Some(Str(s))
  }

  /** prv_add_track_meta_data: new metadata, if they can be parsed, replace the old altogether. */
  function ReplaceMetadata(d: Delta, found: Found, duration: Option<string>, uri: Option<string>): Delta {
    match found
    case None => d
    case Some(entries) =>
      Change(d, Metadata, Dict(Entry("mpris:length", Length(duration)) + Entry("xesam:url", Uri(uri)) + entries))
  }

  function MergeOption(d: Delta, key: string, value: Option<Value>): Delta {
    match value
    case None => d
    case Some(v) => MergeMetadata(d, key, v)
  }

  // ---------- other properties ----------

  function ChangeOption(d: Delta, key: Property, value: Option<Value>): Delta {
    match value
    case None => d
    case Some(v) => Change(d, key, v)
  }

  predicate Offers(actions: string, action: string) {
    var parts := Text.Split(actions, ',');
    exists n :: 0 <= n < |parts| && Text.Strip(parts[n]) == action
  }

  function Flags(d: Delta, flags: seq<(Property, bool)>): Delta
    decreases |flags|
  {
    if flags == [] then d else Flags(Change(d, flags[0].0, Flag(flags[0].1)), flags[1..])
  }

  function ActionFlags(actions: string): seq<(Property, bool)> {
    [(CanControl, false), (CanPlay, Offers(actions, "Play")), (CanPause, Offers(actions, "Pause")),
     (CanSeek, Offers(actions, "Seek")), (CanGoNext, Offers(actions, "Next")),
     (CanGoPrevious, Offers(actions, "Previous"))]
  }

  /** prv_add_actions. */
  function AddActions(d: Delta, actions: string): Delta {
    Flags(d, ActionFlags(actions))
  }

  const ALL_ACTIONS: seq<(Property, bool)> :=
    [(CanPlay, true), (CanPause, true), (CanSeek, true), (CanGoNext, true), (CanGoPrevious, true), (CanControl, true)]

  /** prv_add_all_actions. */
  function AddAllActions(d: Delta): Delta {
    Flags(d, ALL_ACTIONS)
  }

  function MapState(state: string): string {
    if state == "PLAYING" then "Playing"
    else if state == "PAUSED_PLAYBACK" || state == "PAUSED_RECORDING" then "Paused"
    else "Stopped"
  }

  /** atoi. */
  function Atoi(s: string): int {
    Speeds.ToInt(Text.Strtol(s))
  }

  /** prv_map_transport_speed: a whole number or a fraction; one for anything else. */
  function MapSpeed(speed: string): real {
    var parts := Text.Split(speed, '/');
    if |parts| == 1 then Atoi(Text.Strip(parts[0])) as real
    else if |parts| == 2 && Atoi(Text.Strip(parts[1])) != 0 then
      Atoi(Text.Strip(parts[0])) as real / Atoi(Text.Strip(parts[1])) as real
    else 1.0
  }

  // ---------- events ----------

  /** A LastChange event of the AVTransport service: those of the fields that are in it. */
  datatype AvEvent = AvEvent(
    metadata: Option<Found>, actions: Option<string>, speed: Option<string>, state: Option<string>,
    duration: Option<string>, uri: Option<string>, tracks: Option<nat>, current: Option<nat>)

  /** What prv_props_update learns from the service descriptions: the allowed play speeds, if there are any,
      and the greatest volume. */
  datatype Description = Description(allowed: seq<string>, maxVolume: Option<nat>)

  /** `speeds`: the UPnP play speeds stored beside the published ones; `rate`: the one to play at. */
  datatype Player = Player(props: Props, synced: bool, maxVolume: nat, speeds: seq<string>, rate: string)

  datatype Event =
    | AvChanged(av: AvEvent)
    | VolumeChanged(volume: nat, desc: Description)
    | PositionRead(time: string)
    | PropsRead(desc: Description)
    | RateSet(rate: real)

  function OnMetadata(d: Delta, e: AvEvent): Delta {
    match e.metadata
    case Some(found) => ReplaceMetadata(d, found, e.duration, e.uri)
    case None => MergeOption(MergeOption(d, "mpris:length", Length(e.duration)), "xesam:url", Uri(e.uri))
  }

  function OnActions(d: Delta, e: AvEvent): Delta {
    match e.actions
    case None => d
    case Some(actions) => AddActions(d, actions)
  }

  function SpeedOf(e: AvEvent): Option<Value> {
    match e.speed
    case None => None
    case Some(s) => Some(Number(MapSpeed(s)))
  }

  function StateOf(e: AvEvent): Option<Value> {
    match e.state
    case None => None
    case Some(s) => Some(Str(MapState(s)))
  }

  function CountOf(n: Option<nat>): Option<Value> {
    match n
    case None => None
    case Some(v) => Some(Count(v))
  }

  function OnTransport(d: Delta, e: AvEvent): Delta {
    ChangeOption(ChangeOption(ChangeOption(ChangeOption(d, Rate, SpeedOf(e)), PlaybackStatus, StateOf(e)),
      NumberOfTracks, CountOf(e.tracks)), CurrentTrack, CountOf(e.current))
  }

  /** prv_last_change_cb. */
  function OnAv(p: Player, e: AvEvent): (Player, seq<Signal>) {
    var d := OnTransport(OnActions(OnMetadata(Delta(p.props, []), e), e), e);
    (p.(props := d.props, rate := if e.speed.Some? then e.speed.value else p.rate), [d.changes])
  }

  function RateBounds(d: Delta, allowed: seq<string>): Delta {
    if allowed == [] then d else
      var (lo, hi) := Speeds.Scan(allowed[0], allowed[0], allowed);
      var min, max := Speeds.ToDouble(lo), Speeds.ToDouble(hi);
      var d1 := if min != 0.0 then Change(d, MinimumRate, Number(min)) else d;
      var d2 := if max != 0.0 then Change(d1, MaximumRate, Number(max)) else d1;
      Change(d2, TransportPlaySpeeds, Numbers(Speeds.Published(Speeds.Usable(allowed))))
  }

  /** prv_props_update. */
  function Synced(p: Player, desc: Description): (Player, seq<Signal>) {
    var d := AddAllActions(RateBounds(Delta(p.props, []), desc.allowed));
    (p.(props := d.props, synced := true,
        speeds := if desc.allowed == [] then p.speeds else Speeds.Usable(desc.allowed),
        maxVolume := if desc.maxVolume.Some? then desc.maxVolume.value else p.maxVolume),
     [d.changes])
  }

  function SyncedOnce(p: Player, desc: Description): (Player, seq<Signal>) {
    if p.synced then (p, []) else Synced(p, desc)
  }

  /** prv_rc_last_change_cb. */
  function OnVolume(p: Player, volume: nat, desc: Description): (Player, seq<Signal>) {
    var (p1, signals) := SyncedOnce(p, desc);
    if p1.maxVolume == 0 then (p1, signals) else
      var d := Change(Delta(p1.props, []), Volume, Number(volume as real / p1.maxVolume as real));
      (p1.(props := d.props), signals + [d.changes])
  }

  /** prv_get_position_info_cb, when it succeeds. */
  function OnPosition(p: Player, time: string): (Player, seq<Signal>) {
    var d := Change(Delta(p.props, []), Position, Int64(Duration.Parse(Text.Strip(time))));
    (p.(props := d.props), [d.changes])
  }

  function Offered(p: Player): Option<seq<real>> {
    if TransportPlaySpeeds in p.props && p.props[TransportPlaySpeeds].Numbers? then
      Some(p.props[TransportPlaySpeeds].numbers)
    else None
  }

  predicate Accepts(p: Player, r: real) {
    Offered(p).Some? && Speeds.Choose(Offered(p).value, r) < |Offered(p).value|
  }

  /** What setting the rate takes for granted: the stored UPnP speeds go as far as the published ones. */
  predicate Safe(p: Player, e: Event) {
    e.RateSet? && Offered(p).Some? ==> |Offered(p).value| <= |p.speeds|
  }

  /** prv_set_rate: no signal. */
  function SetRate(p: Player, r: real): Player
    requires Safe(p, RateSet(r))
  {
    if !Accepts(p, r) then p else
      var i := Speeds.Choose(Offered(p).value, r);
      p.(props := p.props[Rate := Number(Offered(p).value[i])], rate := p.speeds[i])
  }

  function Step(p: Player, e: Event): (Player, seq<Signal>)
    requires Safe(p, e)
  {
    match e
    case AvChanged(av) => OnAv(p, av)
    case VolumeChanged(volume, desc) => OnVolume(p, volume, desc)
    case PositionRead(time) => OnPosition(p, time)
    case PropsRead(desc) => SyncedOnce(p, desc)
    case RateSet(r) => (SetRate(p, r), [])
  }

  const NEW_PLAYER := Player(map[], false, 0, [], "1")

  predicate Run(ps: seq<Player>, es: seq<Event>) {
    && |ps| == |es| + 1 && ps[0] == NEW_PLAYER
    && forall n :: 0 <= n < |es| ==> Safe(ps[n], es[n]) && ps[n + 1] == Step(ps[n], es[n]).0
  }
}
