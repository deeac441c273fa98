/** Player.cs: what is playing (`PlayerContext`), on which device (`Device`),
    and the player settings layered over both (`Player`). */
module Players {
  import opened Wrappers
  import opened Bags
  import opened Times
  import Contexts
  import Catalog

  // ---------------------------------------------------------------- enumerations

  /** `PlayerRepeatState`, in declaration order; the first member is the default. */
  datatype RepeatState = Off | Track | Context

  /** The word the Web API writes in `repeat_state` for each state. */
  function RepeatWord(s: RepeatState): string {
    match s
    case Off => "off"
    case Track => "track"
    case Context => "context"
  }

  /** The if/else-if chain over `repeat_state`: a string equal to a state's word
      (letter case included) selects that state; anything else, null included,
      keeps the state already there. */
  function RepeatStep(current: RepeatState, s: NString): (r: RepeatState)
    ensures forall t :: s == Some(RepeatWord(t)) ==> r == t
    ensures (forall t :: s != Some(RepeatWord(t))) ==> r == current
  {
    assert RepeatWord(Off) == "off" && RepeatWord(Track) == "track" && RepeatWord(Context) == "context";
    if s == Some("off") then Off
    else if s == Some("track") then Track
    else if s == Some("context") then Context
    else current
  }

  /** `DeviceType`, in declaration order; the first member is the default. */
  datatype DeviceType = Computer | Smartphone | Speaker

  /** The member's name as declared, which is also what the chain compares with. */
  function DeviceTypeName(t: DeviceType): string {
    match t
    case Computer => "Computer"
    case Smartphone => "Smartphone"
    case Speaker => "Speaker"
  }

  /** The if/else-if chain over a device's `type`: an exact member name selects
      that member; anything else keeps the type already there. */
  function DeviceTypeStep(current: DeviceType, s: NString): (r: DeviceType)
    ensures forall t :: s == Some(DeviceTypeName(t)) ==> r == t
    ensures (forall t :: s != Some(DeviceTypeName(t))) ==> r == current
  {
    assert DeviceTypeName(Computer) == "Computer" && DeviceTypeName(Smartphone) == "Smartphone" &&
           DeviceTypeName(Speaker) == "Speaker";
    if s == Some("Computer") then Computer
    else if s == Some("Smartphone") then Smartphone
    else if s == Some("Speaker") then Speaker
    else current
  }

  /** A property run through one of the chains: absent keeps `current`; present
      it is first cast to a string, which throws for anything but a string or
      null. */
  function RepeatOr(b: Bag, current: RepeatState): (r: Decoded<RepeatState>)
    ensures !Has(b, "repeat_state") ==> r == Ok(current)
    ensures r.Err? <==> Has(b, "repeat_state") && !(Get(b, "repeat_state").value.VNull? || Get(b, "repeat_state").value.VStr?)
    ensures Get(b, "repeat_state") == Some(VNull) ==> r == Ok(current)
    ensures Has(b, "repeat_state") && Get(b, "repeat_state").value.VStr? ==>
      r == Ok(RepeatStep(current, Some(Get(b, "repeat_state").value.s)))
  {
    match Get(b, "repeat_state")
    case None => Ok(current)
    case Some(v) =>
      var s :- CastString("repeat_state", v);
      Ok(RepeatStep(current, s))
  }

  function DeviceTypeOr(b: Bag, current: DeviceType): (r: Decoded<DeviceType>)
    ensures !Has(b, "type") ==> r == Ok(current)
    ensures r.Err? <==> Has(b, "type") && !(Get(b, "type").value.VNull? || Get(b, "type").value.VStr?)
    ensures Get(b, "type") == Some(VNull) ==> r == Ok(current)
    ensures Has(b, "type") && Get(b, "type").value.VStr? ==>
      r == Ok(DeviceTypeStep(current, Some(Get(b, "type").value.s)))
  {
    match Get(b, "type")
    case None => Ok(current)
    case Some(v) =>
      var s :- CastString("type", v);
      Ok(DeviceTypeStep(current, s))
  }

  // ---------------------------------------------------------------- Device

  datatype Device = Device(
    deviceType: DeviceType,
    id: NString,
    isActive: bool,
    isRestricted: bool,
    name: NString,
    volume: int32)
  {
    function ToString(): NString {
      name
    }
  }

  /** `new Device()`: unlike the name, the id starts out null. */
  const DefaultDevice: Device := Device(Computer, None, false, false, Some(""), 0)

  /** `volume_percent` unboxed as an `int` when present and not null, 0
      otherwise; any other boxed value throws. */
  function VolumeOr(b: Bag): (r: Decoded<int32>)
    ensures !Has(b, "volume_percent") || Get(b, "volume_percent") == Some(VNull) ==> r == Ok(0)
    ensures Has(b, "volume_percent") && Get(b, "volume_percent").value.VInt? ==> r == Ok(Get(b, "volume_percent").value.i)
    ensures r.Err? <==>
      Has(b, "volume_percent") && !(Get(b, "volume_percent").value.VNull? || Get(b, "volume_percent").value.VInt?)
  {
    match Get(b, "volume_percent")
    case None => Ok(0)
    case Some(VNull) => Ok(0)
    case Some(VInt(n)) => Ok(n)
    case Some(_) => Err(Malformed("volume_percent"))
  }

  /** `new Device(Object)`: the type chain over the Computer default, then the
      remaining fields in declaration order. */
  function DecodeDevice(b: Bag): (r: Decoded<Device>)
    ensures b.VNull? ==> r == Ok(DefaultDevice)
    ensures r.Ok? ==> DeviceTypeOr(b, Computer) == Ok(r.value.deviceType)
    ensures r.Ok? ==> StringOr(b, "id", None) == Ok(r.value.id)
    ensures r.Ok? ==> BoolOr(b, "is_active", false) == Ok(r.value.isActive)
    ensures r.Ok? ==> BoolOr(b, "is_restricted", false) == Ok(r.value.isRestricted)
    ensures r.Ok? ==> StringOr(b, "name", Some("")) == Ok(r.value.name)
    ensures r.Ok? ==> VolumeOr(b) == Ok(r.value.volume)
    ensures b.VObj? && r.Err? ==>
      DeviceTypeOr(b, Computer).Err? || StringOr(b, "id", None).Err? || BoolOr(b, "is_active", false).Err? ||
      BoolOr(b, "is_restricted", false).Err? || StringOr(b, "name", Some("")).Err? || VolumeOr(b).Err?
  {
    if b.VNull? then Ok(DefaultDevice)
    else
      var deviceType :- DeviceTypeOr(b, Computer);
      var id :- StringOr(b, "id", None);
      var isActive :- BoolOr(b, "is_active", false);
      var isRestricted :- BoolOr(b, "is_restricted", false);
      var name :- StringOr(b, "name", Some(""));
      var volume :- VolumeOr(b);
      Ok(Device(deviceType, id, isActive, isRestricted, name, volume))
  }

  // ---------------------------------------------------------------- PlayerContext

  /** `PlayerFetchedOn`: either the clock reading, which is local time already,
      or the UTC instant of the `timestamp`, which the constructor then converts
      to local time. */
  datatype Instant = Local(ticks: Ticks) | Utc(ticks: Ticks)

  datatype PlayerContext = PlayerContext(
    context: Contexts.Context,
    isPlaying: bool,
    fetchedOn: Instant,
    progress: int,                 // ticks of 100 ns
    track: Option<Catalog.Track>)  // null when nothing is playing

  /** `new PlayerContext()` with the clock reading `now`. */
  function DefaultPlayerContext(now: Ticks): (c: PlayerContext)
    ensures c.fetchedOn == Local(now) && c.track == None && c.progress == 0 && !c.isPlaying
    ensures c.context == Contexts.DefaultContext
  {
    PlayerContext(Contexts.DefaultContext, false, Local(now), 0, None)
  }

  /** `timestamp`, present, is unboxed as a `long` (a boxed `int` or null throws)
      and read as Unix milliseconds; absent, the clock reading stays. */
  function FetchedOnOr(b: Bag, now: Ticks): (r: Decoded<Instant>)
    ensures !Has(b, "timestamp") ==> r == Ok(Local(now))
    ensures Has(b, "timestamp") && !Get(b, "timestamp").value.VLong? ==> r == Err(Malformed("timestamp"))
    ensures Has(b, "timestamp") && Get(b, "timestamp").value.VLong? ==>
      (r.Ok? <==> MinUnixMillis <= Get(b, "timestamp").value.l <= MaxUnixMillis)
    ensures r.Ok? && Has(b, "timestamp") ==>
      r.value == Utc(UnixEpochTicks + Get(b, "timestamp").value.l * TicksPerMillisecond)
    ensures r.Ok? && Has(b, "timestamp") ==> r.value.Utc? && ToUnixMillis(r.value.ticks) == Get(b, "timestamp").value.l
  {
    match Get(b, "timestamp")
    case None => Ok(Local(now))
    case Some(VLong(ms)) =>
      var t :- FromUnixMillis("timestamp", ms);
      Ok(Utc(t))
    case Some(_) => Err(Malformed("timestamp"))
  }

  /** `item`, present and not null, decoded as a Track; otherwise no track. */
  function TrackOr(b: Bag): (r: Decoded<Option<Catalog.Track>>)
    ensures r.Ok? ==> (r.value.None? <==> !Has(b, "item") || Get(b, "item") == Some(VNull))
    ensures r.Ok? && r.value.Some? ==>
      Get(b, "item").value.VObj? && Catalog.DecodeTrack(Get(b, "item").value) == Ok(r.value.value)
    ensures Has(b, "item") && !(Get(b, "item").value.VNull? || Get(b, "item").value.VObj?) ==> r.Err?
    ensures !Has(b, "item") || Get(b, "item") == Some(VNull) ==> r == Ok(None)
    ensures Has(b, "item") && Get(b, "item").value.VObj? ==>
      (r.Ok? <==> Catalog.DecodeTrack(Get(b, "item").value).Ok?)
  {
    match Get(b, "item")
    case None => Ok(None)
    case Some(v) =>
      if v.VNull? then Ok(None)
      else
        var tb :- CastBag("item", v);
        var t :- Catalog.DecodeTrack(tb);
        Ok(Some(t))
  }

  /** `new PlayerContext(Object)` with the clock reading `now`: the defaults,
      then each field overwritten in declaration order. */
  function DecodePlayerContext(b: Bag, now: Ticks): (r: Decoded<PlayerContext>)
    ensures b.VNull? ==> r == Ok(DefaultPlayerContext(now))
    ensures r.Ok? ==>
      BagOf(b, "context").Ok? && Contexts.DecodeContext(BagOf(b, "context").value) == Ok(r.value.context)
    ensures r.Ok? ==> BoolOr(b, "is_playing", false) == Ok(r.value.isPlaying)
    ensures r.Ok? ==> FetchedOnOr(b, now) == Ok(r.value.fetchedOn)
    ensures r.Ok? ==> TicksOr0(b, "progress_ms") == Ok(r.value.progress)
    ensures r.Ok? ==> TrackOr(b) == Ok(r.value.track)
    ensures b.VObj? && r.Err? ==>
      || BagOf(b, "context").Err? || Contexts.DecodeContext(BagOf(b, "context").value).Err?
      || BoolOr(b, "is_playing", false).Err?
      || FetchedOnOr(b, now).Err?
      || TicksOr0(b, "progress_ms").Err?
      || TrackOr(b).Err?
  {
    if b.VNull? then Ok(DefaultPlayerContext(now))
    else
      var cb :- BagOf(b, "context");
      var context :- Contexts.DecodeContext(cb);
      var isPlaying :- BoolOr(b, "is_playing", false);
      var fetchedOn :- FetchedOnOr(b, now);
      var progress :- TicksOr0(b, "progress_ms");
      var track :- TrackOr(b);
      Ok(PlayerContext(context, isPlaying, fetchedOn, progress, track))
  }

  // ---------------------------------------------------------------- Player

  /** A `Player` is a `PlayerContext` (its base class) plus the device and the
      two settings. */
  datatype Player = Player(
    playback: PlayerContext,
    device: Option<Device>,    // null when the response names no device
    repeatState: RepeatState,
    shuffleState: bool)

  /** `new Player()` with the clock reading `now`. */
  function DefaultPlayer(now: Ticks): (p: Player)
    ensures p.playback == DefaultPlayerContext(now)
    ensures p.device == None && p.repeatState == Off && !p.shuffleState
  {
    Player(DefaultPlayerContext(now), None, Off, false)
  }

  /** `device`, present, is decoded as a Device (a null value gives the default
      device); absent, there is no device. */
  function DeviceOr(b: Bag): (r: Decoded<Option<Device>>)
    ensures !Has(b, "device") ==> r == Ok(None)
    ensures Get(b, "device") == Some(VNull) ==> r == Ok(Some(DefaultDevice))
    ensures Has(b, "device") ==> (r.Ok? <==> CastBag("device", Get(b, "device").value).Ok? && DecodeDevice(Get(b, "device").value).Ok?)
    ensures Has(b, "device") && r.Ok? ==> r == Ok(Some(DecodeDevice(Get(b, "device").value).value))
  {
    match Get(b, "device")
    case None => Ok(None)
    case Some(v) =>
      var db :- CastBag("device", v);
      var d :- DecodeDevice(db);
      Ok(Some(d))
  }

  /** `new Player(Object)` with the clock reading `now`: the base class
      constructor first, then the device, the repeat chain over Off and the
      shuffle flag. The base constructor (not `this()`) runs before, so a null
      bag leaves the three at their .NET defaults. */
  function DecodePlayer(b: Bag, now: Ticks): (r: Decoded<Player>)
    ensures b.VNull? ==> r == Ok(DefaultPlayer(now))
    ensures DecodePlayerContext(b, now).Err? ==> r.Err?
    ensures r.Ok? ==> DecodePlayerContext(b, now) == Ok(r.value.playback)
    ensures r.Ok? ==> DeviceOr(b) == Ok(r.value.device)
    ensures r.Ok? ==> RepeatOr(b, Off) == Ok(r.value.repeatState)
    ensures r.Ok? ==> BoolOr(b, "shuffle_state", false) == Ok(r.value.shuffleState)
    ensures b.VObj? && r.Err? ==>
      DecodePlayerContext(b, now).Err? || DeviceOr(b).Err? || RepeatOr(b, Off).Err? || BoolOr(b, "shuffle_state", false).Err?
  {
    var playback :- DecodePlayerContext(b, now);
    if b.VNull? then Ok(Player(playback, None, Off, false))
    else
      var device :- DeviceOr(b);
      var repeatState :- RepeatOr(b, Off);
      var shuffleState :- BoolOr(b, "shuffle_state", false);
      Ok(Player(playback, device, repeatState, shuffleState))
  }

  // ---------------------------------------------------------------- properties

  /** The three words select the three states; any other value, a differently
      cased word included, and a missing key leave Off. */
  lemma PlayerRepeatState(b: Bag, now: Ticks)
    requires DecodePlayer(b, now).Ok?
    ensures forall t :: Get(b, "repeat_state") == Some(VStr(RepeatWord(t))) ==> DecodePlayer(b, now).value.repeatState == t
    ensures (forall t :: Get(b, "repeat_state") != Some(VStr(RepeatWord(t)))) ==> DecodePlayer(b, now).value.repeatState == Off
  {
    if !b.VNull? && Has(b, "repeat_state") && Get(b, "repeat_state").value.VStr? {
      var s := Get(b, "repeat_state").value.s;
      assert forall t :: Get(b, "repeat_state") == Some(VStr(RepeatWord(t))) <==> Some(s) == Some(RepeatWord(t));
    }
  }

  /** The words are compared with letter case: "Track" is not "track". */
  lemma RepeatWordsAreCaseSensitive()
    ensures RepeatStep(Off, Some("Track")) == Off
    ensures RepeatStep(Off, Some("CONTEXT")) == Off
    ensures RepeatStep(Off, Some("track")) == Track
  {
    assert forall t :: Some("Track") != Some(RepeatWord(t));
    assert forall t :: Some("CONTEXT") != Some(RepeatWord(t));
  }

  /** A device's type is the member its name spells exactly, and Computer
      otherwise. */
  lemma DeviceTypeMapping(b: Bag)
    requires DecodeDevice(b).Ok?
    ensures forall t :: Get(b, "type") == Some(VStr(DeviceTypeName(t))) ==> DecodeDevice(b).value.deviceType == t
    ensures (forall t :: Get(b, "type") != Some(VStr(DeviceTypeName(t)))) ==> DecodeDevice(b).value.deviceType == Computer
  {
    if !b.VNull? && Has(b, "type") && Get(b, "type").value.VStr? {
      var s := Get(b, "type").value.s;
      assert forall t :: Get(b, "type") == Some(VStr(DeviceTypeName(t))) <==> Some(s) == Some(DeviceTypeName(t));
    }
  }

  /** Without an `id` the device's id is null, while a missing `name` gives "";
      a missing or null `volume_percent` gives 0. */
  lemma DeviceDefaults(b: Bag)
    requires DecodeDevice(b).Ok?
    ensures !Has(b, "id") ==> DecodeDevice(b).value.id == None
    ensures !Has(b, "name") ==> DecodeDevice(b).value.name == Some("")
    ensures !Has(b, "volume_percent") || Get(b, "volume_percent") == Some(VNull) ==> DecodeDevice(b).value.volume == 0
    ensures Has(b, "volume_percent") && Get(b, "volume_percent").value.VInt? ==>
      DecodeDevice(b).value.volume == Get(b, "volume_percent").value.i
  {
  }

  /** The track is null exactly when `item` is missing or null; the context is
      the default one when `context` is missing or null. */
  lemma PlaybackTrackAndContext(b: Bag, now: Ticks)
    requires DecodePlayerContext(b, now).Ok?
    ensures DecodePlayerContext(b, now).value.track.None? <==> !Has(b, "item") || Get(b, "item") == Some(VNull)
    ensures !Has(b, "context") || Get(b, "context") == Some(VNull) ==>
      DecodePlayerContext(b, now).value.context == Contexts.DefaultContext
  {
  }

  /** The progress is `progress_ms` milliseconds in ticks, or 0 without the key. */
  lemma PlaybackProgress(b: Bag, now: Ticks)
    requires DecodePlayerContext(b, now).Ok?
    ensures !Has(b, "progress_ms") ==> DecodePlayerContext(b, now).value.progress == 0
    ensures Has(b, "progress_ms") ==>
      Get(b, "progress_ms").value.VInt? &&
      DecodePlayerContext(b, now).value.progress == Get(b, "progress_ms").value.i * TicksPerMillisecond
  {
  }

  /** Without a `timestamp` the fetch time is the clock reading; with one it is
      the UTC instant of that Unix time. */
  lemma PlaybackFetchedOn(b: Bag, now: Ticks)
    requires DecodePlayerContext(b, now).Ok?
    ensures !Has(b, "timestamp") ==> DecodePlayerContext(b, now).value.fetchedOn == Local(now)
    ensures Has(b, "timestamp") ==>
      Get(b, "timestamp").value.VLong? &&
      DecodePlayerContext(b, now).value.fetchedOn == Utc(UnixEpochTicks + Get(b, "timestamp").value.l * TicksPerMillisecond) &&
      ToUnixMillis(DecodePlayerContext(b, now).value.fetchedOn.ticks) == Get(b, "timestamp").value.l
  {
  }

  /** No `device` key means no device, a null one the default device; the
      shuffle flag is false unless the bag says otherwise. */
  lemma PlayerDeviceAndShuffle(b: Bag, now: Ticks)
    requires DecodePlayer(b, now).Ok?
    ensures DecodePlayer(b, now).value.device.None? <==> !Has(b, "device")
    ensures Get(b, "device") == Some(VNull) ==> DecodePlayer(b, now).value.device == Some(DefaultDevice)
    ensures !Has(b, "shuffle_state") ==> !DecodePlayer(b, now).value.shuffleState
  {
  }
}
