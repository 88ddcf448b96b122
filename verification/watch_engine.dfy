/** The watch face engine as an immutable state record with one pure transition
    per host callback.

    The host serialises every callback on one queue, so each callback is a
    function from the engine before it to the engine after it. A callback that
    throws (decoding a bitmap for a code no range covers) is reported as
    `Threw`, carrying the engine as it was at the throw. */
module WatchEngine {
  import opened Wrappers
  import opened WeatherIcon
  import opened TickDelay
  import opened Preferences

  /** The path the phone publishes weather updates under. */
  const WeatherPath: string := "/weather_update"

  /** A message in the engine's handler queue: the update-time message, posted
      with a delay in milliseconds. */
  datatype Message = UpdateTime(delayMs: int)

  /** Calls the engine makes into host services it cannot see. */
  datatype HostCall =
    | RegisterTimeZoneReceiver
    | UnregisterTimeZoneReceiver
    | Connect
    | Disconnect
    | AddDataListener
    | RemoveDataListener

  /** The weather state the engine draws. */
  datatype Display = Display(weather: Weather, bitmap: Option<Icon>)

  /** One data item of a change notification: its path and, for a weather
      update, the `high_temp`, `low_temp` and `weather_id` fields. */
  datatype DataEvent = DataEvent(path: string, high: string, low: string, code: int)

  /** The face's mode flags. The host's ambient flag and the engine's mirrored
      field always agree (both start false and both take the callback's
      argument), so there is one. */
  datatype Face = Face(
    visible: bool,               // the host's visibility
    ambient: bool,               // ambient (low-power) mode
    lowBitAmbient: bool,         // the device property read in onPropertiesChanged
    antiAlias: bool)             // anti-aliasing of the time text

  /** The engine's ties to host services. */
  datatype Links = Links(
    receiverRegistered: bool,    // the guard of registerReceiver/unregisterReceiver
    resolvingError: bool,        // the connection-failure guard
    calls: seq<HostCall>)        // log of calls into host services

  datatype Engine = Engine(
    face: Face,
    queue: seq<Message>,         // pending messages of the update-time handler
    redraws: nat,                // number of invalidate() requests
    links: Links,
    display: Display,
    store: Store)                // the preferences file, which outlives the engine

  /** A callback's outcome. */
  datatype Step = Ok(engine: Engine) | Threw(engine: Engine)

  /** The timer should run only while visible and interactive. */
  predicate ShouldTimerBeRunning(e: Engine)
  {
    e.face.visible && !e.face.ambient
  }

  /** `invalidate()`: ask the host for one more redraw. */
  function Invalidate(e: Engine): (r: Engine)
    ensures r.redraws == e.redraws + 1
    ensures r.(redraws := e.redraws) == e
  {
    e.(redraws := e.redraws + 1)
  }

  // ---------------------------------------------------------------------------
  // Creation

  /** The face and links of a newly created engine: hidden, interactive,
      anti-aliased, unregistered, and no host call made yet. */
  const NewFace := Face(false, false, false, true)
  const NewLinks := Links(false, false, [])

  /** `onCreate`: reads the stored weather triple and loads its bitmap. A store
      whose entries have the wrong types, or whose code has no icon, makes the
      creation throw. */
  function Create(store: Store): (r: Step)
    ensures r.Ok? <==> ReadWeather(store).Some? && !LoadBitmap(ReadWeather(store).value.code).UnmappedNonZero?
    ensures r.Ok? ==> r.engine.display.weather == ReadWeather(store).value
    ensures r.Ok? ==> (r.engine.display.bitmap.Some? <==> r.engine.display.weather.code != 0)
    ensures r.Ok? && r.engine.display.bitmap.Some? ==>
              ResourceFor(r.engine.display.weather.code) == r.engine.display.bitmap
    ensures r.engine.face == NewFace && |r.engine.queue| == 0 && r.engine.links == NewLinks
    ensures r.engine.store == store
  {
    var read := ReadWeather(store);
    var w := match read case Some(v) => v case None => DefaultWeather;
    var e := Engine(NewFace, [], 0, NewLinks, Display(w, None), store);
    if read.None? then Threw(e)
    else
      var l := LoadBitmap(w.code);
      if l.UnmappedNonZero? then Threw(e)
      else Ok(e.(display := Display(w, BitmapOf(l))))
  }

  /** `onDestroy`: every pending update message is removed. */
  function OnDestroy(e: Engine): (r: Engine)
    ensures |r.queue| == 0
    ensures r.(queue := e.queue) == e
  {
    e.(queue := [])
  }

  // ---------------------------------------------------------------------------
  // The update timer

  /** `updateTimer`: remove every pending update message, then post one with no
      delay if the timer should be running. */
  function UpdateTimer(e: Engine): (r: Engine)
    ensures |r.queue| <= 1
    ensures |r.queue| == 1 <==> ShouldTimerBeRunning(e)
    ensures r.queue == [] || r.queue == [UpdateTime(0)]
    ensures r.(queue := e.queue) == e
  {
    e.(queue := if ShouldTimerBeRunning(e) then [UpdateTime(0)] else [])
  }

  /** `handleUpdateTimeMessage`: always redraw, and re-arm with the delay to the
      next second boundary only while the timer should be running. */
  function HandleUpdateTimeMessage(e: Engine, now: int): (r: Engine)
    ensures r.redraws == e.redraws + 1
    ensures ShouldTimerBeRunning(e) ==> r.queue == e.queue + [UpdateTime(NextTickDelay(now))]
    ensures !ShouldTimerBeRunning(e) ==> r.queue == e.queue
    ensures r.(queue := e.queue, redraws := e.redraws) == e
  {
    var e1 := Invalidate(e);
    if ShouldTimerBeRunning(e1) then e1.(queue := e1.queue + [UpdateTime(NextTickDelay(now))]) else e1
  }

  /** `EngineHandler.handleMessage`: the host delivers the head of the queue at
      wall-clock time `now`; the handler reaches the engine only while the weak
      reference to it is still set. With nothing queued there is nothing to
      deliver. */
  function DeliverUpdate(e: Engine, now: int, engineAlive: bool): (r: Engine)
    ensures |e.queue| == 0 ==> r == e
    ensures |e.queue| > 0 && !engineAlive ==> r == e.(queue := e.queue[1..])
    ensures |e.queue| > 0 && engineAlive ==>
              && r.redraws == e.redraws + 1
              && |r.queue| == |e.queue| - 1 + (if ShouldTimerBeRunning(e) then 1 else 0)
              && r.queue[..|e.queue| - 1] == e.queue[1..]
    ensures r.face == e.face && r.links == e.links && r.display == e.display && r.store == e.store
  {
    if |e.queue| == 0 then e
    else
      var e1 := e.(queue := e.queue[1..]);
      if engineAlive then HandleUpdateTimeMessage(e1, now) else e1
  }

  // ---------------------------------------------------------------------------
  // Receiver and connection registration

  /** `registerReceiver`: only the first call after an unregister registers the
      time-zone receiver and connects the client. */
  function RegisterReceiver(l: Links): (r: Links)
    ensures r.receiverRegistered
    ensures l.receiverRegistered ==> r == l
    ensures !l.receiverRegistered ==> r.calls == l.calls + [RegisterTimeZoneReceiver, Connect]
    ensures r.resolvingError == l.resolvingError
  {
    if l.receiverRegistered then l
    else l.(receiverRegistered := true, calls := l.calls + [RegisterTimeZoneReceiver, Connect])
  }

  /** `unregisterReceiver`: only the first call after a register unregisters the
      receiver, removes the data listener and disconnects the client. */
  function UnregisterReceiver(l: Links): (r: Links)
    ensures !r.receiverRegistered
    ensures !l.receiverRegistered ==> r == l
    ensures l.receiverRegistered ==>
              r.calls == l.calls + [UnregisterTimeZoneReceiver, RemoveDataListener, Disconnect]
    ensures r.resolvingError == l.resolvingError
  {
    if !l.receiverRegistered then l
    else l.(receiverRegistered := false,
            calls := l.calls + [UnregisterTimeZoneReceiver, RemoveDataListener, Disconnect])
  }

  // ---------------------------------------------------------------------------
  // Lifecycle callbacks

  /** `onVisibilityChanged`: on becoming visible register and redraw, otherwise
      unregister; then re-evaluate the timer. */
  function OnVisibilityChanged(e: Engine, visible: bool): (r: Engine)
    ensures r.face == e.face.(visible := visible)
    ensures r.links == if visible then RegisterReceiver(e.links) else UnregisterReceiver(e.links)
    ensures r.links.receiverRegistered == visible
    ensures |r.queue| == (if visible && !e.face.ambient then 1 else 0)
    ensures r.redraws == e.redraws + (if visible then 1 else 0)
    ensures r.display == e.display && r.store == e.store
  {
    var e1 := e.(face := e.face.(visible := visible));
    var e2 := if visible then Invalidate(e1.(links := RegisterReceiver(e1.links)))
              else e1.(links := UnregisterReceiver(e1.links));
    UpdateTimer(e2)
  }

  /** `onAmbientModeChanged`: a real change of mode is recorded, switches
      anti-aliasing on low-bit displays and redraws; the timer is re-evaluated
      in every case. */
  function OnAmbientModeChanged(e: Engine, inAmbientMode: bool): (r: Engine)
    ensures r.face.ambient == inAmbientMode
    ensures r.face.visible == e.face.visible && r.face.lowBitAmbient == e.face.lowBitAmbient
    ensures r.redraws == e.redraws + (if e.face.ambient != inAmbientMode then 1 else 0)
    ensures r.face.antiAlias ==
              if e.face.ambient != inAmbientMode && e.face.lowBitAmbient then !inAmbientMode else e.face.antiAlias
    ensures |r.queue| == (if e.face.visible && !inAmbientMode then 1 else 0)
    ensures r.links == e.links && r.display == e.display && r.store == e.store
  {
    var f := e.face;
    var e1 :=
      if f.ambient != inAmbientMode then
        Invalidate(e.(face := f.(ambient := inAmbientMode,
                                 antiAlias := if f.lowBitAmbient then !inAmbientMode else f.antiAlias)))
      else e;
    UpdateTimer(e1)
  }

  /** `onPropertiesChanged`: records whether the display is low-bit in ambient. */
  function OnPropertiesChanged(e: Engine, lowBitAmbient: bool): (r: Engine)
    ensures r.face.lowBitAmbient == lowBitAmbient
    ensures r.(face := r.face.(lowBitAmbient := e.face.lowBitAmbient)) == e
  {
    e.(face := e.face.(lowBitAmbient := lowBitAmbient))
  }

  /** `onTimeTick` (once a minute in ambient): redraw. */
  function OnTimeTick(e: Engine): (r: Engine)
    ensures r.redraws == e.redraws + 1
    ensures r.(redraws := e.redraws) == e
  {
    Invalidate(e)
  }

  /** The time-zone receiver fires only while registered, and then redraws. */
  function OnTimeZoneChanged(e: Engine): (r: Engine)
    ensures r.redraws == e.redraws + (if e.links.receiverRegistered then 1 else 0)
    ensures r.(redraws := e.redraws) == e
  {
    if e.links.receiverRegistered then Invalidate(e) else e
  }

  // ---------------------------------------------------------------------------
  // Companion sync connection

  /** `onConnected`: clears the error flag and adds the data listener. */
  function OnConnected(l: Links): (r: Links)
    ensures !r.resolvingError && r.calls == l.calls + [AddDataListener]
    ensures r.receiverRegistered == l.receiverRegistered
  {
    l.(resolvingError := false, calls := l.calls + [AddDataListener])
  }

  /** `onConnectionFailed`: retry once when the failure has a resolution,
      otherwise stop listening. */
  function OnConnectionFailed(l: Links, hasResolution: bool): (r: Links)
    ensures l.resolvingError ==> r == l
    ensures !l.resolvingError ==> r.calls == l.calls + [if hasResolution then Connect else RemoveDataListener]
    ensures !r.resolvingError || r == l
    ensures r.receiverRegistered == l.receiverRegistered
  {
    if l.resolvingError then l
    else if hasResolution then l.(calls := l.calls + [Connect])
    else l.(resolvingError := false, calls := l.calls + [RemoveDataListener])
  }

  // ---------------------------------------------------------------------------
  // Weather updates

  /** `onDataChanged`: every weather-update item overwrites the displayed
      triple, reloads the bitmap and persists the triple; other items are
      skipped. Loading the bitmap for an uncovered code throws after the
      in-memory fields were set and before the store is written, and the
      remaining items are not processed. */
  function OnDataChanged(e: Engine, events: seq<DataEvent>): (r: Step)
    ensures r.engine.face == e.face && r.engine.queue == e.queue && r.engine.redraws == e.redraws
    ensures r.engine.links == e.links
    decreases |events|
  {
    if |events| == 0 then Ok(e)
    else
      var ev := events[0];
      if ev.path != WeatherPath then OnDataChanged(e, events[1..])
      else
        var w := Weather(ev.high, ev.low, ev.code);
        var l := LoadBitmap(ev.code);
        if l.UnmappedNonZero? then Threw(e.(display := Display(w, e.display.bitmap)))
        else OnDataChanged(e.(display := Display(w, BitmapOf(l)), store := PutWeather(e.store, w)), events[1..])
  }

  // ---------------------------------------------------------------------------
  // Any callback

  datatype Callback =
    | VisibilityChanged(visible: bool)
    | AmbientModeChanged(inAmbientMode: bool)
    | PropertiesChanged(lowBitAmbient: bool)
    | TimeTick
    | TimeZoneChanged
    | UpdateDelivered(now: int, engineAlive: bool)
    | Connected
    | ConnectionSuspended
    | ConnectionFailed(hasResolution: bool)
    | DataChanged(events: seq<DataEvent>)
    | Destroy

  function Apply(e: Engine, c: Callback): Step
  {
    match c
    case VisibilityChanged(v) => Ok(OnVisibilityChanged(e, v))
    case AmbientModeChanged(a) => Ok(OnAmbientModeChanged(e, a))
    case PropertiesChanged(b) => Ok(OnPropertiesChanged(e, b))
    case TimeTick => Ok(OnTimeTick(e))
    case TimeZoneChanged => Ok(OnTimeZoneChanged(e))
    case UpdateDelivered(now, alive) => Ok(DeliverUpdate(e, now, alive))
    case Connected => Ok(e.(links := OnConnected(e.links)))
    case ConnectionSuspended => Ok(e)
    case ConnectionFailed(h) => Ok(e.(links := OnConnectionFailed(e.links, h)))
    case DataChanged(events) => OnDataChanged(e, events)
    case Destroy => Ok(OnDestroy(e))
  }

  /** Runs callbacks in order, stopping at the first that throws. */
  function Run(e: Engine, cs: seq<Callback>): Step
    decreases |cs|
  {
    if |cs| == 0 then Ok(e)
    else
      match Apply(e, cs[0])
      case Ok(e1) => Run(e1, cs[1..])
      case Threw(e1) => Threw(e1)
  }
}
