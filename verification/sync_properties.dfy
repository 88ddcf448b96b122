/** Properties of weather-update ingestion: the last weather item of a change
    notification wins, in memory and in the store; other items change nothing;
    a later start-up reads back what was stored; and, since a throwing item is
    never stored, a restart never throws because of an update. */
module SyncProperties {
  import opened Wrappers
  import opened WeatherIcon
  import opened Preferences
  import opened WatchEngine

  predicate IsWeatherItem(ev: DataEvent)
  {
    ev.path == WeatherPath
  }

  function WeatherOf(ev: DataEvent): Weather
  {
    Weather(ev.high, ev.low, ev.code)
  }

  /** The triple of the last weather item of `events`, if there is one. */
  function LastWeather(events: seq<DataEvent>): Option<Weather>
    decreases |events|
  {
    if |events| == 0 then None
    else
      var later := LastWeather(events[1..]);
      if later.Some? then later
      else if IsWeatherItem(events[0]) then Some(WeatherOf(events[0]))
      else None
  }

  /** Every weather item carries a code whose bitmap loads without throwing. */
  predicate Covered(events: seq<DataEvent>)
  {
    forall i :: 0 <= i < |events| && IsWeatherItem(events[i]) ==> !LoadBitmap(events[i].code).UnmappedNonZero?
  }

  /** A store the engine can be created from without throwing. */
  predicate SafeStore(store: Store)
  {
    Create(store).Ok?
  }

  lemma CoveredTail(events: seq<DataEvent>)
    requires |events| > 0 && Covered(events)
    ensures Covered(events[1..])
  {
    forall i | 0 <= i < |events[1..]| && IsWeatherItem(events[1..][i])
      ensures !LoadBitmap(events[1..][i].code).UnmappedNonZero?
    {
      assert events[1..][i] == events[i + 1];
    }
  }

  /** With every weather item covered, the notification is handled without
      throwing; with no weather item the engine is unchanged; otherwise the
      last item's triple is shown, its bitmap loaded, and it alone is stored. */
  lemma {:induction false} LastWeatherItemWins(e: Engine, events: seq<DataEvent>)
    requires Covered(events)
    ensures OnDataChanged(e, events).Ok?
    ensures LastWeather(events).None? ==> OnDataChanged(e, events).engine == e
    ensures LastWeather(events).Some? ==>
              var w := LastWeather(events).value;
              OnDataChanged(e, events).engine
                == e.(display := Display(w, BitmapOf(LoadBitmap(w.code))), store := PutWeather(e.store, w))
    decreases |events|
  {
    if |events| > 0 {
      CoveredTail(events);
      var ev := events[0];
      if !IsWeatherItem(ev) {
        LastWeatherItemWins(e, events[1..]);
      } else {
        var w0 := WeatherOf(ev);
        var e1 := e.(display := Display(w0, BitmapOf(LoadBitmap(ev.code))), store := PutWeather(e.store, w0));
        assert !LoadBitmap(events[0].code).UnmappedNonZero?;
        assert OnDataChanged(e, events) == OnDataChanged(e1, events[1..]);
        LastWeatherItemWins(e1, events[1..]);
        if LastWeather(events[1..]).Some? {
          PutOverwrites(e.store, w0, LastWeather(events[1..]).value);
        }
      }
    }
  }

  /** A notification without weather items changes nothing. */
  lemma OtherPathsIgnored(e: Engine, events: seq<DataEvent>)
    requires forall i :: 0 <= i < |events| ==> !IsWeatherItem(events[i])
    ensures OnDataChanged(e, events) == Ok(e)
  {
    assert LastWeather(events).None? by {
      NoWeatherNoLast(events);
    }
    LastWeatherItemWins(e, events);
  }

  lemma {:induction false} NoWeatherNoLast(events: seq<DataEvent>)
    requires forall i :: 0 <= i < |events| ==> !IsWeatherItem(events[i])
    ensures LastWeather(events).None?
    decreases |events|
  {
    if |events| > 0 {
      assert forall i :: 0 <= i < |events[1..]| ==> events[1..][i] == events[i + 1];
      NoWeatherNoLast(events[1..]);
    }
  }

  /** The notification throws exactly when some weather item's code has no icon. */
  lemma {:induction false} ThrowsIffUncovered(e: Engine, events: seq<DataEvent>)
    ensures OnDataChanged(e, events).Threw? <==> !Covered(events)
    decreases |events|
  {
    if |events| == 0 {
    } else if Covered(events) {
      LastWeatherItemWins(e, events);
    } else {
      var ev := events[0];
      if IsWeatherItem(ev) && LoadBitmap(ev.code).UnmappedNonZero? {
      } else {
        assert !Covered(events[1..]) by {
          var i :| 0 <= i < |events| && IsWeatherItem(events[i]) && LoadBitmap(events[i].code).UnmappedNonZero?;
          assert i > 0 && events[1..][i - 1] == events[i];
        }
        var e1 := if IsWeatherItem(ev)
                  then e.(display := Display(WeatherOf(ev), BitmapOf(LoadBitmap(ev.code))),
                          store := PutWeather(e.store, WeatherOf(ev)))
                  else e;
        assert OnDataChanged(e, events) == OnDataChanged(e1, events[1..]);
        ThrowsIffUncovered(e1, events[1..]);
      }
    }
  }

  /** An update never leaves a store the engine cannot start from: the item
      that throws is never written. */
  lemma {:induction false} UpdatesKeepStoreSafe(e: Engine, events: seq<DataEvent>)
    requires SafeStore(e.store)
    ensures SafeStore(OnDataChanged(e, events).engine.store)
    decreases |events|
  {
    if |events| > 0 {
      var ev := events[0];
      if IsWeatherItem(ev) && !LoadBitmap(ev.code).UnmappedNonZero? {
        var w := WeatherOf(ev);
        var e1 := e.(display := Display(w, BitmapOf(LoadBitmap(ev.code))), store := PutWeather(e.store, w));
        ReadAfterPut(e.store, w);
        assert OnDataChanged(e, events) == OnDataChanged(e1, events[1..]);
        UpdatesKeepStoreSafe(e1, events[1..]);
      } else if !IsWeatherItem(ev) {
        UpdatesKeepStoreSafe(e, events[1..]);
      }
    }
  }

  /** After a handled notification with weather items, a restart shows the
      last item's triple and its icon. */
  lemma RestartShowsLastUpdate(e: Engine, events: seq<DataEvent>)
    requires Covered(events) && LastWeather(events).Some?
    ensures Create(OnDataChanged(e, events).engine.store).Ok?
    ensures Create(OnDataChanged(e, events).engine.store).engine.display
              == OnDataChanged(e, events).engine.display
    ensures OnDataChanged(e, events).engine.display.weather == LastWeather(events).value
  {
    LastWeatherItemWins(e, events);
    var w := LastWeather(events).value;
    ReadAfterPut(e.store, w);
    LastWeatherIsCovered(events);
  }

  lemma {:induction false} LastWeatherIsCovered(events: seq<DataEvent>)
    requires Covered(events) && LastWeather(events).Some?
    ensures !LoadBitmap(LastWeather(events).value.code).UnmappedNonZero?
    decreases |events|
  {
    CoveredTail(events);
    if LastWeather(events[1..]).Some? {
      LastWeatherIsCovered(events[1..]);
    }
  }

  /** On a fresh install the engine starts with empty temperatures, code 0 and
      no bitmap. */
  lemma FreshInstallDefaults()
    ensures Create(map[]).Ok?
    ensures Create(map[]).engine.display == Display(DefaultWeather, None)
  {
    ReadEmptyStore();
  }
}
