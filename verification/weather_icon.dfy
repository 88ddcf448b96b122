/** The weather-condition code to icon mapping of the watch face engine.

    The engine keeps the code last received from the phone and picks a bundled
    drawable for it by an ordered chain of inclusive ranges, first match wins.
    A code of 0 means "no weather yet" and loads no bitmap; every other code is
    decoded, and a code that matched no range is decoded with resource id 0,
    which yields no bitmap and then fails when the engine scales it. */
module WeatherIcon {
  import opened Wrappers

  /** The bundled drawables the engine can choose from. */
  datatype Icon = Storm | LightRain | Rain | Snow | Fog | Clear | LightClouds | Cloudy

  /** The drawable chosen for a weather code by the if/else-if chain, or None
      when no branch matched (the resource id stays 0). */
  function ResourceFor(code: int): (r: Option<Icon>)
    ensures r == Some(Storm) <==> 200 <= code <= 232 || code == 781
    ensures r == Some(LightRain) <==> 300 <= code <= 321
    ensures r == Some(Rain) <==> 500 <= code <= 504 || 520 <= code <= 531
    ensures r == Some(Snow) <==> code == 511 || 600 <= code <= 622
    ensures r == Some(Fog) <==> 701 <= code <= 761
    ensures r == Some(Clear) <==> code == 800
    ensures r == Some(LightClouds) <==> code == 801
    ensures r == Some(Cloudy) <==> 802 <= code <= 804
  {
    if 200 <= code <= 232 then Some(Storm)
    else if 300 <= code <= 321 then Some(LightRain)
    else if 500 <= code <= 504 then Some(Rain)
    else if code == 511 then Some(Snow)
    else if 520 <= code <= 531 then Some(Rain)
    else if 600 <= code <= 622 then Some(Snow)
    else if 701 <= code <= 761 then Some(Fog)
    else if code == 761 || code == 781 then Some(Storm)
    else if code == 800 then Some(Clear)
    else if code == 801 then Some(LightClouds)
    else if 802 <= code <= 804 then Some(Cloudy)
    else None
  }

  /** What loading the bitmap for a code produces. */
  datatype Load =
    | NoBitmap              // code 0: the engine holds no bitmap
    | Bitmap(icon: Icon)    // the decoded (and scaled) drawable
    | UnmappedNonZero       // resource id 0 decodes to nothing; scaling it throws

  /** The outcome of loading the bitmap for `code`. */
  function LoadBitmap(code: int): (r: Load)
    ensures r == NoBitmap <==> code == 0
    ensures r == UnmappedNonZero <==> code != 0 && ResourceFor(code) == None
    ensures r.Bitmap? ==> ResourceFor(code) == Some(r.icon)
  {
    if code == 0 then NoBitmap
    else match ResourceFor(code)
      case Some(icon) => Bitmap(icon)
      case None => UnmappedNonZero
  }

  /** The loaded bitmap as the nullable field the engine keeps. */
  function BitmapOf(l: Load): Option<Icon>
  {
    if l.Bitmap? then Some(l.icon) else None
  }

  // ---------------------------------------------------------------------------
  // An independent reference definition: the mapping as an ordered table of
  // inclusive ranges evaluated top to bottom.

  /** One row of the table: codes in [lo, hi] map to `icon`. */
  datatype Row = Row(lo: int, hi: int, icon: Icon)

  predicate Matches(row: Row, code: int)
  {
    row.lo <= code <= row.hi
  }

  /** The rows in the order the engine tests them; "761 or 781" is two rows. */
  const IconTable: seq<Row> := [
    Row(200, 232, Storm),
    Row(300, 321, LightRain),
    Row(500, 504, Rain),
    Row(511, 511, Snow),
    Row(520, 531, Rain),
    Row(600, 622, Snow),
    Row(701, 761, Fog),
    Row(761, 761, Storm),
    Row(781, 781, Storm),
    Row(800, 800, Clear),
    Row(801, 801, LightClouds),
    Row(802, 804, Cloudy)
  ]

  /** The icon of the first row of `table` that matches `code`. */
  function FirstMatch(table: seq<Row>, code: int): Option<Icon>
  {
    if |table| == 0 then None
    else if Matches(table[0], code) then Some(table[0].icon)
    else FirstMatch(table[1..], code)
  }

  /** First-match semantics: the result is the icon of a matching row that no
      earlier row shadows, and None exactly when no row matches. */
  lemma {:induction false} FirstMatchIsFirst(table: seq<Row>, code: int)
    ensures FirstMatch(table, code).None? <==> forall i :: 0 <= i < |table| ==> !Matches(table[i], code)
    ensures FirstMatch(table, code).Some? ==>
              exists i :: 0 <= i < |table| && Matches(table[i], code)
                          && table[i].icon == FirstMatch(table, code).value
                          && forall j :: 0 <= j < i ==> !Matches(table[j], code)
  {
    if |table| == 0 {
    } else if Matches(table[0], code) {
      assert Matches(table[0], code) && table[0].icon == FirstMatch(table, code).value;
    } else {
      var rest := table[1..];
      FirstMatchIsFirst(rest, code);
      assert forall i :: 1 <= i < |table| ==> table[i] == rest[i - 1];
      if FirstMatch(rest, code).Some? {
        var i :| 0 <= i < |rest| && Matches(rest[i], code) && rest[i].icon == FirstMatch(rest, code).value
                 && forall j :: 0 <= j < i ==> !Matches(rest[j], code);
        assert Matches(table[i + 1], code) && forall j :: 0 <= j < i + 1 ==> !Matches(table[j], code);
      }
    }
  }

  /** A row is shadowed when every code it matches is taken by an earlier row. */
  ghost predicate Shadowed(table: seq<Row>, k: int)
    requires 0 <= k < |table|
  {
    forall code :: Matches(table[k], code) ==> exists j :: 0 <= j < k && Matches(table[j], code)
  }

  /** The second half of the table, from the fog row on. */
  lemma TableFromFog(code: int)
    ensures FirstMatch(IconTable[6..], code) ==
              if 701 <= code <= 761 then Some(Fog)
              else if code == 761 || code == 781 then Some(Storm)
              else if code == 800 then Some(Clear)
              else if code == 801 then Some(LightClouds)
              else if 802 <= code <= 804 then Some(Cloudy)
              else None
  {
    var t := IconTable;
    assert FirstMatch(t[11..], code) == (if 802 <= code <= 804 then Some(Cloudy) else None);
    assert FirstMatch(t[10..], code) == (if code == 801 then Some(LightClouds) else FirstMatch(t[11..], code));
    assert FirstMatch(t[9..], code) == (if code == 800 then Some(Clear) else FirstMatch(t[10..], code));
    assert FirstMatch(t[8..], code) == (if code == 781 then Some(Storm) else FirstMatch(t[9..], code));
    assert FirstMatch(t[7..], code) == (if code == 761 then Some(Storm) else FirstMatch(t[8..], code));
    assert FirstMatch(t[6..], code) == (if 701 <= code <= 761 then Some(Fog) else FirstMatch(t[7..], code));
  }

  /** The if/else-if chain and the ordered table agree on every code. */
  lemma ChainAgreesWithTable(code: int)
    ensures ResourceFor(code) == FirstMatch(IconTable, code)
  {
    var t := IconTable;
    TableFromFog(code);
    assert FirstMatch(t[5..], code) == (if 600 <= code <= 622 then Some(Snow) else FirstMatch(t[6..], code));
    assert FirstMatch(t[4..], code) == (if 520 <= code <= 531 then Some(Rain) else FirstMatch(t[5..], code));
    assert FirstMatch(t[3..], code) == (if code == 511 then Some(Snow) else FirstMatch(t[4..], code));
    assert FirstMatch(t[2..], code) == (if 500 <= code <= 504 then Some(Rain) else FirstMatch(t[3..], code));
    assert FirstMatch(t[1..], code) == (if 300 <= code <= 321 then Some(LightRain) else FirstMatch(t[2..], code));
    assert FirstMatch(t, code) == (if 200 <= code <= 232 then Some(Storm) else FirstMatch(t[1..], code));
  }

  /** The exact-value storm test for 761 can never fire: the fog range before it
      already takes 761, so the storm branch is reachable only for 781. */
  lemma StormFor761IsShadowed()
    ensures IconTable[7] == Row(761, 761, Storm)
    ensures Shadowed(IconTable, 7)
    ensures forall code :: ResourceFor(code) == Some(Storm) && !(200 <= code <= 232) ==> code == 781
  {
    forall code | Matches(IconTable[7], code)
      ensures exists j :: 0 <= j < 7 && Matches(IconTable[j], code)
    {
      assert Matches(IconTable[6], code);
    }
  }

  /** A bitmap is missing exactly for code 0; every other code is decoded, and
      the decode fails exactly for the codes the table does not cover. */
  lemma LoadFailsExactlyOffTable(code: int)
    ensures LoadBitmap(code).NoBitmap? <==> code == 0
    ensures LoadBitmap(code).UnmappedNonZero? <==>
              code != 0 && forall i :: 0 <= i < |IconTable| ==> !Matches(IconTable[i], code)
    ensures LoadBitmap(code).Bitmap? ==> FirstMatch(IconTable, code) == Some(LoadBitmap(code).icon)
  {
    ChainAgreesWithTable(code);
    FirstMatchIsFirst(IconTable, code);
  }
}
