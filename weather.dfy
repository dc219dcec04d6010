/** The weather collector (weather/get_data.py): every `time_delay` seconds,
    request the current weather and the UV index for one location, build a
    26-field row matching the table schema, and insert it. A failed weather
    request or a missing required field skips the cycle; a request that
    raises, or a non-dictionary `rain` or `snow`, ends the loop; a failed UV request
    only fills the UV fields with `-1` and `''`; every cycle sleeps until the
    next multiple of `time_delay` after the start, so delays do not drift. */
module WeatherCollector {
  import opened Json

  /** Seconds between cycles. */
  const TIME_DELAY: int := 600

  datatype FieldType = FloatField | StringField | IntegerField

  /** The table's columns. */
  datatype Column =
    | Lat
    | Lon
    | WeatherMain
    | WeatherDescription
    | Temp
    | Pressure
    | Humidity
    | TempMin
    | TempMax
    | PressureSeaLevel
    | PressureGrndLevel
    | WindSpeed
    | WindDeg
    | Cloudiness
    | Rain1h
    | Rain3h
    | Snow1h
    | Snow3h
    | Country
    | Sunrise
    | Sunset
    | CityId
    | CityName
    | Uv
    | DateIso
    | Dt

  /** The column's name in the table. */
  function ColumnName(c: Column): string
  {
    match c
    case Lat => "lat"
    case Lon => "lon"
    case WeatherMain => "weather_main"
    case WeatherDescription => "weather_description"
    case Temp => "temp"
    case Pressure => "pressure"
    case Humidity => "humidity"
    case TempMin => "temp_min"
    case TempMax => "temp_max"
    case PressureSeaLevel => "pressure_sea_level"
    case PressureGrndLevel => "pressure_grnd_level"
    case WindSpeed => "wind_speed"
    case WindDeg => "wind_deg"
    case Cloudiness => "cloudiness"
    case Rain1h => "rain_1h"
    case Rain3h => "rain_3h"
    case Snow1h => "snow_1h"
    case Snow3h => "snow_3h"
    case Country => "country"
    case Sunrise => "sunrise"
    case Sunset => "sunset"
    case CityId => "city_id"
    case CityName => "city_name"
    case Uv => "uv"
    case DateIso => "date_iso"
    case Dt => "dt"
  }

  /** No two columns share a name. */
  lemma ColumnNamesDistinct(c: Column, d: Column)
    ensures ColumnName(c) == ColumnName(d) ==> c == d
  {
  }

  datatype SchemaField = SchemaField(column: Column, fieldType: FieldType)

  /** The table's columns, in row order. */
  const TABLE_SCHEMA: seq<SchemaField> := [
    SchemaField(Lat, FloatField),
    SchemaField(Lon, FloatField),
    SchemaField(WeatherMain, StringField),
    SchemaField(WeatherDescription, StringField),
    SchemaField(Temp, FloatField),
    SchemaField(Pressure, FloatField),
    SchemaField(Humidity, FloatField),
    SchemaField(TempMin, FloatField),
    SchemaField(TempMax, FloatField),
    SchemaField(PressureSeaLevel, FloatField),
    SchemaField(PressureGrndLevel, FloatField),
    SchemaField(WindSpeed, FloatField),
    SchemaField(WindDeg, FloatField),
    SchemaField(Cloudiness, FloatField),
    SchemaField(Rain1h, IntegerField),
    SchemaField(Rain3h, IntegerField),
    SchemaField(Snow1h, IntegerField),
    SchemaField(Snow3h, IntegerField),
    SchemaField(Country, StringField),
    SchemaField(Sunrise, StringField),
    SchemaField(Sunset, StringField),
    SchemaField(CityId, StringField),
    SchemaField(CityName, StringField),
    SchemaField(Uv, FloatField),
    SchemaField(DateIso, StringField),
    SchemaField(Dt, IntegerField)]

  /** The column's position in the schema and the row. */
  function SchemaIndex(c: Column): nat
  {
    match c
    case Lat => 0
    case Lon => 1
    case WeatherMain => 2
    case WeatherDescription => 3
    case Temp => 4
    case Pressure => 5
    case Humidity => 6
    case TempMin => 7
    case TempMax => 8
    case PressureSeaLevel => 9
    case PressureGrndLevel => 10
    case WindSpeed => 11
    case WindDeg => 12
    case Cloudiness => 13
    case Rain1h => 14
    case Rain3h => 15
    case Snow1h => 16
    case Snow3h => 17
    case Country => 18
    case Sunrise => 19
    case Sunset => 20
    case CityId => 21
    case CityName => 22
    case Uv => 23
    case DateIso => 24
    case Dt => 25
  }

  /** `SchemaIndex` finds every column in the schema. */
  lemma SchemaIndexFinds(c: Column)
    ensures SchemaIndex(c) < |TABLE_SCHEMA| && TABLE_SCHEMA[SchemaIndex(c)].column == c
  {
  }

  /** The schema lists every column once: position `i` holds the column whose
      index is `i`. */
  lemma SchemaIndexInverts(i: int)
    requires 0 <= i < |TABLE_SCHEMA|
    ensures SchemaIndex(TABLE_SCHEMA[i].column) == i
  {
  }

  /** The table's column names are pairwise distinct. */
  lemma SchemaNamesDistinct(i: int, j: int)
    requires 0 <= i < j < |TABLE_SCHEMA|
    ensures ColumnName(TABLE_SCHEMA[i].column) != ColumnName(TABLE_SCHEMA[j].column)
  {
    SchemaIndexInverts(i);
    SchemaIndexInverts(j);
    ColumnNamesDistinct(TABLE_SCHEMA[i].column, TABLE_SCHEMA[j].column);
  }

  /** The sentinel for an absent optional number. */
  const MISSING_NUMBER: Json := Num(-1.0)
  /** The sentinel for an absent optional string. */
  const MISSING_STRING: Json := Str("")

  /** A reply of `requests.get`: whether it is `ok`, its status, its JSON body. */
  datatype Response = Response(ok: bool, status: int, body: Object)

  /** The drift-free wait: `time_delay - ((now - start_time) % time_delay)` in
      whole seconds. It is positive, at most one period, and wakes the loop on
      a multiple of the period after the start. */
  function Wait(delay: int, now: int, start: int): (w: int)
    requires delay > 0
    ensures 0 < w <= delay
    ensures now + w - start == ((now - start) / delay + 1) * delay
  {
    var elapsed := now - start;
    assert elapsed == (elapsed / delay) * delay + elapsed % delay;
    delay - elapsed % delay
  }

  /** A cycle that takes 5 seconds out of a 600-second period sleeps 595
      seconds, so the next cycle starts 600 seconds after this one. */
  lemma FiveSecondCycleSleeps595(start: int)
    ensures Wait(TIME_DELAY, start + 5, start) == 595
  {
  }

  /** The UV fields (lines 74-83): `-1` and `''`, replaced by the reply's
      `value` and `date_iso` (with the same defaults) when the request is ok. */
  function UvFields(uv: Response): (Json, Json)
  {
    if uv.ok then (GetOr(uv.body, "value", MISSING_NUMBER), GetOr(uv.body, "date_iso", MISSING_STRING))
    else (MISSING_NUMBER, MISSING_STRING)
  }

  /** `weather_data[key].get(sub, -1) if key in weather_data else -1` (lines
      89-92, outside the `try`): fails only when `key` holds a non-dictionary. */
  function Precipitation(w: Object, key: string, sub: string): Result<Json>
  {
    if key in w then GetOf(w[key], sub, MISSING_NUMBER) else Ok(MISSING_NUMBER)
  }

  /** `rain_1h, rain_3h, snow_1h, snow_3h`, computed in that order. */
  function Precipitations(w: Object): (r: Result<seq<Json>>)
    ensures r.Ok? ==> |r.value| == 4
  {
    var rain1h :- Precipitation(w, "rain", "1h");
    var rain3h :- Precipitation(w, "rain", "3h");
    var snow1h :- Precipitation(w, "snow", "1h");
    var snow3h :- Precipitation(w, "snow", "3h");
    Ok([rain1h, rain3h, snow1h, snow3h])
  }

  /** The row tuple of lines 95-119; any exception while building it is an `Err`. */
  function BuildRow(w: Object, precip: seq<Json>, uvValue: Json, uvDate: Json): Result<seq<Json>>
    requires |precip| == 4
  {
    var coord :- Member(w, "coord");
    var lat :- Field(coord, "lat");
    var lon :- Field(coord, "lon");
    var weather :- Member(w, "weather");
    var first :- At(weather, 0);
    var weatherMain :- Field(first, "main");
    var description :- Field(first, "description");
    var main :- Member(w, "main");
    var temp :- Field(main, "temp");
    var pressure :- Field(main, "pressure");
    var humidity :- Field(main, "humidity");
    var tempMin :- Field(main, "temp_min");
    var tempMax :- Field(main, "temp_max");
    var seaLevel :- GetOf(main, "sea_level", MISSING_NUMBER);
    var grndLevel :- GetOf(main, "grnd_level", MISSING_NUMBER);
    var wind :- Member(w, "wind");
    var speed :- Field(wind, "speed");
    var deg :- GetOf(wind, "deg", MISSING_NUMBER);
    var clouds :- Member(w, "clouds");
    var cloudiness :- Field(clouds, "all");
    var sys :- Member(w, "sys");
    var country :- Field(sys, "country");
    var sunrise :- Field(sys, "sunrise");
    var sunset :- Field(sys, "sunset");
    var cityId :- Member(w, "id");
    var cityName :- Member(w, "name");
    var dt :- Member(w, "dt");
    Ok([lat, lon, weatherMain, description, temp, pressure, humidity, tempMin, tempMax,
        seaLevel, grndLevel, speed, deg, cloudiness,
        precip[0], precip[1], precip[2], precip[3],
        country, sunrise, sunset, cityId, cityName, uvValue, uvDate, dt])
  }

  /** `x` is a dictionary holding every key of `keys`. */
  predicate HasKeys(x: Json, keys: set<string>) {
    x.Obj? && keys <= x.fields.Keys
  }

  /** The fields the row cannot do without, stated independently of `BuildRow`. */
  predicate HasRequiredFields(w: Object) {
    && "coord" in w && HasKeys(w["coord"], {"lat", "lon"})
    && "weather" in w && w["weather"].Arr? && |w["weather"].items| > 0
    && HasKeys(w["weather"].items[0], {"main", "description"})
    && "main" in w && HasKeys(w["main"], {"temp", "pressure", "humidity", "temp_min", "temp_max"})
    && "wind" in w && HasKeys(w["wind"], {"speed"})
    && "clouds" in w && HasKeys(w["clouds"], {"all"})
    && "sys" in w && HasKeys(w["sys"], {"country", "sunrise", "sunset"})
    && "id" in w && "name" in w && "dt" in w
  }

  /** `x[key]` where it exists, `None` elsewhere. */
  function Pick(x: Json, key: string): Json
  {
    if x.Obj? && key in x.fields then x.fields[key] else Null
  }

  /** `x.get(key, -1)` where `x` is a dictionary, `-1` elsewhere. */
  function PickOr(x: Json, key: string): Json
  {
    if x.Obj? then GetOr(x.fields, key, MISSING_NUMBER) else MISSING_NUMBER
  }

  /** `x[0]` where `x` is a non-empty list, `None` elsewhere. */
  function First(x: Json): Json
  {
    if x.Arr? && |x.items| > 0 then x.items[0] else Null
  }

  /** Where a column's value comes from. */
  datatype Source =
    | Key(key: string)                           // `weather_data[key]`
    | SubKey(key: string, sub: string)           // `weather_data[key][sub]`
    | FirstSubKey(key: string, sub: string)      // `weather_data[key][0][sub]`
    | OptionalSubKey(key: string, sub: string)   // `weather_data[key].get(sub, -1)`
    | Computed(index: nat)                       // precipitation value `index` (lines 89-92)
    | UvValueField                               // `uv_data_value`
    | UvDateField                                // `uv_data_iso_date`

  /** Each column's source key, as the tuple of lines 95-119 reads it. */
  function ColumnSource(c: Column): Source
  {
    match c
    case Lat => SubKey("coord", "lat")
    case Lon => SubKey("coord", "lon")
    case WeatherMain => FirstSubKey("weather", "main")
    case WeatherDescription => FirstSubKey("weather", "description")
    case Temp => SubKey("main", "temp")
    case Pressure => SubKey("main", "pressure")
    case Humidity => SubKey("main", "humidity")
    case TempMin => SubKey("main", "temp_min")
    case TempMax => SubKey("main", "temp_max")
    case PressureSeaLevel => OptionalSubKey("main", "sea_level")
    case PressureGrndLevel => OptionalSubKey("main", "grnd_level")
    case WindSpeed => SubKey("wind", "speed")
    case WindDeg => OptionalSubKey("wind", "deg")
    case Cloudiness => SubKey("clouds", "all")
    case Rain1h => Computed(0)
    case Rain3h => Computed(1)
    case Snow1h => Computed(2)
    case Snow3h => Computed(3)
    case Country => SubKey("sys", "country")
    case Sunrise => SubKey("sys", "sunrise")
    case Sunset => SubKey("sys", "sunset")
    case CityId => Key("id")
    case CityName => Key("name")
    case Uv => UvValueField
    case DateIso => UvDateField
    case Dt => Key("dt")
  }

  /** The value a source gives, with `None` where a required key is absent. */
  function SourceValue(w: Object, precip: seq<Json>, uvValue: Json, uvDate: Json, s: Source): Json
  {
    match s
    case Key(key) => Get(w, key)
    case SubKey(key, sub) => Pick(Get(w, key), sub)
    case FirstSubKey(key, sub) => Pick(First(Get(w, key)), sub)
    case OptionalSubKey(key, sub) => PickOr(Get(w, key), sub)
    case Computed(index) => if index < |precip| then precip[index] else Null
    case UvValueField => uvValue
    case UvDateField => uvDate
  }

  /** The value the reply gives for a column, looked up by that column's own
      source key. */
  function ColumnValue(w: Object, precip: seq<Json>, uvValue: Json, uvDate: Json, c: Column): Json
  {
    SourceValue(w, precip, uvValue, uvDate, ColumnSource(c))
  }

  /** Per-column values laid out in the order the tuple of lines 95-119 lists
      its fields. */
  function TupleOrder(f: Column -> Json): seq<Json>
  {
    [f(Lat), f(Lon), f(WeatherMain), f(WeatherDescription), f(Temp), f(Pressure), f(Humidity),
     f(TempMin), f(TempMax), f(PressureSeaLevel), f(PressureGrndLevel), f(WindSpeed), f(WindDeg),
     f(Cloudiness), f(Rain1h), f(Rain3h), f(Snow1h), f(Snow3h), f(Country), f(Sunrise), f(Sunset),
     f(CityId), f(CityName), f(Uv), f(DateIso), f(Dt)]
  }

  // The schema order, checked half by half to keep each proof small.
  lemma TupleOrderFirstHalf(f: Column -> Json)
    ensures |TupleOrder(f)| == |TABLE_SCHEMA| == 26
    ensures forall i :: 0 <= i < 13 ==> TupleOrder(f)[i] == f(TABLE_SCHEMA[i].column)
  {
  }

  lemma TupleOrderSecondHalf(f: Column -> Json)
    ensures |TupleOrder(f)| == |TABLE_SCHEMA| == 26
    ensures forall i :: 13 <= i < 26 ==> TupleOrder(f)[i] == f(TABLE_SCHEMA[i].column)
  {
  }

  /** The tuple lists its fields in schema order: position `i` holds the value
      of column `TABLE_SCHEMA[i]`. */
  lemma TupleOrderFollowsSchema(f: Column -> Json)
    ensures |TupleOrder(f)| == |TABLE_SCHEMA| == 26
    ensures forall i :: 0 <= i < |TABLE_SCHEMA| ==> TupleOrder(f)[i] == f(TABLE_SCHEMA[i].column)
  {
    TupleOrderFirstHalf(f);
    TupleOrderSecondHalf(f);
  }

  /** The row `BuildRow` produces when every required field is present: each
      column's value, in tuple order. */
  function RowOf(w: Object, precip: seq<Json>, uvValue: Json, uvDate: Json): seq<Json>
  {
    TupleOrder(c => ColumnValue(w, precip, uvValue, uvDate, c))
  }

  // Each column's value spelled out, a few columns per lemma to keep each
  // proof small.
  lemma CoordValues(w: Object, precip: seq<Json>, uvValue: Json, uvDate: Json)
    ensures ColumnValue(w, precip, uvValue, uvDate, Lat) == Pick(Get(w, "coord"), "lat")
    ensures ColumnValue(w, precip, uvValue, uvDate, Lon) == Pick(Get(w, "coord"), "lon")
  {
  }

  lemma WeatherValues(w: Object, precip: seq<Json>, uvValue: Json, uvDate: Json)
    ensures ColumnValue(w, precip, uvValue, uvDate, WeatherMain) == Pick(First(Get(w, "weather")), "main")
    ensures ColumnValue(w, precip, uvValue, uvDate, WeatherDescription) == Pick(First(Get(w, "weather")), "description")
  {
  }

  lemma MainValues(w: Object, precip: seq<Json>, uvValue: Json, uvDate: Json)
    ensures ColumnValue(w, precip, uvValue, uvDate, Temp) == Pick(Get(w, "main"), "temp")
    ensures ColumnValue(w, precip, uvValue, uvDate, Pressure) == Pick(Get(w, "main"), "pressure")
    ensures ColumnValue(w, precip, uvValue, uvDate, Humidity) == Pick(Get(w, "main"), "humidity")
  {
  }

  lemma TempRangeValues(w: Object, precip: seq<Json>, uvValue: Json, uvDate: Json)
    ensures ColumnValue(w, precip, uvValue, uvDate, TempMin) == Pick(Get(w, "main"), "temp_min")
    ensures ColumnValue(w, precip, uvValue, uvDate, TempMax) == Pick(Get(w, "main"), "temp_max")
  {
  }

  lemma PressureLevelValues(w: Object, precip: seq<Json>, uvValue: Json, uvDate: Json)
    ensures ColumnValue(w, precip, uvValue, uvDate, PressureSeaLevel) == PickOr(Get(w, "main"), "sea_level")
    ensures ColumnValue(w, precip, uvValue, uvDate, PressureGrndLevel) == PickOr(Get(w, "main"), "grnd_level")
  {
  }

  lemma WindCloudsValues(w: Object, precip: seq<Json>, uvValue: Json, uvDate: Json)
    ensures ColumnValue(w, precip, uvValue, uvDate, WindSpeed) == Pick(Get(w, "wind"), "speed")
    ensures ColumnValue(w, precip, uvValue, uvDate, WindDeg) == PickOr(Get(w, "wind"), "deg")
    ensures ColumnValue(w, precip, uvValue, uvDate, Cloudiness) == Pick(Get(w, "clouds"), "all")
  {
  }

  lemma RainValues(w: Object, precip: seq<Json>, uvValue: Json, uvDate: Json)
    requires |precip| == 4
    ensures ColumnValue(w, precip, uvValue, uvDate, Rain1h) == precip[0]
    ensures ColumnValue(w, precip, uvValue, uvDate, Rain3h) == precip[1]
  {
  }

  lemma SnowValues(w: Object, precip: seq<Json>, uvValue: Json, uvDate: Json)
    requires |precip| == 4
    ensures ColumnValue(w, precip, uvValue, uvDate, Snow1h) == precip[2]
    ensures ColumnValue(w, precip, uvValue, uvDate, Snow3h) == precip[3]
  {
  }

  lemma CountryValue(w: Object, precip: seq<Json>, uvValue: Json, uvDate: Json)
    ensures ColumnValue(w, precip, uvValue, uvDate, Country) == Pick(Get(w, "sys"), "country")
  {
  }

  lemma SunriseValue(w: Object, precip: seq<Json>, uvValue: Json, uvDate: Json)
    ensures ColumnValue(w, precip, uvValue, uvDate, Sunrise) == Pick(Get(w, "sys"), "sunrise")
  {
  }

  lemma SunsetValue(w: Object, precip: seq<Json>, uvValue: Json, uvDate: Json)
    ensures ColumnValue(w, precip, uvValue, uvDate, Sunset) == Pick(Get(w, "sys"), "sunset")
  {
  }

  lemma CityValues(w: Object, precip: seq<Json>, uvValue: Json, uvDate: Json)
    ensures ColumnValue(w, precip, uvValue, uvDate, CityId) == Get(w, "id")
    ensures ColumnValue(w, precip, uvValue, uvDate, CityName) == Get(w, "name")
  {
  }

  lemma UvDtValues(w: Object, precip: seq<Json>, uvValue: Json, uvDate: Json)
    ensures ColumnValue(w, precip, uvValue, uvDate, Uv) == uvValue
    ensures ColumnValue(w, precip, uvValue, uvDate, DateIso) == uvDate
    ensures ColumnValue(w, precip, uvValue, uvDate, Dt) == Get(w, "dt")
  {
  }

  /** Spelled out: the reply's values in tuple order, with `-1` for an absent
      `sea_level`, `grnd_level` or `wind.deg`. */
  lemma RowOfExplicit(w: Object, precip: seq<Json>, uvValue: Json, uvDate: Json)
    requires |precip| == 4
    ensures RowOf(w, precip, uvValue, uvDate) ==
              [Pick(Get(w, "coord"), "lat"), Pick(Get(w, "coord"), "lon"),
               Pick(First(Get(w, "weather")), "main"), Pick(First(Get(w, "weather")), "description"),
               Pick(Get(w, "main"), "temp"), Pick(Get(w, "main"), "pressure"), Pick(Get(w, "main"), "humidity"),
               Pick(Get(w, "main"), "temp_min"), Pick(Get(w, "main"), "temp_max"),
               PickOr(Get(w, "main"), "sea_level"), PickOr(Get(w, "main"), "grnd_level"),
               Pick(Get(w, "wind"), "speed"), PickOr(Get(w, "wind"), "deg"),
               Pick(Get(w, "clouds"), "all"),
               precip[0], precip[1], precip[2], precip[3],
               Pick(Get(w, "sys"), "country"), Pick(Get(w, "sys"), "sunrise"), Pick(Get(w, "sys"), "sunset"),
               Get(w, "id"), Get(w, "name"), uvValue, uvDate, Get(w, "dt")]
  {
    CoordValues(w, precip, uvValue, uvDate);
    WeatherValues(w, precip, uvValue, uvDate);
    MainValues(w, precip, uvValue, uvDate);
    TempRangeValues(w, precip, uvValue, uvDate);
    PressureLevelValues(w, precip, uvValue, uvDate);
    WindCloudsValues(w, precip, uvValue, uvDate);
    RainValues(w, precip, uvValue, uvDate);
    SnowValues(w, precip, uvValue, uvDate);
    CountryValue(w, precip, uvValue, uvDate);
    SunriseValue(w, precip, uvValue, uvDate);
    SunsetValue(w, precip, uvValue, uvDate);
    CityValues(w, precip, uvValue, uvDate);
    UvDtValues(w, precip, uvValue, uvDate);
  }

  /** With every required field present, the row is `RowOf`. */
  lemma BuildRowValue(w: Object, precip: seq<Json>, uvValue: Json, uvDate: Json)
    requires |precip| == 4 && HasRequiredFields(w)
    ensures BuildRow(w, precip, uvValue, uvDate) == Ok(RowOf(w, precip, uvValue, uvDate))
  {
    RowOfExplicit(w, precip, uvValue, uvDate);
    assert "lat" in w["coord"].fields && "lon" in w["coord"].fields;
    assert "main" in w["weather"].items[0].fields && "description" in w["weather"].items[0].fields;
    var main := w["main"].fields;
    assert "temp" in main && "pressure" in main && "humidity" in main && "temp_min" in main && "temp_max" in main;
    assert "speed" in w["wind"].fields && "all" in w["clouds"].fields;
    assert "country" in w["sys"].fields && "sunrise" in w["sys"].fields && "sunset" in w["sys"].fields;
  }

  /** Without some required field, building the row raises. */
  lemma BuildRowFailsWithoutRequired(w: Object, precip: seq<Json>, uvValue: Json, uvDate: Json)
    requires |precip| == 4 && !HasRequiredFields(w)
    ensures BuildRow(w, precip, uvValue, uvDate).Err?
  {
    if BuildRow(w, precip, uvValue, uvDate).Ok? {
      var coord := w["coord"];
      assert HasKeys(coord, {"lat", "lon"});
      var weather := w["weather"];
      var first := At(weather, 0).value;
      assert Field(first, "main").Ok?;
      assert weather.Arr? && |weather.items| > 0;
      assert HasKeys(weather.items[0], {"main", "description"});
      assert HasKeys(w["main"], {"temp", "pressure", "humidity", "temp_min", "temp_max"});
      assert HasKeys(w["wind"], {"speed"});
      assert HasKeys(w["clouds"], {"all"});
      assert HasKeys(w["sys"], {"country", "sunrise", "sunset"});
    }
  }

  /** The row is built iff every required field is there. */
  lemma BuildRowOkIff(w: Object, precip: seq<Json>, uvValue: Json, uvDate: Json)
    requires |precip| == 4
    ensures BuildRow(w, precip, uvValue, uvDate).Ok? <==> HasRequiredFields(w)
  {
    if HasRequiredFields(w) {
      BuildRowValue(w, precip, uvValue, uvDate);
    } else {
      BuildRowFailsWithoutRequired(w, precip, uvValue, uvDate);
    }
  }

  /** The built row has one field per schema column, and each field holds the
      value of the schema column at its position, looked up by that column's
      source key (with the `-1` and `''` defaults where the collector
      supplies them). */
  lemma RowMatchesSchema(w: Object, precip: seq<Json>, uvValue: Json, uvDate: Json)
    requires |precip| == 4 && HasRequiredFields(w)
    ensures BuildRow(w, precip, uvValue, uvDate).Ok?
    ensures |BuildRow(w, precip, uvValue, uvDate).value| == |TABLE_SCHEMA| == 26
    ensures forall i :: 0 <= i < |TABLE_SCHEMA| ==>
              BuildRow(w, precip, uvValue, uvDate).value[i] == ColumnValue(w, precip, uvValue, uvDate, TABLE_SCHEMA[i].column)
  {
    BuildRowValue(w, precip, uvValue, uvDate);
    TupleOrderFollowsSchema(c => ColumnValue(w, precip, uvValue, uvDate, c));
  }

  /** The four precipitation values are `-1` when the `rain`/`snow` key or its
      sub-key is absent and the given value otherwise; they fail (uncaught,
      ending the loop) only when `rain` or `snow` holds a non-dictionary. */
  lemma PrecipitationsMeaning(w: Object)
    ensures Precipitations(w).Ok? <==> ("rain" in w ==> w["rain"].Obj?) && ("snow" in w ==> w["snow"].Obj?)
    ensures Precipitations(w).Ok? ==>
              var p := Precipitations(w).value;
              && p[0] == (if "rain" in w then GetOr(w["rain"].fields, "1h", MISSING_NUMBER) else MISSING_NUMBER)
              && p[1] == (if "rain" in w then GetOr(w["rain"].fields, "3h", MISSING_NUMBER) else MISSING_NUMBER)
              && p[2] == (if "snow" in w then GetOr(w["snow"].fields, "1h", MISSING_NUMBER) else MISSING_NUMBER)
              && p[3] == (if "snow" in w then GetOr(w["snow"].fields, "3h", MISSING_NUMBER) else MISSING_NUMBER)
  {
  }

  /** All a cycle depends on: the two `requests.get` results (an `Err` when
      the call raises, e.g. on a connection error), whether the table accepts
      the row, and the clock when the cycle goes to sleep. */
  datatype CycleInput = CycleInput(weather: Result<Response>, uv: Result<Response>, insertAccepted: bool, now: int)

  /** What a cycle did before sleeping. */
  datatype Action =
    | WeatherRequestFailed(status: int)
    | RowIncomplete(error: Error)
    | Inserted(row: seq<Json>)
    | InsertRejected(row: seq<Json>)

  /** A cycle either sleeps `wait` seconds after its action, or raises out of
      the loop. */
  datatype CycleOutcome = Slept(action: Action, wait: int) | Crashed(error: Error)

  /** One iteration of the `while True` loop (lines 60-133). */
  function CycleSpec(input: CycleInput, startTime: int): CycleOutcome
  {
    match input.weather
    case Err(e) => Crashed(e)
    case Ok(weather) =>
      match input.uv
      case Err(e) => Crashed(e)
      case Ok(uv) =>
        var wait := Wait(TIME_DELAY, input.now, startTime);
        if !weather.ok then Slept(WeatherRequestFailed(weather.status), wait)
        else
          var (uvValue, uvDate) := UvFields(uv);
          match Precipitations(weather.body)
          case Err(e) => Crashed(e)
          case Ok(precip) =>
            match BuildRow(weather.body, precip, uvValue, uvDate)
            case Err(e) => Slept(RowIncomplete(e), wait)
            case Ok(row) => Slept(if input.insertAccepted then Inserted(row) else InsertRejected(row), wait)
  }

  /** Both requests returned a reply, and the weather reply is ok. */
  predicate WeatherOk(input: CycleInput) {
    input.weather.Ok? && input.uv.Ok? && input.weather.value.ok
  }

  /** A cycle raises out of the loop exactly when a request raises (the
      weather request's exception first) or, with an ok weather reply, a
      non-dictionary `rain`/`snow` makes a precipitation lookup raise. It
      tries to insert exactly when the weather reply is ok, the precipitation
      lookups succeed and every required field is present; a failed UV reply
      does not prevent the insert, it puts `-1` and `''` in the UV fields; and
      every cycle that does not crash sleeps until the next period boundary. */
  lemma CycleMeaning(input: CycleInput, startTime: int)
    ensures var o := CycleSpec(input, startTime);
            && (o.Crashed? <==>
                  input.weather.Err? || input.uv.Err? || (WeatherOk(input) && Precipitations(input.weather.value.body).Err?))
            && (input.weather.Err? ==> o == Crashed(input.weather.error))
            && (input.weather.Ok? && input.uv.Err? ==> o == Crashed(input.uv.error))
            && (o.Slept? ==>
                  && o.wait == Wait(TIME_DELAY, input.now, startTime)
                  && 0 < o.wait <= TIME_DELAY
                  && input.now + o.wait - startTime == ((input.now - startTime) / TIME_DELAY + 1) * TIME_DELAY)
            && (o.Slept? && o.action.WeatherRequestFailed? <==>
                  input.weather.Ok? && input.uv.Ok? && !input.weather.value.ok)
            && (o.Slept? && (o.action.Inserted? || o.action.InsertRejected?) <==>
                  && WeatherOk(input)
                  && Precipitations(input.weather.value.body).Ok?
                  && HasRequiredFields(input.weather.value.body))
            && (o.Slept? && o.action.Inserted? <==>
                  && WeatherOk(input)
                  && Precipitations(input.weather.value.body).Ok?
                  && HasRequiredFields(input.weather.value.body)
                  && input.insertAccepted)
            && (o.Slept? && (o.action.Inserted? || o.action.InsertRejected?) ==>
                  && |o.action.row| == |TABLE_SCHEMA|
                  && (!input.uv.value.ok ==> o.action.row[23] == MISSING_NUMBER && o.action.row[24] == MISSING_STRING)
                  && (input.uv.value.ok ==>
                        && o.action.row[23] == GetOr(input.uv.value.body, "value", MISSING_NUMBER)
                        && o.action.row[24] == GetOr(input.uv.value.body, "date_iso", MISSING_STRING)))
  {
    if WeatherOk(input) && Precipitations(input.weather.value.body).Ok? {
      var w := input.weather.value.body;
      var (uvValue, uvDate) := UvFields(input.uv.value);
      BuildRowOkIff(w, Precipitations(w).value, uvValue, uvDate);
      if HasRequiredFields(w) {
        RowMatchesSchema(w, Precipitations(w).value, uvValue, uvDate);
      }
    }
  }

  /** The row a cycle tries to insert is the reply's row: each column's value
      read from the weather reply, the precipitation lookups and the UV fields,
      in tuple order, so `RowMatchesSchema` gives every field's meaning. */
  lemma CycleRow(input: CycleInput, startTime: int)
    ensures var o := CycleSpec(input, startTime);
            o.Slept? && (o.action.Inserted? || o.action.InsertRejected?) ==>
              && WeatherOk(input)
              && Precipitations(input.weather.value.body).Ok?
              && HasRequiredFields(input.weather.value.body)
              && o.action.row == RowOf(input.weather.value.body, Precipitations(input.weather.value.body).value,
                                       UvFields(input.uv.value).0, UvFields(input.uv.value).1)
  {
    if WeatherOk(input) && Precipitations(input.weather.value.body).Ok? {
      var w := input.weather.value.body;
      var (uvValue, uvDate) := UvFields(input.uv.value);
      BuildRowOkIff(w, Precipitations(w).value, uvValue, uvDate);
      if HasRequiredFields(w) {
        BuildRowValue(w, Precipitations(w).value, uvValue, uvDate);
      }
    }
  }

  /** The rows a sequence of cycles inserted, in cycle order. */
  function InsertedRows(outcomes: seq<CycleOutcome>): seq<seq<Json>>
    decreases |outcomes|
  {
    if outcomes == [] then []
    else
      var o := outcomes[|outcomes| - 1];
      InsertedRows(outcomes[..|outcomes| - 1])
        + (if o.Slept? && o.action.Inserted? then [o.action.row] else [])
  }

  /** The table the rows are inserted into. */
  class Table {
    var rows: seq<seq<Json>>

    constructor ()
      ensures rows == []
    {
      rows := [];
    }

    /** `client.insert_rows(table, (row,))`; the service decides `accepted`.
        Returns whether there were errors. */
    method InsertRows(row: seq<Json>, accepted: bool) returns (errors: bool)
      modifies this
      ensures errors == !accepted
      ensures rows == old(rows) + (if accepted then [row] else [])
    {
      errors := !accepted;
      if accepted {
        rows := rows + [row];
      }
    }
  }

  /** One cycle, statement by statement; an insert error does not raise. */
  method RunCycle(table: Table, input: CycleInput, startTime: int) returns (outcome: CycleOutcome)
    modifies table
    ensures outcome == CycleSpec(input, startTime)
    ensures table.rows == old(table.rows) + InsertedRows([outcome])
  {
    if input.weather.Err? {
      return Crashed(input.weather.error);
    }
    var weatherReq := input.weather.value;
    if input.uv.Err? {
      return Crashed(input.uv.error);
    }
    var uvReq := input.uv.value;
    if !weatherReq.ok {
      outcome := Slept(WeatherRequestFailed(weatherReq.status), Wait(TIME_DELAY, input.now, startTime));
      return;
    }
    var uvValue := MISSING_NUMBER;
    var uvDate := MISSING_STRING;
    if uvReq.ok {
      uvValue := GetOr(uvReq.body, "value", MISSING_NUMBER);
      uvDate := GetOr(uvReq.body, "date_iso", MISSING_STRING);
    }
    var w := weatherReq.body;
    var rain1h := Precipitation(w, "rain", "1h");
    if rain1h.Err? {
      return Crashed(rain1h.error);
    }
    // `rain` is absent or a dictionary now, so the second lookup cannot raise
    var rain3h := Precipitation(w, "rain", "3h").value;
    var snow1h := Precipitation(w, "snow", "1h");
    if snow1h.Err? {
      return Crashed(snow1h.error);
    }
    var snow3h := Precipitation(w, "snow", "3h").value;
    var row := BuildRow(w, [rain1h.value, rain3h, snow1h.value, snow3h], uvValue, uvDate);
    if row.Err? {
      outcome := Slept(RowIncomplete(row.error), Wait(TIME_DELAY, input.now, startTime));
      return;
    }
    var errors := table.InsertRows(row.value, input.insertAccepted);
    var action := if !errors then Inserted(row.value) else InsertRejected(row.value);
    outcome := Slept(action, Wait(TIME_DELAY, input.now, startTime));
  }

  lemma InsertedRowsStep(outcomes: seq<CycleOutcome>, o: CycleOutcome)
    ensures InsertedRows(outcomes + [o]) == InsertedRows(outcomes) + InsertedRows([o])
  {
    assert (outcomes + [o])[..|outcomes|] == outcomes;
    assert [o][..0] == [];
  }

  /** `outcomes` are the outcomes of the cycles on the first inputs. */
  predicate RanOn(outcomes: seq<CycleOutcome>, inputs: seq<CycleInput>, startTime: int)
    requires |outcomes| <= |inputs|
  {
    forall i :: 0 <= i < |outcomes| ==> outcomes[i] == CycleSpec(inputs[i], startTime)
  }

  lemma RanOnStep(outcomes: seq<CycleOutcome>, inputs: seq<CycleInput>, startTime: int, outcome: CycleOutcome)
    requires |outcomes| < |inputs| && RanOn(outcomes, inputs, startTime)
    requires outcome == CycleSpec(inputs[|outcomes|], startTime)
    ensures RanOn(outcomes + [outcome], inputs, startTime)
  {
  }

  /** A bounded run of `get_weather_data`'s loop with a fixed `start_time`:
      cycle `i` runs on input `i`; skipped cycles and rejected inserts do not
      stop the loop, so every cycle but the last one slept, and the loop ends
      before its inputs run out only because its last cycle crashed. The
      table gains the inserted rows in cycle order. */
  method Poll(table: Table, inputs: seq<CycleInput>, startTime: int) returns (outcomes: seq<CycleOutcome>)
    modifies table
    ensures |outcomes| <= |inputs| && RanOn(outcomes, inputs, startTime)
    ensures forall i :: 0 <= i < |outcomes| - 1 ==> outcomes[i].Slept?
    ensures |outcomes| < |inputs| ==> outcomes != [] && outcomes[|outcomes| - 1].Crashed?
    ensures table.rows == old(table.rows) + InsertedRows(outcomes)
  {
    outcomes := [];
    while |outcomes| < |inputs| && (outcomes == [] || outcomes[|outcomes| - 1].Slept?)
      invariant |outcomes| <= |inputs| && RanOn(outcomes, inputs, startTime)
      invariant forall i :: 0 <= i < |outcomes| - 1 ==> outcomes[i].Slept?
      invariant table.rows == old(table.rows) + InsertedRows(outcomes)
      decreases |inputs| - |outcomes|
    {
      var outcome := RunCycle(table, inputs[|outcomes|], startTime);
      InsertedRowsStep(outcomes, outcome);
      RanOnStep(outcomes, inputs, startTime, outcome);
      outcomes := outcomes + [outcome];
    }
  }
}
