/** The two mock tools of the planner agent (3_build_and_deploy_agent.py),
    taking the parsed JSON files as values: `None` when the data file does
    not exist. They only format text. */
module Tools {
  import opened Options
  import opened Text

  // ---------------------------------------------------------------------------
  // mock_search_tourist_attractions

  datatype Attraction = Attraction(title: string, description: string)

  /** Descriptions are cut to this many characters. */
  const DescriptionLimit := 150

  // The three messages of the attractions tool keep their first word as a
  // literal of its own: the verifier reads the first character of a short
  // literal, which is how it tells the three messages apart.

  const AttractionsFileMissing :=
    "Error: " + "Attractions data file not found. Please make sure 'data/attractions.json' exists."

  function NoAttractions(city: string): string {
    "No " + "information available for tourist attractions in " + city + ". Try another city."
  }

  function AttractionsHeader(city: string): string {
    "Top " + "boating and swimming attractions in " + city + ":\n"
  }

  /** The line for the `n`-th attraction. */
  function AttractionLine(n: nat, a: Attraction): (r: string)
    ensures StartsWith(r, NatToDecimal(n) + ". " + a.title + ": ")
    ensures EndsWith(r, "...\n")
  {
    var head := NatToDecimal(n) + ". " + a.title + ": ";
    var r := head + Truncate(a.description, DescriptionLimit) + "...\n";
    assert r[..|head|] == head;
    r
  }

  /** One line per attraction, in input order, numbered from `first`. */
  function Listing(attractions: seq<Attraction>, first: nat): (lines: seq<string>)
    ensures |lines| == |attractions|
    ensures forall k :: 0 <= k < |lines| ==> lines[k] == AttractionLine(first + k, attractions[k])
  {
    if |attractions| == 0 then []
    else [AttractionLine(first, attractions[0])] + Listing(attractions[1..], first + 1)
  }

  function Concat(parts: seq<string>): string {
    if |parts| == 0 then "" else parts[0] + Concat(parts[1..])
  }

  function SearchTouristAttractions(data: Option<map<string, seq<Attraction>>>, city: string): (r: string)
    ensures data.None? <==> r == AttractionsFileMissing
    ensures r == NoAttractions(city) <==> data.Some? && Lower(city) !in data.value
    ensures data.Some? && Lower(city) in data.value ==>
              r == AttractionsHeader(city) + Concat(Listing(data.value[Lower(city)], 1))
  {
    assert AttractionsFileMissing[0] == 'E';
    assert NoAttractions(city)[0] == 'N';
    match data
    case None => AttractionsFileMissing
    case Some(table) =>
      if Lower(city) !in table then NoAttractions(city)
      else
        var r := AttractionsHeader(city) + Concat(Listing(table[Lower(city)], 1));
        assert r[0] == 'T';
        r
  }

  /** In the listing, attraction `k` (from 0) is announced as number `k + 1`,
      with the first 150 characters of its description. */
  lemma {:induction false} ListingNumbering(attractions: seq<Attraction>, k: nat)
    requires k < |attractions|
    ensures var line := Listing(attractions, 1)[k];
            var a := attractions[k];
            && StartsWith(line, NatToDecimal(k + 1) + ". " + a.title + ": ")
            && DecimalValue(NatToDecimal(k + 1)) == k + 1
            && line == NatToDecimal(k + 1) + ". " + a.title + ": "
                       + a.description[..if |a.description| < 150 then |a.description| else 150] + "...\n"
  {
    DecimalRoundTrip(k + 1);
  }

  // ---------------------------------------------------------------------------
  // mock_get_weather_forecast

  datatype Location = Location(name: string, country: string, localtime: string)

  /** `us-epa-index` as printed, and the integer it compares equal to in
      Python, if any (`1`, `1.0` and `True` all equal 1). */
  datatype AirQuality = AirQuality(epaText: string, epaValue: Option<int>)

  /** The `current` record; every value is given as the f-string prints it. */
  datatype Current = Current(
    temperature: string,
    weatherDescriptions: seq<string>,
    feelslike: string,
    humidity: string,
    windSpeed: string,
    windDir: string,
    pressure: string,
    visibility: string,
    uvIndex: string,
    precip: Option<string>,
    cloudcover: Option<string>,
    airQuality: Option<AirQuality>)

  datatype CityWeather = CityWeather(location: Location, current: Current)

  /** The kinds of line the forecast is made of, in the order printed. */
  datatype Field =
    | Heading | LocalTime | Temperature | Conditions | FeelsLike | Humidity
    | Wind | Pressure | Visibility | UvIndex | Precipitation | CloudCover | AirQualityBlock

  function Rank(f: Field): nat {
    match f
    case Heading => 0 case LocalTime => 1 case Temperature => 2 case Conditions => 3
    case FeelsLike => 4 case Humidity => 5 case Wind => 6 case Pressure => 7
    case Visibility => 8 case UvIndex => 9 case Precipitation => 10 case CloudCover => 11
    case AirQualityBlock => 12
  }

  datatype Section = Section(field: Field, text: string)

  const EpaNames: seq<string> :=
    ["Good", "Moderate", "Unhealthy for sensitive groups", "Unhealthy", "Very Unhealthy", "Hazardous"]

  /** The interpretation of the US EPA index, if it has one. */
  function EpaName(v: Option<int>): (r: Option<string>)
    ensures v.Some? && 1 <= v.value <= 6 ==> r == Some(EpaNames[v.value - 1])
    ensures !(v.Some? && 1 <= v.value <= 6) ==> r == None
  {
    if v == Some(1) then Some("Good")
    else if v == Some(2) then Some("Moderate")
    else if v == Some(3) then Some("Unhealthy for sensitive groups")
    else if v == Some(4) then Some("Unhealthy")
    else if v == Some(5) then Some("Very Unhealthy")
    else if v == Some(6) then Some("Hazardous")
    else None
  }

  /** What follows the printed index: the interpretation in parentheses, or
      only the line break. */
  function EpaLabel(v: Option<int>): string {
    match EpaName(v)
    case Some(name) => "(" + name + ")\n"
    case None => "\n"
  }

  const Degrees := "\U{b0}C"

  function JoinAll(parts: seq<string>, sep: string): string {
    if |parts| == 0 then "" else Join(parts, sep)
  }

  function OptionalSection(field: Field, text: Option<string>, caption: string, unit: string): (r: seq<Section>)
    ensures |r| == (if text.Some? then 1 else 0)
    ensures forall i :: 0 <= i < |r| ==> r[i].field == field
    ensures text.Some? ==> r[0].text == caption + text.value + unit + "\n"
  {
    match text
    case Some(t) => [Section(field, caption + t + unit + "\n")]
    case None => []
  }

  function AirQualitySection(aq: Option<AirQuality>): (r: seq<Section>)
    ensures |r| == (if aq.Some? then 1 else 0)
    ensures forall i :: 0 <= i < |r| ==> r[i].field == AirQualityBlock
    ensures aq.Some? ==> r[0].text == "\nAir Quality:\nUS EPA Index: " + aq.value.epaText + " " + EpaLabel(aq.value.epaValue)
  {
    match aq
    case Some(q) => [Section(AirQualityBlock, "\nAir Quality:\nUS EPA Index: " + q.epaText + " " + EpaLabel(q.epaValue))]
    case None => []
  }

  /** The ten lines every forecast has. */
  function BaseSections(w: CityWeather): (r: seq<Section>)
    ensures |r| == 10
    ensures forall i :: 0 <= i < |r| ==> Rank(r[i].field) == i
  {
    var l := w.location;
    var c := w.current;
    [
      Section(Heading, "Current weather in " + l.name + ", " + l.country + ":\n"),
      Section(LocalTime, "Local time: " + l.localtime + "\n"),
      Section(Temperature, "Temperature: " + c.temperature + Degrees + "\n"),
      Section(Conditions, "Weather: " + JoinAll(c.weatherDescriptions, ", ") + "\n"),
      Section(FeelsLike, "Feels like: " + c.feelslike + Degrees + "\n"),
      Section(Humidity, "Humidity: " + c.humidity + "%\n"),
      Section(Wind, "Wind: " + c.windSpeed + " km/h, " + c.windDir + "\n"),
      Section(Pressure, "Pressure: " + c.pressure + " mb\n"),
      Section(Visibility, "Visibility: " + c.visibility + " km\n"),
      Section(UvIndex, "UV Index: " + c.uvIndex + "\n")
    ]
  }

  /** The forecast, section by section: the ten fixed lines, then the
      precipitation, cloud cover and air quality sections, each present
      exactly when its key is in `current`. */
  function ForecastSections(w: CityWeather): (r: seq<Section>)
    ensures |r| >= 10 && r[..10] == BaseSections(w)
    ensures forall i, j :: 0 <= i < j < |r| ==> Rank(r[i].field) < Rank(r[j].field)
    ensures w.current.precip.Some? ==>
              Section(Precipitation, "Precipitation: " + w.current.precip.value + " mm\n") in r
    ensures w.current.cloudcover.Some? ==>
              Section(CloudCover, "Cloud cover: " + w.current.cloudcover.value + "%\n") in r
    ensures w.current.airQuality.Some? ==>
              var q := w.current.airQuality.value;
              Section(AirQualityBlock, "\nAir Quality:\nUS EPA Index: " + q.epaText + " " + EpaLabel(q.epaValue)) in r
    ensures (exists i :: 0 <= i < |r| && r[i].field == Precipitation) <==> w.current.precip.Some?
    ensures (exists i :: 0 <= i < |r| && r[i].field == CloudCover) <==> w.current.cloudcover.Some?
    ensures (exists i :: 0 <= i < |r| && r[i].field == AirQualityBlock) <==> w.current.airQuality.Some?
  {
    var c := w.current;
    var base := BaseSections(w);
    var precip := OptionalSection(Precipitation, c.precip, "Precipitation: ", " mm");
    var cloud := OptionalSection(CloudCover, c.cloudcover, "Cloud cover: ", "%");
    var air := AirQualitySection(c.airQuality);
    var r := base + precip + cloud + air;
    SectionRanks(base, precip, cloud, air);
    SectionsKept(base, precip, cloud, air);
    assert c.precip.Some? ==> "Precipitation: " + c.precip.value + " mm" + "\n" == "Precipitation: " + c.precip.value + " mm\n";
    assert c.cloudcover.Some? ==> "Cloud cover: " + c.cloudcover.value + "%" + "\n" == "Cloud cover: " + c.cloudcover.value + "%\n";
    r
  }

  /** Rank of a section in `base + precip + cloud + air`, position by position. */
  lemma SectionRanks(base: seq<Section>, precip: seq<Section>, cloud: seq<Section>, air: seq<Section>)
    requires |base| == 10 && forall i :: 0 <= i < 10 ==> Rank(base[i].field) == i
    requires |precip| <= 1 && forall i :: 0 <= i < |precip| ==> precip[i].field == Precipitation
    requires |cloud| <= 1 && forall i :: 0 <= i < |cloud| ==> cloud[i].field == CloudCover
    requires |air| <= 1 && forall i :: 0 <= i < |air| ==> air[i].field == AirQualityBlock
    ensures var r := base + precip + cloud + air;
            && (forall i, j :: 0 <= i < j < |r| ==> Rank(r[i].field) < Rank(r[j].field))
            && ((exists i :: 0 <= i < |r| && r[i].field == Precipitation) <==> |precip| == 1)
            && ((exists i :: 0 <= i < |r| && r[i].field == CloudCover) <==> |cloud| == 1)
            && ((exists i :: 0 <= i < |r| && r[i].field == AirQualityBlock) <==> |air| == 1)
  {
    var r := base + precip + cloud + air;
    var p := |precip|;
    var q := |cloud|;
    assert forall i :: 10 <= i < 10 + p ==> r[i] == precip[i - 10];
    assert forall i :: 10 + p <= i < 10 + p + q ==> r[i] == cloud[i - 10 - p];
    assert forall i :: 10 + p + q <= i < |r| ==> r[i] == air[i - 10 - p - q];
    assert forall i :: 0 <= i < 10 ==> r[i] == base[i];
    if p == 1 {
      assert r[10].field == Precipitation;
    }
    if q == 1 {
      assert r[10 + p].field == CloudCover;
    }
    if |air| == 1 {
      assert r[10 + p + q].field == AirQualityBlock;
    }
  }

  /** The fixed lines open the forecast and every optional section is in it. */
  lemma SectionsKept(base: seq<Section>, precip: seq<Section>, cloud: seq<Section>, air: seq<Section>)
    requires |base| == 10
    ensures var r := base + precip + cloud + air;
            && r[..10] == base
            && (forall i :: 0 <= i < |precip| ==> precip[i] in r)
            && (forall i :: 0 <= i < |cloud| ==> cloud[i] in r)
            && (forall i :: 0 <= i < |air| ==> air[i] in r)
  {
    var r := base + precip + cloud + air;
    assert r[..10] == base;
    assert forall i :: 0 <= i < |precip| ==> r[10 + i] == precip[i];
    assert forall i :: 0 <= i < |cloud| ==> r[10 + |precip| + i] == cloud[i];
    assert forall i :: 0 <= i < |air| ==> r[10 + |precip| + |cloud| + i] == air[i];
  }

  function Render(sections: seq<Section>): string {
    if |sections| == 0 then "" else sections[0].text + Render(sections[1..])
  }

  const WeatherFileMissing :=
    "Error: Weather data file not found. Please make sure 'data/weather.json' exists."

  function NoWeather(city: string): string {
    "No weather information available for " + city + ". Try another city."
  }

  function GetWeatherForecast(data: Option<map<string, CityWeather>>, city: string): (r: string)
    ensures data.None? ==> r == WeatherFileMissing
    ensures data.Some? && Lower(city) !in data.value ==> r == NoWeather(city)
    ensures data.Some? && Lower(city) in data.value ==> r == Render(ForecastSections(data.value[Lower(city)]))
  {
    match data
    case None => WeatherFileMissing
    case Some(table) =>
      if Lower(city) !in table then NoWeather(city) else Render(ForecastSections(table[Lower(city)]))
  }
}
