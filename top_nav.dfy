/**
 * The top navigation bar's pure parts: the WMO weather-code labels used with
 * Open-Meteo's `current_weather`, the weather icon, the page title taken
 * from the route, and the light/dark toggle.
 */
module TopNav {
  import opened Wrappers
  import opened JsText

  /** The code lists of `mapWeatherCode`; `[...].includes(code)` is membership. */
  const ClearCodes: set<int> := {0}
  const CloudyCodes: set<int> := {1, 2, 3}
  const FogCodes: set<int> := {45, 48}
  const DrizzleCodes: set<int> := {51, 53, 55, 56, 57}
  const RainCodes: set<int> := {61, 63, 65, 66, 67, 80, 81, 82}
  const SnowCodes: set<int> := {71, 73, 75, 77, 85, 86}
  const StormCodes: set<int> := {95, 96, 99}

  /** The seven listed conditions, as the table behind the chain of tests. */
  datatype Condition = Clear | Cloudy | Fog | Drizzle | Rain | Snow | Storm

  function Label(c: Condition): string {
    match c
    case Clear => "Clear"
    case Cloudy => "Cloudy"
    case Fog => "Fog"
    case Drizzle => "Drizzle"
    case Rain => "Rain"
    case Snow => "Snow"
    case Storm => "Storm"
  }

  function CodesFor(c: Condition): set<int> {
    match c
    case Clear => ClearCodes
    case Cloudy => CloudyCodes
    case Fog => FogCodes
    case Drizzle => DrizzleCodes
    case Rain => RainCodes
    case Snow => SnowCodes
    case Storm => StormCodes
  }

  const AllListedCodes: set<int> :=
    ClearCodes + CloudyCodes + FogCodes + DrizzleCodes + RainCodes + SnowCodes + StormCodes

  /** The chain of tests in `mapWeatherCode`: the first list holding the code, if any. */
  function Classify(code: int): (c: Option<Condition>)
    ensures c.Some? ==> code in CodesFor(c.value)
      {
    if code in ClearCodes then Some(Clear)
    else if code in CloudyCodes then Some(Cloudy)
    else if code in FogCodes then Some(Fog)
    else if code in DrizzleCodes then Some(Drizzle)
    else if code in RainCodes then Some(Rain)
    else if code in SnowCodes then Some(Snow)
    else if code in StormCodes then Some(Storm)
    else None
  }

  /** `mapWeatherCode`: the label of the first list holding the code, and "Weather" for none. */
  function MapWeatherCode(code: int): (desc: string)
    ensures (exists c :: code in CodesFor(c) && desc == Label(c)) || (code !in AllListedCodes && desc == "Weather")
  {
    match Classify(code)
    case Some(c) => Label(c)
    case None => "Weather"
  }

  /** No code is in the lists of two different conditions. */
  lemma WeatherListsDisjoint(code: int, c: Condition, d: Condition)
    requires code in CodesFor(c) && code in CodesFor(d)
    ensures c == d
  {
  }

  /** The chain of tests finds nothing exactly for the codes in no list. */
  lemma ClassifyNoneIffUnlisted(code: int)
    ensures Classify(code).None? <==> code !in AllListedCodes
  {
  }

  /**
   * The chain of tests agrees with the table, in both directions: a code in
   * a condition's list gets that condition, so (the lists being disjoint) the
   * order of the tests does not matter.
   */
  lemma ClassifyMatchesTable(code: int, c: Condition)
    ensures Classify(code) == Some(c) <==> code in CodesFor(c)
  {
    if code in CodesFor(c) {
      match c
      case Clear =>
      case Cloudy =>
      case Fog =>
      case Drizzle =>
      case Rain =>
      case Snow =>
      case Storm =>
    }
  }

  /** No listed label is "Weather", and different conditions have different labels. */
  lemma LabelsDistinct(c: Condition, d: Condition)
    ensures Label(c) != "Weather"
    ensures Label(c) == Label(d) <==> c == d
  {
  }

  /** A code in a condition's list is described by that condition's label. */
  lemma WeatherLabelOfAnyList(code: int, c: Condition)
    requires code in CodesFor(c)
    ensures MapWeatherCode(code) == Label(c)
  {
    ClassifyMatchesTable(code, c);
  }

  /** "Weather" exactly for the codes in no list. */
  lemma UnlistedIsWeather(code: int)
    ensures MapWeatherCode(code) == "Weather" <==> code !in AllListedCodes
  {
    ClassifyNoneIffUnlisted(code);
    if code in AllListedCodes {
      LabelsDistinct(Classify(code).value, Clear);
    }
  }

  /** `weather` after the fetch: temperature, code and `desc` (absent before any answer). */
  datatype Weather = Weather(temp: real, code: int, desc: string)

  /** The answer to the forecast request: `current_weather` (maybe missing), or a thrown error. */
  datatype WeatherAnswer = Answered(current: Option<(real, int)>) | Threw

  /** `fetchWeather`: a `current_weather` gives a labelled reading, an error the Olongapo fallback. */
  function AfterWeatherFetch(before: Option<Weather>, answer: WeatherAnswer): (w: Option<Weather>)
    ensures answer == Threw ==> w == Some(Weather(30.0, 1, "Cloudy"))
    ensures answer == Answered(None) ==> w == before
    ensures answer.Answered? && answer.current.Some? ==>
              w == Some(Weather(answer.current.value.0, answer.current.value.1, MapWeatherCode(answer.current.value.1)))
  {
    match answer
    case Threw => Some(Weather(30.0, 1, "Cloudy"))
    case Answered(None) => before
    case Answered(Some((temp, code))) => Some(Weather(temp, code, MapWeatherCode(code)))
  }

  /** Every reading on display carries the label of its own code. */
  predicate Labelled(w: Option<Weather>) {
    w.Some? ==> w.value.desc == MapWeatherCode(w.value.code)
  }

  /** The fallback's "Cloudy" is also what code 1 maps to, so readings stay labelled. */
  lemma WeatherFetchKeepsLabelled(before: Option<Weather>, answer: WeatherAnswer)
    requires Labelled(before)
    ensures Labelled(AfterWeatherFetch(before, answer))
  {
  }

  datatype Icon = Sun | CloudRain | Cloud

  /** `WeatherIcon`: no reading counts as code 1; Sun for 0, CloudRain for the rain list. */
  function WeatherIcon(weather: Option<Weather>): (icon: Icon)
    ensures weather.None? ==> icon == Cloud
    ensures icon == Sun <==> weather.Some? && weather.value.code == 0
  {
    var code := if weather.Some? then weather.value.code else 1;
    if code == 0 then Sun
    else if code in RainCodes then CloudRain
    else Cloud
  }

  /** The rain icon shows exactly when the label is "Rain". */
  lemma {:induction false} RainIconIffRainLabel(weather: Option<Weather>)
    requires weather.Some?
    ensures WeatherIcon(weather) == CloudRain <==> MapWeatherCode(weather.value.code) == "Rain"
  {
    var code := weather.value.code;
    ClassifyMatchesTable(code, Rain);
    if Classify(code).Some? {
      LabelsDistinct(Classify(code).value, Rain);
    }
  }

  /** The `titles` record of `getPageTitle`. */
  const Titles: map<string, string> := map[
    "dashboard" := "Dashboard",
    "registration" := "New Registration",
    "records" := "Records Management",
    "events" := "Events & Attendance",
    "settings" := "Settings"]

  /** `titles[pathname.split('/')[1]] || 'Dashboard'`; a path without '/' has no second piece. */
  function PageTitle(pathname: string): (title: string)
    ensures title in Titles.Values
  {
    assert Titles["dashboard"] == "Dashboard";
    var parts := Split(pathname, {'/'});
    if |parts| > 1 && parts[1] in Titles && Titles[parts[1]] != [] then Titles[parts[1]]
    else "Dashboard"
  }

  /** The title depends on the first segment only: whatever follows it is ignored. */
  lemma FirstSegmentDecides(prefix: string, segment: string, rest: string)
    requires NoneIn(prefix, {'/'}) && NoneIn(segment, {'/'})
    ensures PageTitle(prefix + "/" + segment + "/" + rest) == PageTitle(prefix + "/" + segment)
  {
    SplitAtFirstSeparator(prefix, '/', segment + "/" + rest, {'/'});
    SplitAtFirstSeparator(segment, '/', rest, {'/'});
    SplitAtFirstSeparator(prefix, '/', segment, {'/'});
    SplitNoSeparator(segment, {'/'});
    assert prefix + "/" + segment + "/" + rest == prefix + ['/'] + (segment + ['/'] + rest);
  }

  /** A first segment gets its title; an unknown one, the empty one of "/" included, gets "Dashboard". */
  lemma SegmentTitle(segment: string)
    requires NoneIn(segment, {'/'})
    ensures PageTitle("/" + segment) == if segment in Titles then Titles[segment] else "Dashboard"
  {
    SplitAtFirstSeparator([], '/', segment, {'/'});
    SplitNoSeparator(segment, {'/'});
    assert [] + ['/'] + segment == "/" + segment;
  }

  /** The toggle's `theme === 'dark' ? 'light' : 'dark'`; `theme` is undefined before mounting. */
  function NextTheme(theme: Option<string>): (next: string)
    ensures next == "light" <==> theme == Some("dark")
    ensures next in {"light", "dark"}
  {
    if theme == Some("dark") then "light" else "dark"
  }

  /** Two clicks from either named theme come back to it. */
  lemma ToggleTwiceRestores(theme: string)
    requires theme in {"light", "dark"}
    ensures NextTheme(Some(NextTheme(Some(theme)))) == theme
  {
  }
}
