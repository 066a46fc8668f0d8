/** `analyzeQuery` and the branch selection of `formatCurrentWeatherResponse`:
    which one-line answer, if any, replaces the full current-weather summary. */
module QueryIntent {
  import opened Text

  /** The object `analyzeQuery` returns; a flag it leaves undefined is `false`. */
  datatype Flags = Flags(temperature: bool, humidity: bool, wind: bool, pressure: bool, full: bool)

  const TemperatureWords: seq<string> :=
    ["temperature", "temp", "hot", "cold", "degree", "celsius", "fahrenheit"]
  const HumidityWords: seq<string> := ["humidity", "humid", "moisture"]
  const WindWords: seq<string> := ["wind", "breeze", "gust"]
  const PressureWords: seq<string> := ["pressure", "atmospheric"]
  /** The words that ask for one attribute only. */
  const ExclusiveWords: seq<string> := ["only", "just", "tell me"]

  /** `/\b(...)\b/.test(query) && /\b(only|just|tell me)\b/.test(query)` */
  predicate AsksOnly(query: string, words: seq<string>) {
    HasAnyWord(query, words) && HasAnyWord(query, ExclusiveWords)
  }

  /** An absent query text is the empty string. */
  function AnalyzeQuery(queryText: string): (f: Flags)
    ensures f.full
    ensures queryText == [] ==> !f.temperature && !f.humidity && !f.wind && !f.pressure
    ensures queryText != [] ==>
              var query := ToLower(queryText);
              var only := HasAnyWord(query, ExclusiveWords);
              && (f.temperature <==> HasAnyWord(query, TemperatureWords) && only)
              && (f.humidity <==> HasAnyWord(query, HumidityWords) && only)
              && (f.wind <==> HasAnyWord(query, WindWords) && only)
              && (f.pressure <==> HasAnyWord(query, PressureWords) && only)
  {
    if queryText == [] then
      Flags(false, false, false, false, true)
    else
      var query := ToLower(queryText);
      Flags(AsksOnly(query, TemperatureWords), AsksOnly(query, HumidityWords),
            AsksOnly(query, WindWords), AsksOnly(query, PressureWords), true)
  }

  /** The sentence `formatCurrentWeatherResponse` produces, by kind, with the
      `"{name}, {country}"` place it names. */
  datatype CurrentReply =
    | TemperatureLine(place: string)
    | HumidityLine(place: string)
    | WindLine(place: string)
    | PressureLine(place: string)
    | FullSummary(place: string)

  /** A one-attribute line is chosen only when `full` is false, temperature
      before humidity before wind before pressure; otherwise the full summary. */
  function FormatCurrentWeather(name: string, country: string, flags: Flags): (r: CurrentReply)
    ensures r.place == name + ", " + country
    ensures r.FullSummary? <==>
              flags.full || !(flags.temperature || flags.humidity || flags.wind || flags.pressure)
    ensures r.TemperatureLine? <==> !flags.full && flags.temperature
    ensures r.HumidityLine? <==> !flags.full && !flags.temperature && flags.humidity
    ensures r.WindLine? <==> !flags.full && !flags.temperature && !flags.humidity && flags.wind
    ensures r.PressureLine? <==>
              !flags.full && !flags.temperature && !flags.humidity && !flags.wind && flags.pressure
  {
    var place := name + ", " + country;
    if flags.temperature && !flags.full then TemperatureLine(place)
    else if flags.humidity && !flags.full then HumidityLine(place)
    else if flags.wind && !flags.full then WindLine(place)
    else if flags.pressure && !flags.full then PressureLine(place)
    else FullSummary(place)
  }

  /** Whatever the user typed, the current-weather answer is the full summary:
      the one-attribute branches are unreachable from `analyzeQuery`. */
  lemma CurrentWeatherIsAlwaysFull(name: string, country: string, queryText: string)
    ensures FormatCurrentWeather(name, country, AnalyzeQuery(queryText)) ==
            FullSummary(name + ", " + country)
  {
  }
}
