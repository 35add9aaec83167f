/** Which OCR endpoints read a country's vehicle documents, and whether
    those documents have a back page to photograph. */
module MindeeSettings {
  import opened Wrappers

  datatype CountryConfig = CountryConfig(
    endpointNameFront: string,
    endpointNameBack: string,
    hasBackPage: bool)

  datatype MindeeSettings = MindeeSettings(
    accountName: string,
    version: string,
    countries: map<string, CountryConfig>)

  const DefaultKey := "Default"

  /** Why the lookup throws: a null code (`ArgumentNullException` from the
      dictionary), or an unknown code without a "Default" entry
      (`KeyNotFoundException` from the indexer). */
  datatype LookupError = NullCode | NoDefault

  /** `GetForCountry(code)`: the country's own configuration, or a copy of
      the "Default" one. */
  function GetForCountry(s: MindeeSettings, code: Option<string>): (r: Result<CountryConfig, LookupError>)
    ensures r.Err? <==> code.None? || (code.value !in s.countries && DefaultKey !in s.countries)
  {
    if code.None? then Err(NullCode)
    else if code.value in s.countries then Ok(s.countries[code.value])
    else if DefaultKey in s.countries then
      var d := s.countries[DefaultKey];
      Ok(CountryConfig(d.endpointNameFront, d.endpointNameBack, d.hasBackPage))
    else Err(NoDefault)
  }

  /** A configured country gets its own configuration. */
  lemma KnownCountry(s: MindeeSettings, code: string)
    requires code in s.countries
    ensures GetForCountry(s, Some(code)) == Ok(s.countries[code])
  {
  }

  /** Any other country gets the endpoints and the back-page flag of the
      "Default" entry. */
  lemma UnknownCountryFallsBack(s: MindeeSettings, code: string)
    requires code !in s.countries && DefaultKey in s.countries
    ensures GetForCountry(s, Some(code)).Ok?
    ensures var r := GetForCountry(s, Some(code)).value;
      && r.endpointNameFront == s.countries[DefaultKey].endpointNameFront
      && r.endpointNameBack == s.countries[DefaultKey].endpointNameBack
      && r.hasBackPage == s.countries[DefaultKey].hasBackPage
  {
  }

  /** Whenever there is a "Default" entry, every non-null code gets a
      configuration, and the back-page flag is either the country's own or
      the default's. */
  lemma DefaultMakesTotal(s: MindeeSettings, code: string)
    requires DefaultKey in s.countries
    ensures GetForCountry(s, Some(code)).Ok?
    ensures GetForCountry(s, Some(code)).value.hasBackPage ==
      (if code in s.countries then s.countries[code] else s.countries[DefaultKey]).hasBackPage
  {
  }
}
