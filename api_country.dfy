/** The country data provider: the shape of a record as the REST countries
    service returns it, its conversion to a `Country`, and the step that
    turns a random sample of the service's records into the quiz's
    countries. The HTTP request itself is not modelled: the list of records
    it yields is a parameter. */
module CountryApi {
  import opened Countries
  import Lodash

  datatype ApiName = ApiName(common: string)

  datatype ApiCountry = ApiCountry(cca3: string, name: ApiName, capital: seq<string>)

  /** How many countries one quiz round asks for. */
  const RandomCountriesCount: nat := 5

  /** The record has a first capital to read. */
  predicate HasCapital(apiCountry: ApiCountry) {
    |apiCountry.capital| > 0
  }

  /** The quiz's country for one service record: its three-letter code, its
      common name and its first listed capital. The first capital is read
      without a check, so a record that lists none gives an undefined
      capital. */
  function ConvertFromApiCountry(apiCountry: ApiCountry): (c: Country)
    ensures c.code == apiCountry.cca3 && c.name == apiCountry.name.common
    ensures c.capital.Str? <==> HasCapital(apiCountry)
    ensures HasCapital(apiCountry) ==> c.capital.value == apiCountry.capital[0]
  {
    Country(apiCountry.cca3, apiCountry.name.common, ElementAt(apiCountry.capital, 0))
  }

  /** The service record that lists at most one capital and carries the
      same data as `country`: the inverse of the conversion on such records. */
  function ToApiCountry(country: Country): (r: ApiCountry)
    ensures |r.capital| <= 1
    ensures HasCapital(r) <==> country.capital.Str?
  {
    ApiCountry(country.code, ApiName(country.name),
               match country.capital case Str(s) => [s] case Undefined => [])
  }

  /** The conversion loses nothing but the capitals after the first: a
      country survives the trip to a record and back, and a record survives
      the trip to a country and back exactly when it lists at most one
      capital. */
  lemma ConvertRoundTrip(country: Country, apiCountry: ApiCountry)
    ensures ConvertFromApiCountry(ToApiCountry(country)) == country
    ensures ToApiCountry(ConvertFromApiCountry(apiCountry)) == apiCountry <==> |apiCountry.capital| <= 1
  {
    if |apiCountry.capital| == 1 {
      assert apiCountry.capital == [apiCountry.capital[0]];
    }
  }

  /** Converts every record of `apiCountries`, keeping their order. */
  function ConvertAll(apiCountries: seq<ApiCountry>): (r: seq<Country>)
    ensures |r| == |apiCountries|
    ensures forall i :: 0 <= i < |r| ==> r[i] == ConvertFromApiCountry(apiCountries[i])
  {
    if apiCountries == [] then []
    else [ConvertFromApiCountry(apiCountries[0])] + ConvertAll(apiCountries[1..])
  }

  /** Draws a random sample of `RandomCountriesCount` records (or all of
      them, when the service returned fewer) and converts them. Each result
      is the conversion of a distinct record of the input. */
  method GetRandomCountries(apiCountries: seq<ApiCountry>) returns (countries: seq<Country>)
    ensures |countries| == if |apiCountries| < RandomCountriesCount then |apiCountries| else RandomCountriesCount
    ensures exists sample ::
      (Lodash.IsSampleOf(sample, apiCountries, RandomCountriesCount) && countries == ConvertAll(sample))
    ensures forall i :: 0 <= i < |countries| ==>
      exists j :: 0 <= j < |apiCountries| && countries[i] == ConvertFromApiCountry(apiCountries[j])
  {
    var sample := Lodash.SampleSize(apiCountries, RandomCountriesCount);
    forall i | 0 <= i < |sample| ensures sample[i] in apiCountries {
      assert sample[i] in multiset(sample);
    }
    countries := ConvertAll(sample);
    forall i | 0 <= i < |countries|
      ensures exists j :: 0 <= j < |apiCountries| && countries[i] == ConvertFromApiCountry(apiCountries[j])
    {
      var j :| 0 <= j < |apiCountries| && apiCountries[j] == sample[i];
    }
  }

  /** A record that lists no capital is accepted: it converts to a country
      whose capital is undefined. */
  method CapitalLessRecordExample() {
    var antarctica := ApiCountry("ATA", ApiName("Antarctica"), []);
    var countries := GetRandomCountries([antarctica]);
    assert |countries| == 1;
    assert countries[0] == ConvertFromApiCountry([antarctica][0]);
    assert countries[0].code == "ATA" && countries[0].capital == Undefined;
  }

}
