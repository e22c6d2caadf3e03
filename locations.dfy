/**
 * The location catalogue: a constant table of six continents, twenty-two
 * countries and twenty-one cities, with lookups, child and root filters,
 * the emoji shown for a location, and a case-insensitive search.
 */
module Locations {
  import opened Wrappers
  import opened Text
  import Seqs

  datatype LocationType = Continent | Country | City
  datatype NetworkType = Residential | Datacenter

  datatype Location = Location(
    id: string,
    kind: LocationType,           // the `type` field
    name: string,
    code: string,
    parentId: Option<string>,
    networkTypes: seq<NetworkType>,
    isps: Option<seq<string>>,
    probeCount: Option<nat>)

  const BOTH_NETWORKS: seq<NetworkType> := [Residential, Datacenter]
  const DATACENTER_ONLY: seq<NetworkType> := [Datacenter]
  const RESIDENTIAL_ONLY: seq<NetworkType> := [Residential]

  const CONTINENTS: seq<Location> := [
    Location("AS", Continent, "Asia", "AS", None, BOTH_NETWORKS, None, Some(2847)),
    Location("EU", Continent, "Europe", "EU", None, BOTH_NETWORKS, None, Some(4215)),
    Location("NA", Continent, "North America", "NA", None, BOTH_NETWORKS, None, Some(3892)),
    Location("SA", Continent, "South America", "SA", None, BOTH_NETWORKS, None, Some(892)),
    Location("AF", Continent, "Africa", "AF", None, BOTH_NETWORKS, None, Some(423)),
    Location("OC", Continent, "Oceania", "OC", None, BOTH_NETWORKS, None, Some(687))
  ]

  const COUNTRIES: seq<Location> := [
    Location("VN", Country, "Vietnam", "VN", Some("AS"), BOTH_NETWORKS, Some(["VNPT", "Viettel", "FPT", "MobiFone"]), Some(342)),
    Location("JP", Country, "Japan", "JP", Some("AS"), BOTH_NETWORKS, Some(["NTT", "KDDI", "SoftBank", "IIJ"]), Some(567)),
    Location("SG", Country, "Singapore", "SG", Some("AS"), BOTH_NETWORKS, Some(["Singtel", "StarHub", "M1"]), Some(234)),
    Location("KR", Country, "South Korea", "KR", Some("AS"), BOTH_NETWORKS, Some(["KT", "SKT", "LG U+"]), Some(412)),
    Location("IN", Country, "India", "IN", Some("AS"), BOTH_NETWORKS, Some(["Jio", "Airtel", "BSNL", "VI"]), Some(623)),
    Location("CN", Country, "China", "CN", Some("AS"), DATACENTER_ONLY, Some(["China Telecom", "China Unicom", "China Mobile"]), Some(487)),
    Location("DE", Country, "Germany", "DE", Some("EU"), BOTH_NETWORKS, Some(["Deutsche Telekom", "Vodafone", "O2", "Hetzner"]), Some(892)),
    Location("GB", Country, "United Kingdom", "GB", Some("EU"), BOTH_NETWORKS, Some(["BT", "Virgin Media", "Sky", "TalkTalk"]), Some(756)),
    Location("FR", Country, "France", "FR", Some("EU"), BOTH_NETWORKS, Some(["Orange", "SFR", "Free", "Bouygues"]), Some(623)),
    Location("NL", Country, "Netherlands", "NL", Some("EU"), BOTH_NETWORKS, Some(["KPN", "Ziggo", "T-Mobile NL"]), Some(534)),
    Location("PL", Country, "Poland", "PL", Some("EU"), BOTH_NETWORKS, Some(["Orange PL", "Play", "Plus", "T-Mobile PL"]), Some(287)),
    Location("US", Country, "United States", "US", Some("NA"), BOTH_NETWORKS, Some(["Comcast", "AT&T", "Verizon", "Spectrum", "AWS", "GCP", "Azure"]), Some(2156)),
    Location("CA", Country, "Canada", "CA", Some("NA"), BOTH_NETWORKS, Some(["Bell", "Rogers", "Telus", "Shaw"]), Some(423)),
    Location("MX", Country, "Mexico", "MX", Some("NA"), BOTH_NETWORKS, Some(["Telmex", "Telcel", "AT&T Mexico"]), Some(187)),
    Location("BR", Country, "Brazil", "BR", Some("SA"), BOTH_NETWORKS, Some(["Vivo", "Claro", "TIM", "Oi"]), Some(534)),
    Location("AR", Country, "Argentina", "AR", Some("SA"), BOTH_NETWORKS, Some(["Telecom Argentina", "Claro AR", "Movistar AR"]), Some(156)),
    Location("CL", Country, "Chile", "CL", Some("SA"), BOTH_NETWORKS, Some(["Entel", "Movistar Chile", "Claro Chile"]), Some(98)),
    Location("ZA", Country, "South Africa", "ZA", Some("AF"), BOTH_NETWORKS, Some(["Vodacom", "MTN", "Telkom SA", "Cell C"]), Some(187)),
    Location("NG", Country, "Nigeria", "NG", Some("AF"), RESIDENTIAL_ONLY, Some(["MTN Nigeria", "Airtel Nigeria", "Glo"]), Some(89)),
    Location("EG", Country, "Egypt", "EG", Some("AF"), BOTH_NETWORKS, Some(["Vodafone Egypt", "Orange Egypt", "Etisalat"]), Some(76)),
    Location("AU", Country, "Australia", "AU", Some("OC"), BOTH_NETWORKS, Some(["Telstra", "Optus", "TPG", "iiNet"]), Some(456)),
    Location("NZ", Country, "New Zealand", "NZ", Some("OC"), BOTH_NETWORKS, Some(["Spark", "Vodafone NZ", "2degrees"]), Some(123))
  ]

  const CITIES: seq<Location> := [
    Location("VN-HCM", City, "Ho Chi Minh City", "HCM", Some("VN"), BOTH_NETWORKS, Some(["VNPT", "Viettel", "FPT"]), Some(156)),
    Location("VN-HAN", City, "Hanoi", "HAN", Some("VN"), BOTH_NETWORKS, Some(["VNPT", "Viettel", "FPT"]), Some(134)),
    Location("VN-DAN", City, "Da Nang", "DAN", Some("VN"), RESIDENTIAL_ONLY, Some(["VNPT", "Viettel"]), Some(42)),
    Location("JP-TYO", City, "Tokyo", "TYO", Some("JP"), BOTH_NETWORKS, Some(["NTT", "KDDI", "SoftBank"]), Some(312)),
    Location("JP-OSA", City, "Osaka", "OSA", Some("JP"), BOTH_NETWORKS, Some(["NTT", "KDDI"]), Some(145)),
    Location("DE-BER", City, "Berlin", "BER", Some("DE"), BOTH_NETWORKS, Some(["Deutsche Telekom", "Vodafone"]), Some(234)),
    Location("DE-FRA", City, "Frankfurt", "FRA", Some("DE"), BOTH_NETWORKS, Some(["Deutsche Telekom", "Hetzner", "OVH"]), Some(312)),
    Location("DE-MUC", City, "Munich", "MUC", Some("DE"), BOTH_NETWORKS, Some(["Deutsche Telekom", "Vodafone"]), Some(156)),
    Location("GB-LON", City, "London", "LON", Some("GB"), BOTH_NETWORKS, Some(["BT", "Virgin Media", "AWS"]), Some(423)),
    Location("GB-MAN", City, "Manchester", "MAN", Some("GB"), BOTH_NETWORKS, Some(["BT", "Virgin Media"]), Some(145)),
    Location("US-NYC", City, "New York", "NYC", Some("US"), BOTH_NETWORKS, Some(["Verizon", "Spectrum", "AWS", "GCP"]), Some(534)),
    Location("US-LAX", City, "Los Angeles", "LAX", Some("US"), BOTH_NETWORKS, Some(["Spectrum", "AT&T", "AWS"]), Some(423)),
    Location("US-SFO", City, "San Francisco", "SFO", Some("US"), BOTH_NETWORKS, Some(["Comcast", "AT&T", "GCP", "AWS"]), Some(387)),
    Location("US-SEA", City, "Seattle", "SEA", Some("US"), BOTH_NETWORKS, Some(["Comcast", "CenturyLink", "AWS"]), Some(245)),
    Location("US-DFW", City, "Dallas", "DFW", Some("US"), BOTH_NETWORKS, Some(["AT&T", "Spectrum", "Azure"]), Some(198)),
    Location("US-CHI", City, "Chicago", "CHI", Some("US"), BOTH_NETWORKS, Some(["Comcast", "AT&T", "AWS"]), Some(276)),
    Location("BR-SAO", City, "Sao Paulo", "SAO", Some("BR"), BOTH_NETWORKS, Some(["Vivo", "Claro", "TIM"]), Some(287)),
    Location("BR-RIO", City, "Rio de Janeiro", "RIO", Some("BR"), BOTH_NETWORKS, Some(["Vivo", "Claro"]), Some(145)),
    Location("AU-SYD", City, "Sydney", "SYD", Some("AU"), BOTH_NETWORKS, Some(["Telstra", "Optus", "AWS"]), Some(234)),
    Location("AU-MEL", City, "Melbourne", "MEL", Some("AU"), BOTH_NETWORKS, Some(["Telstra", "Optus"]), Some(156)),
    Location("SG-SIN", City, "Singapore City", "SIN", Some("SG"), BOTH_NETWORKS, Some(["Singtel", "StarHub", "AWS", "GCP"]), Some(198))
  ]

  /** `LOCATIONS`, in table order: continents, then countries, then cities. */
  const LOCATIONS: seq<Location> := CONTINENTS + COUNTRIES + CITIES

  // ---------------------------------------------------------------------
  // The shape of the table

  lemma TableShape()
    ensures |CONTINENTS| == 6 && |COUNTRIES| == 22 && |CITIES| == 21 && |LOCATIONS| == 49
    ensures forall i | 0 <= i < |CONTINENTS| :: CONTINENTS[i].kind == Continent && |CONTINENTS[i].id| == 2
    ensures forall i | 0 <= i < |COUNTRIES| :: COUNTRIES[i].kind == Country && |COUNTRIES[i].id| == 2
    ensures forall i | 0 <= i < |CITIES| :: CITIES[i].kind == City && |CITIES[i].id| == 6
  {
  }

  lemma ContinentIdsDistinct()
    ensures forall i, j | 0 <= i < j < |CONTINENTS| :: CONTINENTS[i].id != CONTINENTS[j].id
  {
  }

  // The pairwise id comparisons are split in halves of the country and city
  // lists, to keep each proof small.

  lemma CountryIdsDistinctLow()
    ensures forall i, j | 0 <= i < j < 11 :: COUNTRIES[i].id != COUNTRIES[j].id
  {
  }

  lemma CountryIdsDistinctAcross()
    ensures forall i, j | 0 <= i < 11 <= j < 22 :: COUNTRIES[i].id != COUNTRIES[j].id
  {
  }

  lemma CountryIdsDistinctHigh()
    ensures forall i, j | 11 <= i < j < 22 :: COUNTRIES[i].id != COUNTRIES[j].id
  {
  }

  lemma CountryIdsDistinct()
    ensures forall i, j | 0 <= i < j < |COUNTRIES| :: COUNTRIES[i].id != COUNTRIES[j].id
  {
    CountryIdsDistinctLow();
    CountryIdsDistinctAcross();
    CountryIdsDistinctHigh();
  }

  lemma CityIdsDistinctLow()
    ensures forall i, j | 0 <= i < j < 11 :: CITIES[i].id != CITIES[j].id
  {
  }

  lemma CityIdsDistinctAcross()
    ensures forall i, j | 0 <= i < 11 <= j < 21 :: CITIES[i].id != CITIES[j].id
  {
  }

  lemma CityIdsDistinctHigh()
    ensures forall i, j | 11 <= i < j < 21 :: CITIES[i].id != CITIES[j].id
  {
  }

  lemma CityIdsDistinct()
    ensures forall i, j | 0 <= i < j < |CITIES| :: CITIES[i].id != CITIES[j].id
  {
    CityIdsDistinctLow();
    CityIdsDistinctAcross();
    CityIdsDistinctHigh();
  }

  lemma ContinentAndCountryIdsDistinct()
    ensures forall i, j | 0 <= i < |CONTINENTS| && 0 <= j < |COUNTRIES| :: CONTINENTS[i].id != COUNTRIES[j].id
  {
  }

  /** No two entries of the table share an id. */
  lemma IdsUnique()
    ensures forall i, j | 0 <= i < j < |LOCATIONS| :: LOCATIONS[i].id != LOCATIONS[j].id
  {
    TableShape();
    ContinentIdsDistinct();
    CountryIdsDistinct();
    CityIdsDistinct();
    ContinentAndCountryIdsDistinct();
    forall i, j | 0 <= i < j < |LOCATIONS| ensures LOCATIONS[i].id != LOCATIONS[j].id {
      if j < 6 {
        assert LOCATIONS[i] == CONTINENTS[i] && LOCATIONS[j] == CONTINENTS[j];
      } else if j < 28 {
        assert LOCATIONS[j] == COUNTRIES[j - 6];
        if i < 6 {
          assert LOCATIONS[i] == CONTINENTS[i];
        } else {
          assert LOCATIONS[i] == COUNTRIES[i - 6];
        }
      } else {
        assert LOCATIONS[j] == CITIES[j - 28];
        if i < 6 {
          assert LOCATIONS[i] == CONTINENTS[i];
        } else if i < 28 {
          assert LOCATIONS[i] == COUNTRIES[i - 6];
        } else {
          assert LOCATIONS[i] == CITIES[i - 28];
        }
      }
    }
  }

  /** For each country, the index of its continent in CONTINENTS. */
  ghost const COUNTRY_PARENT: seq<nat> := [0, 0, 0, 0, 0, 0, 1, 1, 1, 1, 1, 2, 2, 2, 3, 3, 3, 4, 4, 4, 5, 5]
  /** For each city, the index of its country in COUNTRIES. */
  ghost const CITY_PARENT: seq<nat> := [0, 0, 0, 1, 1, 6, 6, 6, 7, 7, 11, 11, 11, 11, 11, 11, 14, 14, 20, 20, 2]

  lemma CountryParents()
    ensures |COUNTRY_PARENT| == |COUNTRIES|
    ensures forall i | 0 <= i < |COUNTRIES| ::
      COUNTRY_PARENT[i] < |CONTINENTS| && COUNTRIES[i].parentId == Some(CONTINENTS[COUNTRY_PARENT[i]].id)
  {
  }

  lemma CityParentsFirst()
    ensures forall i | 0 <= i < 7 ::
      CITY_PARENT[i] < |COUNTRIES| && CITIES[i].parentId == Some(COUNTRIES[CITY_PARENT[i]].id)
  {
  }

  lemma CityParentsMiddle()
    ensures forall i | 7 <= i < 14 ::
      CITY_PARENT[i] < |COUNTRIES| && CITIES[i].parentId == Some(COUNTRIES[CITY_PARENT[i]].id)
  {
  }

  lemma CityParentsLast()
    ensures forall i | 14 <= i < 21 ::
      CITY_PARENT[i] < |COUNTRIES| && CITIES[i].parentId == Some(COUNTRIES[CITY_PARENT[i]].id)
  {
  }

  lemma CityParents()
    ensures |CITY_PARENT| == |CITIES|
    ensures forall i | 0 <= i < |CITIES| ::
      CITY_PARENT[i] < |COUNTRIES| && CITIES[i].parentId == Some(COUNTRIES[CITY_PARENT[i]].id)
  {
    CityParentsFirst();
    CityParentsMiddle();
    CityParentsLast();
  }

  // ---------------------------------------------------------------------
  // Lookups

  /** `ls.find(loc => loc.id === id)`: the first entry with that id, None when there is none. */
  function Find(ls: seq<Location>, id: string): (r: Option<Location>)
    ensures r.None? <==> forall i | 0 <= i < |ls| :: ls[i].id != id
    ensures r.Some? ==> exists k | 0 <= k < |ls| :: ls[k] == r.value && r.value.id == id && forall j | 0 <= j < k :: ls[j].id != id
  {
    if ls == [] then None
    else if ls[0].id == id then Some(ls[0])
    else
      var r := Find(ls[1..], id);
      assert r.Some? ==> exists k | 0 <= k < |ls| :: ls[k] == r.value && r.value.id == id && forall j | 0 <= j < k :: ls[j].id != id by {
        if r.Some? {
          var k :| 0 <= k < |ls[1..]| && ls[1..][k] == r.value && r.value.id == id && forall j | 0 <= j < k :: ls[1..][j].id != id;
          assert ls[k + 1] == r.value;
          assert forall j | 0 <= j < k + 1 :: ls[j].id != id by {
            forall j | 0 <= j < k + 1 ensures ls[j].id != id {
              if j > 0 {
                assert ls[j] == ls[1..][j - 1];
              }
            }
          }
        }
      }
      r
  }

  /** `getLocationById(id)` */
  function GetLocationById(id: string): (r: Option<Location>)
    ensures r.None? <==> forall i | 0 <= i < |LOCATIONS| :: LOCATIONS[i].id != id
    ensures r.Some? ==> r.value in LOCATIONS && r.value.id == id
  {
    Find(LOCATIONS, id)
  }

  /** As ids are unique, looking up the id of any entry finds that entry, and an id not in the table finds nothing. */
  lemma GetLocationByIdFinds(k: nat, id: string)
    requires k < |LOCATIONS|
    ensures GetLocationById(LOCATIONS[k].id) == Some(LOCATIONS[k])
    ensures (forall i | 0 <= i < |LOCATIONS| :: LOCATIONS[i].id != id) <==> GetLocationById(id) == None
  {
    IdsUnique();
    var r := GetLocationById(LOCATIONS[k].id);
    var j :| 0 <= j < |LOCATIONS| && LOCATIONS[j] == r.value && r.value.id == LOCATIONS[k].id
             && forall i | 0 <= i < j :: LOCATIONS[i].id != LOCATIONS[k].id;
    assert LOCATIONS[j].id == LOCATIONS[k].id;
  }

  /** `getChildLocations(parentId)`: the entries whose parent is `parentId`, in table order. */
  function GetChildLocations(parentId: string): (r: seq<Location>)
    ensures forall i | 0 <= i < |r| :: r[i] in LOCATIONS && r[i].parentId == Some(parentId)
    ensures forall i | 0 <= i < |LOCATIONS| && LOCATIONS[i].parentId == Some(parentId) :: LOCATIONS[i] in r
    ensures Seqs.IsSubsequence(r, LOCATIONS)
  {
    Seqs.Filter(LOCATIONS, (l: Location) => l.parentId == Some(parentId))
  }

  /** `getRootLocations()`: the continent entries. */
  function GetRootLocations(): (r: seq<Location>)
    ensures forall i | 0 <= i < |r| :: r[i] in LOCATIONS && r[i].kind == Continent
    ensures Seqs.IsSubsequence(r, LOCATIONS)
  {
    Seqs.Filter(LOCATIONS, (l: Location) => l.kind == Continent)
  }

  /** The roots are exactly the six continents, in table order. */
  lemma RootsAreContinents()
    ensures GetRootLocations() == CONTINENTS
  {
    TableShape();
    FilterKeepsFirst(CONTINENTS, COUNTRIES, CITIES, (l: Location) => l.kind == Continent);
  }

  lemma FilterKeepsFirst<T>(a: seq<T>, b: seq<T>, c: seq<T>, p: T -> bool)
    requires forall i | 0 <= i < |a| :: p(a[i])
    requires forall i | 0 <= i < |b| :: !p(b[i])
    requires forall i | 0 <= i < |c| :: !p(c[i])
    ensures Seqs.Filter(a + b + c, p) == a
  {
    Seqs.FilterConcat(a + b, c, p);
    Seqs.FilterConcat(a, b, p);
    Seqs.FilterKeepsAll(a, p);
    Seqs.FilterDropsAll(b, p);
    Seqs.FilterDropsAll(c, p);
  }

  /** Every country's parent is a continent of the table. */
  lemma CountriesResolve()
    ensures forall i | 0 <= i < |COUNTRIES| ::
      var p := GetLocationById(COUNTRIES[i].parentId.value); p.Some? && p.value.kind == Continent
  {
    TableShape();
    CountryParents();
    forall i | 0 <= i < |COUNTRIES|
      ensures var p := GetLocationById(COUNTRIES[i].parentId.value); p.Some? && p.value.kind == Continent
    {
      var c := COUNTRY_PARENT[i];
      assert LOCATIONS[c] == CONTINENTS[c];
      GetLocationByIdFinds(c, "");
    }
  }

  /** Every city's parent is a country of the table. */
  lemma CitiesResolve()
    ensures forall i | 0 <= i < |CITIES| ::
      var p := GetLocationById(CITIES[i].parentId.value); p.Some? && p.value.kind == Country
  {
    TableShape();
    CityParents();
    forall i | 0 <= i < |CITIES|
      ensures var p := GetLocationById(CITIES[i].parentId.value); p.Some? && p.value.kind == Country
    {
      var c := CITY_PARENT[i];
      assert LOCATIONS[6 + c] == COUNTRIES[c];
      GetLocationByIdFinds(6 + c, "");
    }
  }

  // ---------------------------------------------------------------------
  // Emoji

  const GLOBE_ASIA_AUSTRALIA := "\U{1F30F}"
  const GLOBE_EUROPE_AFRICA := "\U{1F30D}"
  const GLOBE_AMERICAS := "\U{1F30E}"
  const GLOBE_WITH_MERIDIANS := "\U{1F310}"
  const WHITE_FLAG := "\U{1F3F3}\U{FE0F}"
  const ROUND_PUSHPIN := "\U{1F4CD}"

  /** `continentEmojis`: the globe turned towards each continent. */
  const CONTINENT_EMOJIS: map<string, string> := map[
    "AS" := GLOBE_ASIA_AUSTRALIA,
    "EU" := GLOBE_EUROPE_AFRICA,
    "NA" := GLOBE_AMERICAS,
    "SA" := GLOBE_AMERICAS,
    "AF" := GLOBE_EUROPE_AFRICA,
    "OC" := GLOBE_ASIA_AUSTRALIA
  ]

  /** The keys of `countryFlags`, in the order the source lists them. */
  const FLAG_CODES: seq<string> := ["VN", "JP", "SG", "KR", "IN", "CN", "DE", "GB", "FR", "NL", "PL",
                                    "US", "CA", "MX", "BR", "AR", "CL", "ZA", "NG", "EG", "AU", "NZ"]

  /**
   * `countryFlags`: each flag is the pair of regional indicator symbols that
   * spells the country code, which is how a flag emoji is encoded.
   */
  const COUNTRY_FLAGS: map<string, string> := map code | code in FLAG_CODES :: Flag(code)

  /** The regional indicator symbol for an upper-case ASCII letter (other characters are kept). */
  function RegionalIndicator(c: char): (r: char)
    ensures IsUpperLetter(c) ==> 0x1F1E6 <= r as int <= 0x1F1FF && r as int - 0x1F1E6 == c as int - 'A' as int
  {
    if IsUpperLetter(c) then (0x1F1E6 + (c as int - 'A' as int)) as char else c
  }

  function Flag(code: string): string {
    seq(|code|, i requires 0 <= i < |code| => RegionalIndicator(code[i]))
  }

  /** Every key is a two-letter upper-case code, so every flag is a pair of regional indicators. */
  lemma FlagCodesWellFormed()
    ensures forall i | 0 <= i < |FLAG_CODES| ::
      |FLAG_CODES[i]| == 2 && IsUpperLetter(FLAG_CODES[i][0]) && IsUpperLetter(FLAG_CODES[i][1])
  {
  }

  /** Each country of the table has its code among the flag keys, in the same order. */
  lemma EveryCountryHasAFlag()
    ensures |FLAG_CODES| == |COUNTRIES|
    ensures forall i | 0 <= i < |COUNTRIES| :: COUNTRIES[i].code == FLAG_CODES[i]
  {
  }

  /** `getLocationEmoji(location)` */
  function GetLocationEmoji(location: Location): (e: string)
    ensures location.kind == Continent ==> e == GLOBE_WITH_MERIDIANS || e in CONTINENT_EMOJIS.Values
    ensures location.kind == Country ==> e == WHITE_FLAG || e in COUNTRY_FLAGS.Values
    ensures location.kind == City ==> e == ROUND_PUSHPIN || e in COUNTRY_FLAGS.Values
  {
    match location.kind
    case Continent =>
      if location.code in CONTINENT_EMOJIS then CONTINENT_EMOJIS[location.code] else GLOBE_WITH_MERIDIANS
    case Country =>
      if location.code in COUNTRY_FLAGS then COUNTRY_FLAGS[location.code] else WHITE_FLAG
    case City =>
      var parent := GetLocationById(location.parentId.GetOr(""));
      if parent.Some? && parent.value.kind == Country && parent.value.code in COUNTRY_FLAGS then COUNTRY_FLAGS[parent.value.code]
      else ROUND_PUSHPIN
  }

  /** Every continent of the table shows a globe turned towards it, never the default one. */
  lemma ContinentEmojis()
    ensures forall i | 0 <= i < |CONTINENTS| ::
      GetLocationEmoji(CONTINENTS[i]) in {GLOBE_ASIA_AUSTRALIA, GLOBE_EUROPE_AFRICA, GLOBE_AMERICAS}
  {
  }

  /** Every country of the table shows its own flag, never the white flag. */
  lemma CountryEmojis()
    ensures forall i | 0 <= i < |COUNTRIES| :: GetLocationEmoji(COUNTRIES[i]) == Flag(COUNTRIES[i].code)
  {
    TableShape();
    EveryCountryHasAFlag();
    forall i | 0 <= i < |COUNTRIES| ensures GetLocationEmoji(COUNTRIES[i]) == Flag(COUNTRIES[i].code) {
      CountryShowsFlag(COUNTRIES[i]);
    }
  }

  /** A country whose code has a flag shows that flag. */
  lemma CountryShowsFlag(location: Location)
    requires location.kind == Country && location.code in FLAG_CODES
    ensures GetLocationEmoji(location) == Flag(location.code)
  {
  }

  /** Every city of the table shows the flag of its country. */
  lemma CityEmojis()
    ensures forall i | 0 <= i < |CITIES| :: GetLocationEmoji(CITIES[i]) == GetLocationEmoji(COUNTRIES[CITY_PARENT[i]])
  {
    TableShape();
    CityParents();
    CountryEmojis();
    forall i | 0 <= i < |CITIES| ensures GetLocationEmoji(CITIES[i]) == GetLocationEmoji(COUNTRIES[CITY_PARENT[i]]) {
      CityShowsFlag(CITIES[i], CITY_PARENT[i]);
    }
  }

  /** A city whose parent is a country of the table shows that country's flag. */
  lemma CityShowsFlag(location: Location, c: nat)
    requires location.kind == City && c < |COUNTRIES| && location.parentId == Some(COUNTRIES[c].id)
    ensures GetLocationEmoji(location) == Flag(COUNTRIES[c].code)
  {
    CountryLookup(c);
    CountryFlag(c);
  }

  /** Looking up a country's id finds that country. */
  lemma CountryLookup(c: nat)
    requires c < |COUNTRIES|
    ensures GetLocationById(COUNTRIES[c].id) == Some(COUNTRIES[c]) && COUNTRIES[c].kind == Country
  {
    CountryInTable(c);
    GetLocationByIdFinds(6 + c, "");
  }

  /** The countries follow the six continents in the table. */
  lemma CountryInTable(c: nat)
    requires c < |COUNTRIES|
    ensures 6 + c < |LOCATIONS| && LOCATIONS[6 + c] == COUNTRIES[c] && COUNTRIES[c].kind == Country
  {
    TableShape();
  }

  /** A country's code is a key of `countryFlags`, mapped to the flag it spells. */
  lemma CountryFlag(c: nat)
    requires c < |COUNTRIES|
    ensures COUNTRIES[c].code in COUNTRY_FLAGS && COUNTRY_FLAGS[COUNTRIES[c].code] == Flag(COUNTRIES[c].code)
  {
    EveryCountryHasAFlag();
    assert COUNTRIES[c].code in FLAG_CODES;
  }

  /**
   * The fallbacks: a continent code without a globe shows the globe with
   * meridians, a country code without a flag the white flag, and a city
   * without a parent, or whose parent is unknown or not a country, the
   * pushpin.
   */
  lemma EmojiFallbacks(location: Location)
    ensures location.kind == Continent && location.code !in CONTINENT_EMOJIS ==> GetLocationEmoji(location) == GLOBE_WITH_MERIDIANS
    ensures location.kind == Country && location.code !in FLAG_CODES ==> GetLocationEmoji(location) == WHITE_FLAG
    ensures location.kind == City && location.parentId.None? ==> GetLocationEmoji(location) == ROUND_PUSHPIN
    ensures location.kind == City && location.parentId.Some? &&
            (GetLocationById(location.parentId.value).None? || GetLocationById(location.parentId.value).value.kind != Country) ==>
            GetLocationEmoji(location) == ROUND_PUSHPIN
  {
    if location.kind == City && location.parentId.None? {
      NoEmptyId();
    }
  }

  /** No entry of the table has the empty id. */
  lemma NoEmptyId()
    ensures GetLocationById("").None?
  {
    TableShape();
    forall i | 0 <= i < |LOCATIONS| ensures LOCATIONS[i].id != "" {
      assert |LOCATIONS[i].id| > 0;
    }
  }

  /** `query.toLowerCase().trim()` */
  function NormalizeQuery(query: string): (q: string)
    ensures |q| <= |query|
    ensures forall i | 0 <= i < |q| :: !IsUpperLetter(q[i])
    ensures q == [] || (!IsWhitespace(q[0]) && !IsWhitespace(q[|q| - 1]))
  {
    Trim(Lower(query))
  }

  /** The filter of `searchLocations`: the lower-cased name, code or one of the ISPs contains the query. */
  predicate Matches(location: Location, q: string) {
    || Contains(Lower(location.name), q)
    || Contains(Lower(location.code), q)
    || (location.isps.Some? && exists i | 0 <= i < |location.isps.value| :: Contains(Lower(location.isps.value[i]), q))
  }

  /** `searchLocations(query)` */
  function SearchLocations(query: string): (r: seq<Location>)
    ensures NormalizeQuery(query) == [] ==> r == []
    ensures forall i | 0 <= i < |r| :: r[i] in LOCATIONS && Matches(r[i], NormalizeQuery(query))
    ensures NormalizeQuery(query) != [] ==>
      forall i | 0 <= i < |LOCATIONS| && Matches(LOCATIONS[i], NormalizeQuery(query)) :: LOCATIONS[i] in r
    ensures Seqs.IsSubsequence(r, LOCATIONS)
  {
    var q := NormalizeQuery(query);
    if q == [] then [] else Seqs.Filter(LOCATIONS, (l: Location) => Matches(l, q))
  }

  /** A query finds nothing exactly when it is blank: empty or only whitespace. */
  lemma BlankQuery(query: string)
    ensures NormalizeQuery(query) == [] <==> forall i | 0 <= i < |query| :: IsWhitespace(query[i])
  {
    TrimBlank(Lower(query));
    assert forall i | 0 <= i < |query| :: IsWhitespace(Lower(query)[i]) == IsWhitespace(query[i]);
  }

  /** Search ignores case: an upper-cased query finds the same entries. */
  lemma SearchIgnoresCase(query: string)
    ensures SearchLocations(Upper(query)) == SearchLocations(query)
  {
    LowerOfUpper(query);
  }
}
