/** Station selection: the checks, the random choices, the id extraction and the
    defaulting that `fetchRandomStation` (script.js) applies to the two directory
    responses. The responses are inputs; `Math.random()` is a real in [0, 1). */
module Stations {
  import opened Wrappers
  import opened Text
  import opened Scoring

  /** The gateway the game talks to. */
  const ApiUrl: string := "https://radioguessr.theomidrouillet.workers.dev"

  /** One entry of the places list: a location with its stations. */
  datatype Place = Place(id: string, title: Option<string>, country: Option<string>, geo: Option<LonLat>)

  /** A fetched response: its `ok` flag and its decoded JSON body. */
  datatype Fetched<T> = Fetched(ok: bool, body: T)

  /** The places body; `list` is None when `data` or `data.list` is missing. */
  datatype PlacesBody = PlacesBody(list: Option<seq<Place>>)

  /** The `page` record of a station item. */
  datatype StationPage = StationPage(url: Option<string>, title: Option<string>)

  /** One item of a channel section. */
  datatype ChannelItem = ChannelItem(page: Option<StationPage>)

  /** One section of a location page. */
  datatype Section = Section(itemsType: string, items: Option<seq<ChannelItem>>)

  /** The location page body; `content` is None when `data` or `data.content` is missing. */
  datatype PageBody = PageBody(content: Option<seq<Section>>)

  /** What the game keeps about the station it plays. */
  datatype StationInfo = StationInfo(title: string, city: string, country: string, coordinates: LonLat)

  datatype Station = Station(stationUrl: string, stationInfo: StationInfo)

  /** Why a station could not be selected; each is one `throw` of `fetchRandomStation`. */
  datatype FetchError =
    | PlacesFetchFailed    // 'Error fetching locations'
    | InvalidLocationData  // 'Invalid location data'
    | CityFetchFailed      // 'Error fetching city information'
    | MalformedPage        // the TypeError of reading `cityData.data.content`
    | NoStationSection     // 'No station section found in this city'
    | NoStationsAvailable  // 'No stations available in this city'
    | InvalidStationUrl    // 'Invalid station URL'
    | InvalidStationId     // 'Invalid station ID'

  /** `Math.floor(rand * length)` for `rand = Math.random()`. */
  function RandomIndex(rand: real, length: nat): (i: nat)
    requires 0.0 <= rand < 1.0 && length > 0
    ensures i < length
  {
    var x := rand * length as real;
    assert x < length as real by {
      assert (1.0 - rand) * length as real > 0.0;
    }
    x.Floor
  }

  /** JavaScript's `given || placeholder` on a string property: an absent or empty value
      is replaced by the placeholder. */
  function OrDefault(given: Option<string>, placeholder: string): (value: string)
    ensures value == placeholder || given == Some(value)
    ensures given.Some? && given.value != "" ==> value == given.value
    ensures given.None? || given == Some("") ==> value == placeholder
  {
    if given.Some? && given.value != "" then given.value else placeholder
  }

  /** The URL of the page request for a place. */
  function PageUrl(place: Place): string {
    ApiUrl + "/api/page/" + place.id
  }

  /** The stream URL the game hands to the audio player. */
  function ListenUrl(stationId: string): string {
    ApiUrl + "/api/listen/" + stationId + "/channel.mp3"
  }

  /** Check the places list and pick a place from it at random. */
  function SelectPlace(places: Fetched<PlacesBody>, rand: real): (r: Result<Place, FetchError>)
    requires 0.0 <= rand < 1.0
    ensures !places.ok ==> r == Failure(PlacesFetchFailed)
    ensures places.ok && (places.body.list.None? || places.body.list.value == []) ==>
              r == Failure(InvalidLocationData)
    ensures places.ok && places.body.list.Some? && places.body.list.value != [] ==>
              r.Success? && r.value in places.body.list.value
  {
    if !places.ok then Failure(PlacesFetchFailed)
    else if places.body.list.None? || |places.body.list.value| == 0 then Failure(InvalidLocationData)
    else
      var list := places.body.list.value;
      Success(list[RandomIndex(rand, |list|)])
  }

  /** `content.find(item => item.itemsType === 'channel')`, as an index. */
  function FindChannelSection(content: seq<Section>): (k: Option<nat>)
    ensures k.Some? ==> k.value < |content| && content[k.value].itemsType == "channel"
    ensures k.Some? ==> forall j :: 0 <= j < k.value ==> content[j].itemsType != "channel"
    ensures k.None? ==> forall j :: 0 <= j < |content| ==> content[j].itemsType != "channel"
  {
    if content == [] then None
    else if content[0].itemsType == "channel" then Some(0)
    else
      match FindChannelSection(content[1..])
      case Some(j) => Some(j + 1)
      case None => None
  }

  /** `channelSection.items || []`. */
  function ItemsOf(section: Section): seq<ChannelItem> {
    if section.items.Some? then section.items.value else []
  }

  /** The station page's URL, when present and not empty. */
  predicate HasUrl(item: ChannelItem) {
    item.page.Some? && item.page.value.url.Some? && item.page.value.url.value != ""
  }

  /** The station id from its URL, the listen URL and the placeholders for the
      missing descriptive fields. */
  function StationFromItem(place: Place, item: ChannelItem): (r: Result<Station, FetchError>)
    ensures !HasUrl(item) ==> r == Failure(InvalidStationUrl)
    ensures HasUrl(item) ==>
              (r == Failure(InvalidStationId) <==> LastSegment(item.page.value.url.value, '/') == "")
    ensures r.Success? <==> HasUrl(item) && LastSegment(item.page.value.url.value, '/') != ""
    ensures r.Success? ==>
              var info := r.value.stationInfo;
              && r.value.stationUrl == ListenUrl(LastSegment(item.page.value.url.value, '/'))
              && info.title == OrDefault(item.page.value.title, "Unknown Station")
              && info.city == OrDefault(place.title, "Unknown City")
              && info.country == OrDefault(place.country, "Unknown Country")
              && info.coordinates == (if place.geo.Some? then place.geo.value else [0.0, 0.0])
  {
    if !HasUrl(item) then Failure(InvalidStationUrl)
    else
      var page := item.page.value;
      var stationId := LastSegment(page.url.value, '/');
      if stationId == "" then Failure(InvalidStationId)
      else
        Success(Station(
          ListenUrl(stationId),
          StationInfo(
            OrDefault(page.title, "Unknown Station"),
            OrDefault(place.title, "Unknown City"),
            OrDefault(place.country, "Unknown Country"),
            if place.geo.Some? then place.geo.value else [0.0, 0.0])))
  }

  /** Check the location page and pick a station of its first channel section at
      random. */
  function BuildStation(place: Place, page: Fetched<PageBody>, rand: real): (r: Result<Station, FetchError>)
    requires 0.0 <= rand < 1.0
    ensures !page.ok ==> r == Failure(CityFetchFailed)
    ensures page.ok && page.body.content.None? ==> r == Failure(MalformedPage)
    ensures page.ok && page.body.content.Some? ==>
              var content := page.body.content.value;
              match FindChannelSection(content)
              case None => r == Failure(NoStationSection)
              case Some(k) =>
                var items := ItemsOf(content[k]);
                && (items == [] ==> r == Failure(NoStationsAvailable))
                && (items != [] ==> exists i :: 0 <= i < |items| && r == StationFromItem(place, items[i]))
  {
    if !page.ok then Failure(CityFetchFailed)
    else if page.body.content.None? then Failure(MalformedPage)
    else
      var content := page.body.content.value;
      match FindChannelSection(content)
      case None => Failure(NoStationSection)
      case Some(k) =>
        var items := ItemsOf(content[k]);
        if |items| == 0 then Failure(NoStationsAvailable)
        else StationFromItem(place, items[RandomIndex(rand, |items|)])
  }

  /** `fetchRandomStation()`: the places response, then the page of the chosen place,
      fetched by URL through `fetchPage`. */
  function FetchRandomStation(
    places: Fetched<PlacesBody>, rand1: real,
    fetchPage: string -> Fetched<PageBody>, rand2: real): (r: Result<Station, FetchError>)
    requires 0.0 <= rand1 < 1.0 && 0.0 <= rand2 < 1.0
    ensures !places.ok ==> r == Failure(PlacesFetchFailed)
    ensures places.ok && (places.body.list.None? || places.body.list.value == []) ==>
              r == Failure(InvalidLocationData)
    ensures places.ok && places.body.list.Some? && places.body.list.value != [] ==>
              exists p :: p in places.body.list.value && r == BuildStation(p, fetchPage(PageUrl(p)), rand2)
  {
    match SelectPlace(places, rand1)
    case Failure(e) => Failure(e)
    case Success(place) => BuildStation(place, fetchPage(PageUrl(place)), rand2)
  }
}
