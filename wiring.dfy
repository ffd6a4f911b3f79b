/** How the game and the gateway fit together: the URLs script.js builds are the
    ones api/worker.js routes to the matching upstream resource. */
module Wiring {
  import opened Wrappers
  import opened Text
  import opened Stations
  import opened Worker

  /** The gateway path of a station's stream. */
  function ListenPath(stationId: string): string {
    ListenPrefix + stationId + "/channel.mp3"
  }

  /** The places list the game fetches is the one the gateway relays. */
  lemma PlacesRequestIsRelayed()
    ensures HandleRequest(PlacesPrefix).route == PlacesRelay
    ensures HandleRequest(PlacesPrefix).body == Relayed(PlacesUpstream)
  {
  }

  /** The page the game requests for a place reaches the upstream page of that place's
      id, cut at its first `/` if it has one. */
  lemma PageRequestIsRelayed(place: Place)
    ensures PageUrl(place) == ApiUrl + PagePrefix + place.id
    ensures HandleRequest(PagePrefix + place.id).route == PageRelay
    ensures HandleRequest(PagePrefix + place.id).id == Some(FirstSegment(place.id, '/'))
    ensures '/' !in place.id ==>
              HandleRequest(PagePrefix + place.id).body == Relayed(PageUpstream + place.id)
  {
    var path := PagePrefix + place.id;
    RoutePrefixesDisjoint(path);
    assert path[|PagePrefix|..] == place.id;
    var r := HandleRequest(path);
    FirstSegmentUnique(r.id.value, FirstSegment(place.id, '/'), place.id, '/');
    if '/' !in place.id {
      FirstSegmentUnique(place.id, FirstSegment(place.id, '/'), place.id, '/');
    }
  }

  /** A stream path for a separator-free id is relayed to the upstream stream of that id. */
  lemma ListenPathIsRelayed(stationId: string)
    requires '/' !in stationId
    ensures ListenUrl(stationId) == ApiUrl + ListenPath(stationId)
    ensures HandleRequest(ListenPath(stationId)).route == ListenRelay
    ensures HandleRequest(ListenPath(stationId)).id == Some(stationId)
    ensures HandleRequest(ListenPath(stationId)).body
              == Relayed(ListenUpstream + stationId + "/channel.mp3")
  {
    var path := ListenPath(stationId);
    var rest := stationId + "/channel.mp3";
    assert path == ListenPrefix + rest;
    assert path[|ListenPrefix|..] == rest;
    RoutePrefixesDisjoint(path);
    assert path != "/";
    var r := HandleRequest(path);
    assert IsFirstSegment(stationId, rest, '/') by {
      assert rest[|stationId|] == '/';
    }
    FirstSegmentUnique(r.id.value, stationId, rest, '/');
  }

  /** The stream URL of every station the game selects is served by the gateway's
      listen relay, from the upstream stream of the station's id. */
  lemma SelectedStreamIsRelayed(place: Place, item: ChannelItem)
    requires StationFromItem(place, item).Success?
    ensures var stationId := LastSegment(item.page.value.url.value, '/');
            && StationFromItem(place, item).value.stationUrl == ApiUrl + ListenPath(stationId)
            && HandleRequest(ListenPath(stationId)).route == ListenRelay
            && HandleRequest(ListenPath(stationId)).body
                 == Relayed(ListenUpstream + stationId + "/channel.mp3")
  {
    ListenPathIsRelayed(LastSegment(item.page.value.url.value, '/'));
  }
}
