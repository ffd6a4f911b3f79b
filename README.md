# Radioguessr: round engine and gateway router

Radioguessr is a browser geography game. It plays a random radio station, the player
clicks the world map where they think the station is, and the guess scores up to 5000
points by its great-circle distance to the station. A small edge worker relays the
station directory (places list, location pages, audio streams) and adds CORS and
security headers.

This project models the two cores of the game in Dafny and proves their properties:

- **Round engine** (`script.js`). The score table `calculateScore` (`scoring.dfy`).
  The state of a round as a class `Round.RoundEngine` (`round.dfy`). Its fields are the
  current station, the cumulative score, whether the map's click handler is registered,
  and the guess marker. `handleMapClick`, Leaflet's click dispatch and the two halves of
  `loadRandomStation` are its methods. The validation, random choice, id extraction and
  defaulting of `fetchRandomStation` are pure functions (`stations.dfy`).
- **Gateway router** (`api/worker.js`). `handleRequest` is a pure function from the
  request path to the route, status, headers, body, resource id and upstream URL
  (`worker.dfy`).
- JavaScript's `split('/')` with its first and last pieces (`text.dfy`).
- Lemmas that connect the two cores (`wiring.dfy`): the URLs the game builds are routed
  by the gateway to the matching upstream resource.

External inputs become parameters:
- The haversine distance (`calculateDistance`) and the tail `Math.floor(5000 * Math.exp(-d / 2000))`
  are function-valued parameters (`Scoring.Numerics`). Nothing is assumed about them.
  The clamp `Math.max(0, …)` alone makes every score non-negative.
- `Math.random()` is a real `rand` with `0 <= rand < 1`, the only thing it promises.
  The index `Math.floor(rand * n)` is proved to lie in `[0, n)`.
- The two directory responses are input values. The page fetch is a function from the
  requested URL to the response, so the model records which page was requested.
- Floating-point numbers are modelled as `real`.
- Whether clicks are accepted is one boolean. Both `initMap` (script.js:19) and `loadRandomStation`
  (script.js:193) register `handleMapClick`, and Leaflet ignores a second `on` of the same handler,
  so the handler is either registered once or not at all.

## Model

| member | source | states |
|---|---|---|
| Scoring.CalculateScore | script.js:35-42 | the score is never negative; below 1000 km it is 5000 minus 1000 for each of the bounds 10, 50, 100, 500 km reached; from 1000 km on it is the tail clamped at 0 |
| Scoring.StepBoundsReached | script.js:36-40 | the count of step bounds a distance reaches, bound by bound |
| Scoring.StepTable | script.js:36-40 | under 10 km scores 5000; [10,50) scores 4000, [50,100) 3000, [100,500) 2000, [500,1000) 1000 |
| Scoring.ScoreNonIncreasingBelowTail | script.js:36-40 | below 1000 km a farther guess never scores more |
| Scoring.ScoreJumpsAtTailStart | script.js:40-41 | when the tail at 1000 km is worth more than 1000 points, a guess at 1000 km outscores every guess in [500,1000) km: the table is not monotone at its switch to the tail |
| Scoring.ClampToZero | script.js:41 | `Math.max(0, t)` is at least `t` and at least 0, and is one of the two |
| Scoring.TruePositionSwapsStoredOrder | script.js:63-64 | the station's latitude is `coordinates[1]` and its longitude `coordinates[0]`; the stored `[lon, lat]` order and the map's (lat, lng) point convert into each other without loss |
| Scoring.RoundHalfUp | script.js:76 | `Math.round` returns the integer within half a unit of its argument, rounding halves up |
| Round.Resolve | script.js:60-78 | a guess is measured against the station's swapped coordinates; the round score is `calculateScore` of that distance and is non-negative; the shown distance is the rounded distance; title, city and country are the station's |
| Round.SumNonNegative | script.js:67-68 | a sum of non-negative round scores is non-negative |
| Round.SumAppend | script.js:68 | adding a round adds exactly its score to the sum |
| Round.RoundEngine.constructor | script.js:6-19 | at page load there is no station, the score is 0, the click handler is registered and no marker is shown |
| Round.RoundEngine.ScoreNonNegative | script.js:9 | the cumulative score of a valid engine is never negative |
| Round.RoundEngine.HandleMapClick | script.js:45-103 | with no station loaded nothing changes; otherwise the guess is scored against the station, the score grows by exactly the round score (so it never decreases), the round is recorded, the marker is placed and the handler is unregistered |
| Round.RoundEngine.MapClick | script.js:19 | a click reaches `handleMapClick` only while it is registered; an accepted click gives the whole new state (score, rounds, marker, guess count, handler unregistered); after one accepted guess the next click changes nothing; one guess per station is preserved |
| Round.RoundEngine.BeginLoad | script.js:173-193 | as written: markers are removed and the click handler is registered again while the old station stays current |
| Round.RoundEngine.EndLoad | script.js:195 | as written: a fetched station becomes current; a failure keeps the old one; the click registration is not touched |
| Round.RoundEngine.BeginLoadGuarded | script.js:179-193 | corrected: markers are removed and clicks stay unregistered during the fetch; one guess per station is preserved |
| Round.RoundEngine.EndLoadGuarded | script.js:195 | corrected: the click handler is registered only together with a newly current station; one guess per station is preserved |
| Round.RoundEngine.LoadRandomStation | script.js:173-195 | one load attempt: the fetched result is that of `fetchRandomStation`; on success the station is current and clicks are accepted; the score is untouched |
| Round.ClickWhileLoadingAsWritten | script.js:193-195 | as written, a click during a load is scored a second time against the station already guessed, doubling its score, and a click on the station that then arrives is ignored |
| Round.ClickWhileLoadingGuarded | script.js:101-102 | with the corrected load, the click during the load is ignored and the next station is scored |
| Stations.RandomIndex | script.js:121 | `Math.floor(Math.random() * n)` is always an index in `[0, n)` |
| Stations.OrDefault | script.js:162-165 | a present non-empty value is kept; an absent or empty one becomes the placeholder; the result is always one of the two |
| Stations.SelectPlace | script.js:110-121 | a failed places response fails; a missing or empty list fails with invalid location data; otherwise the chosen place is an element of the list |
| Stations.FindChannelSection | script.js:131 | finds the first section whose item type is `channel`, or reports that there is none |
| Stations.StationFromItem | script.js:147-167 | a missing or empty station URL fails; an empty last `/` segment fails; on success the stream URL is the gateway's listen URL for that segment, and the title, city, country and coordinates default to "Unknown Station", "Unknown City", "Unknown Country" and `[0, 0]` |
| Stations.BuildStation | script.js:124-167 | a failed page response fails; a page without content fails; no channel section fails; a channel section with no items fails; otherwise the station is built from one of its items |
| Stations.FetchRandomStation | script.js:105-171 | a failed places response or a missing or empty list fails; otherwise the outcome, success or any page-stage failure, is that of building a station from a listed place and the page fetched at that place's page URL |
| Text.Split | script.js:154 | `split` returns at least one piece and no piece contains the separator |
| Text.JoinOfSplit | script.js:154 | joining the pieces of a split gives back the string |
| Text.SplitOfJoin | api/worker.js:41 | splitting a join of separator-free pieces gives back the pieces |
| Text.FirstSegment | api/worker.js:41 | the first piece is the text before the first separator, or the whole string |
| Text.FirstSegmentUnique | api/worker.js:50 | only one string is the text before the first separator |
| Text.LastSegment | script.js:154 | `pop()` of the pieces is the text after the last separator, or the whole string |
| Text.LastSegmentUnique | script.js:154 | only one string is the text after the last separator |
| Worker.HandleRequest | api/worker.js:5-62 | `/` gives the welcome text; otherwise the prefixes `/api/places`, `/api/page/`, `/api/listen/` are tested in order and anything else is a 404 "Not Found"; status 404 exactly for the 404; every response has all CORS and security headers plus the route's content type; page and listen relay to the upstream URL of the segment after the route name |
| Worker.PathId | api/worker.js:41 | element 3 of the path's pieces is the segment right after `/api/page/` or `/api/listen/` |
| Worker.SplitRoutePath | api/worker.js:50 | a route path splits into at least four pieces, the fourth being the segment after the route name |
| Worker.SplitUnderName | api/worker.js:41 | a path under `/api/<name>/` has as fourth piece the first segment of what follows |
| Worker.RoutePrefixesDisjoint | api/worker.js:32-49 | no path starts with two of the three route prefixes |
| Worker.EveryResponseCarriesCorsHeaders | api/worker.js:9-22 | every response, 404 included, carries the four security headers and allows any origin with GET |
| Wiring.PlacesRequestIsRelayed | script.js:110 | the places request is relayed to the upstream places list |
| Wiring.PageRequestIsRelayed | script.js:124 | the page request for a place is relayed with the place id (cut at its first `/`) as resource id |
| Wiring.ListenPathIsRelayed | api/worker.js:49-51 | the listen path of a `/`-free id is relayed to the upstream stream of exactly that id |
| Wiring.SelectedStreamIsRelayed | script.js:160 | every station the game selects streams from a URL the gateway relays to that station's upstream stream |

## Left out

- `calculateDistance` (haversine trigonometry) and `Math.exp`: floating-point numerics, taken as parameters. Their symmetry, the zero distance and the 10007.5 km fixture are not modelled.
- Scoring.CalculateScore: does not state that the tail is non-increasing with distance, because the exponential is a parameter.
- Round.RoundEngine.LoadRandomStation: after a failed attempt it leaves clicks unregistered. The source leaves them registered and retries at once; the retry is left to the caller.
- Floating-point corner cases are not modelled: NaN, rounding of `Math.random() * n`, and a JSON `geo` array with fewer than two numbers (in the source such an array makes the distance and the score NaN; longer arrays behave as their first two entries).
- Non-string JSON values in the `||` defaults are not modelled, and neither is a missing place `id` (which the source turns into the text `undefined`).
- Leaflet map, markers, polyline, tiles, view reset and all DOM and button updates are UI. Only the guess marker and the click registration are modelled.
- Audio playback, the audio `error` listener and the unbounded retry of `loadRandomStation` are asynchronous I/O. Each load attempt is modelled; the caller repeats it.
- `fetch`, `response.json()`, JSON re-serialisation and streaming in the worker are network I/O. A relayed body is the upstream URL it would come from. The listen route answers 200 whatever the upstream status. The places and page routes answer 200 when the upstream body is JSON. When a fetch fails or the body is not JSON, the worker throws; this is not modelled.
- URL parsing (`new URL(request.url)`) is not modelled; the router takes the path directly.

## Findings

| source | as written | input that shows it | evidently intended | confidence | as-written member | corrected member |
|---|---|---|---|---|---|---|
| script.js:193 | `loadRandomStation` registers the click handler before it awaits the next station at line 195 | a station is guessed, Play is pressed, and the player clicks the map before the fetch resolves: the old station is scored again, the handler is removed, and the new station cannot be guessed | guessing stays disabled until the next station is current (comment at line 101) | medium, not executed | Round.ClickWhileLoadingAsWritten | Round.RoundEngine.EndLoadGuarded |
