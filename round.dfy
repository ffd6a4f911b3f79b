/** The round engine of script.js: the globals `currentStation`, `score` and
    `currentMarker`, and whether `handleMapClick` is registered on the map. */
module Round {
  import opened Wrappers
  import opened Scoring
  import opened Stations

  /** What the game shows once a guess is scored. */
  datatype RoundResult = RoundResult(
    title: string, city: string, country: string,
    guess: GeoPoint, truth: GeoPoint,
    distance: real, shownDistance: int, roundScore: int)

  /** The scoring of one guess against one station. */
  function Resolve(station: Station, guess: GeoPoint, num: Numerics): (r: RoundResult)
    ensures r.truth.lat == station.stationInfo.coordinates[1]
    ensures r.truth.lng == station.stationInfo.coordinates[0]
    ensures r.distance == num.haversine(guess.lat, guess.lng, r.truth.lat, r.truth.lng)
    ensures r.roundScore == CalculateScore(r.distance, num.expTail) && r.roundScore >= 0
    ensures r.shownDistance as real - 0.5 <= r.distance < r.shownDistance as real + 0.5
    ensures r.guess == guess && r.title == station.stationInfo.title
    ensures r.city == station.stationInfo.city && r.country == station.stationInfo.country
  {
    var info := station.stationInfo;
    var truth := TruePosition(info.coordinates);
    var distance := num.haversine(guess.lat, guess.lng, truth.lat, truth.lng);
    RoundResult(info.title, info.city, info.country, guess, truth,
                distance, RoundHalfUp(distance), CalculateScore(distance, num.expTail))
  }

  /** The sum of the round scores, oldest first. */
  function Sum(s: seq<int>): int {
    if s == [] then 0 else Sum(s[..|s| - 1]) + s[|s| - 1]
  }

  /** A sum of non-negative round scores is non-negative. */
  lemma {:induction false} SumNonNegative(s: seq<int>)
    requires forall i :: 0 <= i < |s| ==> s[i] >= 0
    ensures Sum(s) >= 0
    decreases |s|
  {
    if s != [] {
      SumNonNegative(s[..|s| - 1]);
    }
  }

  /** Adding one round adds its score. */
  lemma SumAppend(s: seq<int>, x: int)
    ensures Sum(s + [x]) == Sum(s) + x
  {
    assert (s + [x])[..|s|] == s;
  }

  class RoundEngine {
    /** The station being played (`currentStation`), absent before the first load. */
    var currentStation: Option<Station>
    /** The cumulative score (`score`). */
    var score: int
    /** Whether `handleMapClick` is registered for map clicks. */
    var clickEnabled: bool
    /** The guess marker on the map (`currentMarker`), if it is shown. */
    var guessMarker: Option<GeoPoint>

    /** The scores of the accepted guesses, oldest first. */
    ghost var roundScores: seq<int>
    /** How many guesses were accepted since `currentStation` was last assigned. */
    ghost var guessesOnStation: nat

    /** The cumulative score is the sum of the round scores, and none of them is negative. */
    ghost predicate Valid()
      reads this
    {
      && score == Sum(roundScores)
      && (forall i :: 0 <= i < |roundScores| ==> roundScores[i] >= 0)
    }

    /** The rule of the game: one guess per station, and none while clicks would be
        scored against a station already guessed. */
    ghost predicate OneGuessPerStation()
      reads this
    {
      guessesOnStation <= 1 && (clickEnabled ==> guessesOnStation == 0)
    }

    /** The state at page load: `initMap` registers the click handler; no station yet. */
    constructor ()
      ensures Valid() && OneGuessPerStation()
      ensures currentStation == None && score == 0 && clickEnabled && guessMarker == None
      ensures roundScores == [] && guessesOnStation == 0
    {
      currentStation := None;
      score := 0;
      clickEnabled := true;
      guessMarker := None;
      roundScores := [];
      guessesOnStation := 0;
    }

    /** A valid engine never has a negative score. */
    lemma ScoreNonNegative()
      requires Valid()
      ensures score >= 0
    {
      SumNonNegative(roundScores);
    }

    /** `handleMapClick`: ignore the click when no station is loaded; otherwise score the
        guess against the station, add the round score and unregister the handler. */
    method HandleMapClick(guess: GeoPoint, num: Numerics) returns (result: Option<RoundResult>)
      requires Valid()
      modifies this
      ensures Valid()
      ensures old(currentStation).None? ==> result == None && unchanged(this)
      ensures old(currentStation).Some? ==>
                && result == Some(Resolve(old(currentStation).value, guess, num))
                && score == old(score) + result.value.roundScore
                && roundScores == old(roundScores) + [result.value.roundScore]
                && guessesOnStation == old(guessesOnStation) + 1
                && !clickEnabled
                && guessMarker == Some(guess)
                && currentStation == old(currentStation)
      ensures score >= old(score)
    {
      if currentStation.None? {
        return None;
      }
      var r := Resolve(currentStation.value, guess, num);
      SumAppend(roundScores, r.roundScore);
      guessMarker := Some(guess);
      score := score + r.roundScore;
      roundScores := roundScores + [r.roundScore];
      guessesOnStation := guessesOnStation + 1;
      clickEnabled := false;
      result := Some(r);
    }

    /** One attempt of `loadRandomStation`, with the corrected ordering: clicks are
        unregistered while the station is fetched and registered again once a fetched
        station is current. On a failure the source starts over; the caller repeats
        the attempt. */
    method LoadRandomStation(places: Fetched<PlacesBody>, rand1: real,
                             fetchPage: string -> Fetched<PageBody>, rand2: real)
      returns (fetched: Result<Station, FetchError>)
      requires Valid() && OneGuessPerStation()
      requires 0.0 <= rand1 < 1.0 && 0.0 <= rand2 < 1.0
      modifies this
      ensures Valid() && OneGuessPerStation()
      ensures fetched == FetchRandomStation(places, rand1, fetchPage, rand2)
      ensures clickEnabled <==> fetched.Success?
      ensures guessMarker == None
      ensures currentStation == if fetched.Success? then Some(fetched.value) else old(currentStation)
      ensures guessesOnStation == if fetched.Success? then 0 else old(guessesOnStation)
      ensures score == old(score) && roundScores == old(roundScores)
    {
      BeginLoadGuarded();
      fetched := FetchRandomStation(places, rand1, fetchPage, rand2);
      EndLoadGuarded(fetched);
    }

    /** A click on the map: delivered to `handleMapClick` only while it is registered. */
    method MapClick(guess: GeoPoint, num: Numerics) returns (result: Option<RoundResult>)
      requires Valid()
      modifies this
      ensures Valid()
      ensures old(OneGuessPerStation()) ==> OneGuessPerStation()
      ensures !old(clickEnabled) || old(currentStation).None? ==> result == None && unchanged(this)
      ensures old(clickEnabled) && old(currentStation).Some? ==>
                && result == Some(Resolve(old(currentStation).value, guess, num))
                && score == old(score) + result.value.roundScore
                && roundScores == old(roundScores) + [result.value.roundScore]
                && guessesOnStation == old(guessesOnStation) + 1
                && !clickEnabled
                && guessMarker == Some(guess)
                && currentStation == old(currentStation)
      ensures score >= old(score)
    {
      result := None;
      if clickEnabled {
        result := HandleMapClick(guess, num);
      }
    }

    /** `loadRandomStation` as written, up to its `await` (lines 173-193): remove the
        markers and register the click handler again. The old station stays current. */
    method BeginLoad()
      requires Valid()
      modifies this
      ensures Valid()
      ensures clickEnabled && guessMarker == None
      ensures currentStation == old(currentStation) && score == old(score)
      ensures roundScores == old(roundScores) && guessesOnStation == old(guessesOnStation)
    {
      guessMarker := None;
      clickEnabled := true;
    }

    /** `loadRandomStation` as written, after its `await` (line 195): a fetched station
        becomes current; a failure changes nothing (the source then starts over). */
    method EndLoad(fetched: Result<Station, FetchError>)
      requires Valid()
      modifies this
      ensures Valid()
      ensures fetched.Success? ==> currentStation == Some(fetched.value) && guessesOnStation == 0
      ensures fetched.Failure? ==> currentStation == old(currentStation)
                                   && guessesOnStation == old(guessesOnStation)
      ensures clickEnabled == old(clickEnabled) && guessMarker == old(guessMarker)
      ensures score == old(score) && roundScores == old(roundScores)
    {
      if fetched.Success? {
        currentStation := Some(fetched.value);
        guessesOnStation := 0;
      }
    }

    /** Corrected first half of `loadRandomStation`: the markers go, and clicks stay
        unregistered while the next station is fetched. */
    method BeginLoadGuarded()
      requires Valid() && OneGuessPerStation()
      modifies this
      ensures Valid() && OneGuessPerStation()
      ensures !clickEnabled && guessMarker == None
      ensures currentStation == old(currentStation) && score == old(score)
      ensures roundScores == old(roundScores) && guessesOnStation == old(guessesOnStation)
    {
      guessMarker := None;
      clickEnabled := false;
    }

    /** Corrected second half of `loadRandomStation`: the click handler is registered
        only once a fetched station is current. */
    method EndLoadGuarded(fetched: Result<Station, FetchError>)
      requires Valid() && OneGuessPerStation()
      modifies this
      ensures Valid() && OneGuessPerStation()
      ensures fetched.Success? ==> currentStation == Some(fetched.value) && clickEnabled
                                   && guessesOnStation == 0
      ensures fetched.Failure? ==> currentStation == old(currentStation) && clickEnabled == old(clickEnabled)
                                   && guessesOnStation == old(guessesOnStation)
      ensures score == old(score) && roundScores == old(roundScores) && guessMarker == old(guessMarker)
    {
      if fetched.Success? {
        currentStation := Some(fetched.value);
        guessesOnStation := 0;
        clickEnabled := true;
      }
    }
  }

  /** The source as written: a click while the next station loads is scored a second
      time against the station already guessed, and the handler is then missing for the
      station that arrives, so a guess on it is ignored. */
  method ClickWhileLoadingAsWritten(first: Station, next: Station, guess: GeoPoint, num: Numerics)
    returns (firstRound: Option<RoundResult>, duringLoad: Option<RoundResult>,
             onNext: Option<RoundResult>, total: int)
    ensures firstRound.Some? && duringLoad.Some? && onNext.None?
    ensures duringLoad == firstRound && duringLoad.value.title == first.stationInfo.title
    ensures total == 2 * firstRound.value.roundScore
  {
    var game := new RoundEngine();
    game.BeginLoad();
    game.EndLoad(Success(first));
    firstRound := game.MapClick(guess, num);
    game.BeginLoad();
    duringLoad := game.MapClick(guess, num);
    game.EndLoad(Success(next));
    onNext := game.MapClick(guess, num);
    total := game.score;
  }

  /** The same sequence of events with the corrected load: the click while loading is
      ignored and the next station can be guessed. */
  method ClickWhileLoadingGuarded(first: Station, next: Station, guess: GeoPoint, num: Numerics)
    returns (firstRound: Option<RoundResult>, duringLoad: Option<RoundResult>,
             onNext: Option<RoundResult>, total: int)
    ensures firstRound.Some? && duringLoad.None? && onNext.Some?
    ensures onNext.value.title == next.stationInfo.title
    ensures total == firstRound.value.roundScore + onNext.value.roundScore
  {
    var game := new RoundEngine();
    game.BeginLoadGuarded();
    game.EndLoadGuarded(Success(first));
    firstRound := game.MapClick(guess, num);
    game.BeginLoadGuarded();
    duringLoad := game.MapClick(guess, num);
    game.EndLoadGuarded(Success(next));
    onNext := game.MapClick(guess, num);
    total := game.score;
  }
}
