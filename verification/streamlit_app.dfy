/** The Streamlit front-end's request handling (app.py:105-216): validation,
    prediction, search, the details loop that also gathers map points, and
    what is shown afterwards. An exception inside the processing block is
    caught and reported, and whatever was computed before it is still shown;
    a doctor without a place id met again while drawing the cards raises
    outside that block and stops the page. */
module StreamlitApp {
  import opened Wrappers
  import opened Features
  import opened Specialty
  import opened Places

  /** A search result after the details loop; `details` stays absent for the
      results the loop never reached. */
  datatype Enriched = Enriched(candidate: Candidate, details: Option<Details>)

  /** The state the details loop leaves behind. */
  datatype Harvest = Harvest(doctors: seq<Enriched>, points: seq<MapPoint>, error: Option<Exception>)

  function Unvisited(cs: seq<Candidate>): (es: seq<Enriched>)
    ensures |es| == |cs|
    ensures forall i :: 0 <= i < |cs| ==> es[i] == Enriched(cs[i], None)
  {
    seq(|cs|, i requires 0 <= i < |cs| => Enriched(cs[i], None))
  }

  /** The details that were attached, in doctor order. */
  function Attached(es: seq<Enriched>): seq<Details> {
    if |es| == 0 then []
    else (if es[0].details.Some? then [es[0].details.value] else []) + Attached(es[1..])
  }

  /** The details lookup and the map-point extraction both succeed for doctor `c`. */
  predicate FetchSucceeds(c: Candidate, lookup: PlaceLookup) {
    && c.placeId.Some?
    && lookup(c.placeId.value).Ok?
    && PointOf(DetailsOf(lookup(c.placeId.value).value)).Ok?
  }

  /** The details of each doctor, when every fetch succeeds. */
  function FetchedDetails(doctors: seq<Candidate>, lookup: PlaceLookup): (ds: seq<Details>)
    requires forall i :: 0 <= i < |doctors| ==> FetchSucceeds(doctors[i], lookup)
    ensures |ds| == |doctors|
  {
    seq(|doctors|, i requires 0 <= i < |doctors| && FetchSucceeds(doctors[i], lookup) =>
      DetailsOf(lookup(doctors[i].placeId.value).value))
  }

  /** The details loop (app.py:155-168): for each doctor in order, look up its
      place id, fetch and attach its details, and add a map point when the
      details have a geometry. The first exception ends the loop. */
  function Enrich(doctors: seq<Candidate>, lookup: PlaceLookup): (h: Harvest)
    ensures |h.doctors| == |doctors|
    ensures forall i :: 0 <= i < |doctors| ==> h.doctors[i].candidate == doctors[i]
    ensures forall i :: 0 <= i < |doctors| && h.doctors[i].details.Some? ==>
      && doctors[i].placeId.Some?
      && lookup(doctors[i].placeId.value).Ok?
      && h.doctors[i].details.value == DetailsOf(lookup(doctors[i].placeId.value).value)
    ensures h.error.None? <==> forall i :: 0 <= i < |doctors| ==> FetchSucceeds(doctors[i], lookup)
    ensures h.error.None? ==> forall i :: 0 <= i < |doctors| ==> h.doctors[i].details.Some?
    decreases |doctors|
  {
    if |doctors| == 0 then Harvest([], [], None)
    else
      var c := doctors[0];
      match c.placeId
      case None => Harvest(Unvisited(doctors), [], Some(KeyError("place_id")))
      case Some(placeId) =>
        match lookup(placeId)
        case Err(e) => Harvest(Unvisited(doctors), [], Some(e))
        case Ok(response) =>
          var d := DetailsOf(response);
          match PointOf(d)
          case Err(e) => Harvest([Enriched(c, Some(d))] + Unvisited(doctors[1..]), [], Some(e))
          case Ok(point) =>
            var rest := Enrich(doctors[1..], lookup);
            Harvest([Enriched(c, Some(d))] + rest.doctors,
                    (if point.Some? then [point.value] else []) + rest.points,
                    rest.error)
  }

  /** The doctors that got details form a prefix of the list: the loop visits
      them in order and stops at the first exception. */
  lemma {:induction false} EnrichAttachesPrefix(doctors: seq<Candidate>, lookup: PlaceLookup)
    ensures var h := Enrich(doctors, lookup);
      forall i, j :: 0 <= i < j < |doctors| && h.doctors[j].details.Some? ==> h.doctors[i].details.Some?
  {
    if |doctors| > 0 && doctors[0].placeId.Some? {
      var placeId := doctors[0].placeId.value;
      if lookup(placeId).Ok? && PointOf(DetailsOf(lookup(placeId).value)).Ok? {
        EnrichAttachesPrefix(doctors[1..], lookup);
        var h := Enrich(doctors, lookup);
        assert h.doctors[1..] == Enrich(doctors[1..], lookup).doctors;
      }
    }
  }

  /** The map points are exactly those of the attached details, in doctor
      order; the details on which point extraction raised give none. */
  lemma {:induction false} EnrichPoints(doctors: seq<Candidate>, lookup: PlaceLookup)
    ensures Enrich(doctors, lookup).points == PointsOf(Attached(Enrich(doctors, lookup).doctors))
  {
    var h := Enrich(doctors, lookup);
    if |doctors| == 0 {
    } else if doctors[0].placeId.None? || lookup(doctors[0].placeId.value).Err? {
      NothingAttached(h.doctors);
    } else {
      var c := doctors[0];
      var d := DetailsOf(lookup(c.placeId.value).value);
      var tail := h.doctors[1..];
      assert h.doctors == [Enriched(c, Some(d))] + tail;
      assert Attached(h.doctors) == [d] + Attached(tail);
      assert ([d] + Attached(tail))[1..] == Attached(tail);
      if PointOf(d).Err? {
        NothingAttached(tail);
      } else {
        EnrichPoints(doctors[1..], lookup);
      }
    }
  }

  lemma {:induction false} NothingAttached(es: seq<Enriched>)
    requires forall i :: 0 <= i < |es| ==> es[i].details.None?
    ensures Attached(es) == []
  {
    if |es| > 0 {
      NothingAttached(es[1..]);
    }
  }

  /** When every fetch succeeds, every doctor carries its fetched details and
      the points are exactly those of the fetched details, in doctor order. */
  lemma EnrichSucceeds(doctors: seq<Candidate>, lookup: PlaceLookup)
    requires forall i :: 0 <= i < |doctors| ==> FetchSucceeds(doctors[i], lookup)
    ensures var h := Enrich(doctors, lookup);
      && h.error == None
      && (forall i :: 0 <= i < |doctors| ==> h.doctors[i] == Enriched(doctors[i], Some(FetchedDetails(doctors, lookup)[i])))
      && h.points == PointsOf(FetchedDetails(doctors, lookup))
      && |h.points| == CountGeometry(FetchedDetails(doctors, lookup))
  {
    var h := Enrich(doctors, lookup);
    var ds := FetchedDetails(doctors, lookup);
    EnrichPoints(doctors, lookup);
    AttachedAll(h.doctors, ds);
    assert forall i :: 0 <= i < |ds| ==> PointOf(ds[i]).Ok? by {
      forall i | 0 <= i < |ds| ensures PointOf(ds[i]).Ok? {
        assert FetchSucceeds(doctors[i], lookup);
      }
    }
    PointsCountGeometry(ds);
  }

  lemma {:induction false} AttachedAll(es: seq<Enriched>, ds: seq<Details>)
    requires |es| == |ds|
    requires forall i :: 0 <= i < |es| ==> es[i].details == Some(ds[i])
    ensures Attached(es) == ds
  {
    if |es| > 0 {
      AttachedAll(es[1..], ds[1..]);
    }
  }

  /** A failing lookup ends the loop there: doctors from that one on are left
      without details, and the error is the lookup's own. */
  lemma {:induction false} EnrichStopsAtFailedLookup(doctors: seq<Candidate>, lookup: PlaceLookup, k: nat)
    requires k < |doctors|
    requires forall i :: 0 <= i < k ==> FetchSucceeds(doctors[i], lookup)
    requires doctors[k].placeId.Some? && lookup(doctors[k].placeId.value).Err?
    ensures var h := Enrich(doctors, lookup);
      && h.error == Some(lookup(doctors[k].placeId.value).error)
      && (forall j :: 0 <= j < k ==> h.doctors[j].details.Some?)
      && forall j :: k <= j < |doctors| ==> h.doctors[j].details.None?
  {
    if k > 0 {
      assert FetchSucceeds(doctors[0], lookup);
      EnrichStopsAtFailedLookup(doctors[1..], lookup, k - 1);
    }
  }

  /** The loop reports the exception of the first doctor whose fetch fails:
      a missing place id raises a key error for `place_id`, a failed lookup
      its own exception, and a failed map-point extraction the key error of
      the missing key. The doctors before it keep their details, and so does
      the failing doctor itself once its lookup succeeded, since the details
      are attached before the map point is read; the doctors after it stay
      without details. */
  lemma {:induction false} EnrichFirstFailure(doctors: seq<Candidate>, lookup: PlaceLookup, k: nat)
    requires k < |doctors|
    requires forall i :: 0 <= i < k ==> FetchSucceeds(doctors[i], lookup)
    requires !FetchSucceeds(doctors[k], lookup)
    ensures var c := doctors[k];
      Enrich(doctors, lookup).error == Some(
        if c.placeId.None? then KeyError("place_id")
        else if lookup(c.placeId.value).Err? then lookup(c.placeId.value).error
        else PointOf(DetailsOf(lookup(c.placeId.value).value)).error)
    ensures var h, c := Enrich(doctors, lookup), doctors[k];
      && (forall j :: 0 <= j < k ==> h.doctors[j].details.Some?)
      && (h.doctors[k].details.Some? <==> c.placeId.Some? && lookup(c.placeId.value).Ok?)
      && (forall j :: k < j < |doctors| ==> h.doctors[j].details.None?)
  {
    if k > 0 {
      assert FetchSucceeds(doctors[0], lookup);
      EnrichFirstFailure(doctors[1..], lookup, k - 1);
    }
  }

  // ---------------------------------------------------------------- display

  /** The doctor cards drawn so far, and the key error that stopped drawing. */
  datatype Rendered = Rendered(cards: seq<DoctorRecord>, crash: Option<Exception>)

  /** The card loop (app.py:188-216): each doctor's attached details, or none,
      shaped with the Streamlit defaults; a doctor without a place id stops it. */
  function Cards(doctors: seq<Enriched>): (r: Rendered)
    ensures |r.cards| <= |doctors|
    ensures forall i :: 0 <= i < |r.cards| ==>
      && doctors[i].candidate.placeId.Some?
      && r.cards[i] == ShapeDoctor(Streamlit, doctors[i].details.GetOr(NoDetails), doctors[i].candidate.placeId.value)
    ensures r.crash.None? <==> forall i :: 0 <= i < |doctors| ==> doctors[i].candidate.placeId.Some?
    ensures r.crash.None? ==> |r.cards| == |doctors|
    ensures r.crash.Some? ==>
      r.crash == Some(KeyError("place_id")) && |r.cards| < |doctors| && doctors[|r.cards|].candidate.placeId.None?
  {
    if |doctors| == 0 then Rendered([], None)
    else
      match doctors[0].candidate.placeId
      case None => Rendered([], Some(KeyError("place_id")))
      case Some(placeId) =>
        var rest := Cards(doctors[1..]);
        Rendered([ShapeDoctor(Streamlit, doctors[0].details.GetOr(NoDetails), placeId)] + rest.cards, rest.crash)
  }

  /** Drawing can only stop after the details loop has raised: a doctor
      without a place id already failed the loop, or the loop ended earlier. */
  lemma CrashOnlyAfterFailedLoop(doctors: seq<Candidate>, lookup: PlaceLookup)
    ensures Cards(Enrich(doctors, lookup).doctors).crash.Some? ==> Enrich(doctors, lookup).error.Some?
  {
    var h := Enrich(doctors, lookup);
    if Cards(h.doctors).crash.Some? {
      var k := |Cards(h.doctors).cards|;
      assert !FetchSucceeds(doctors[k], lookup);
    }
  }

  /** What the results area shows after processing. */
  datatype Shown = Shown(
    prediction: string,
    specialist: string,
    doctors: seq<DoctorRecord>,
    noDoctorsWarning: bool,        // "No doctors found matching your criteria. ..."
    mapPoints: seq<MapPoint>,
    crash: Option<Exception>)

  /** The results area after "Find a Doctor": one of the two input warnings,
      or the outcome of processing, with the caught error if any and the
      results shown if any. */
  datatype View =
    | SymptomWarning               // "Please select at least one symptom."
    | LocationWarning              // "Please enter your location."
    | Processed(error: Option<Exception>, shown: Option<Shown>)

  /** app.py:177-224: results are shown only for a non-empty prediction and
      specialist; with no doctors a warning replaces the cards; the map is
      drawn after the cards, so not when drawing stopped. */
  function Present(prediction: string, specialist: string, doctors: seq<Enriched>, points: seq<MapPoint>): (s: Option<Shown>)
    ensures s.Some? <==> prediction != "" && specialist != ""
    ensures s.Some? ==> s.value.prediction == prediction && s.value.specialist == specialist
    ensures s.Some? ==> (s.value.noDoctorsWarning <==> |doctors| == 0)
    ensures s.Some? ==> |s.value.doctors| <= |doctors|
    ensures s.Some? && s.value.crash.None? ==> |s.value.doctors| == |doctors|
    ensures s.Some? && s.value.crash.None? && |doctors| > 0 ==> s.value.mapPoints == points
    ensures s.Some? && |doctors| > 0 ==>
      && s.value.doctors == Cards(doctors).cards
      && s.value.crash == Cards(doctors).crash
      && s.value.mapPoints == (if Cards(doctors).crash.None? then points else [])
    ensures s.Some? && |doctors| == 0 ==> s.value.doctors == [] && s.value.mapPoints == [] && s.value.crash == None
  {
    if prediction == "" || specialist == "" then None
    else if |doctors| == 0 then Some(Shown(prediction, specialist, [], true, [], None))
    else
      var r := Cards(doctors);
      Some(Shown(prediction, specialist, r.cards, false, if r.crash.None? then points else [], r.crash))
  }

  /** One press of "Find a Doctor" with the selected symptoms and location. */
  function Recommend(vocab: seq<string>, requested: seq<string>, location: string,
                     classify: Classifier, search: TextSearch, lookup: PlaceLookup): (v: View)
    ensures v == SymptomWarning <==> |requested| == 0
    ensures v == LocationWarning <==> |requested| > 0 && |location| == 0
    ensures v.Processed? && v.shown.Some? ==>
      && classify(FeatureVector(vocab, requested)) == Ok(v.shown.value.prediction)
      && v.shown.value.specialist == Resolve(v.shown.value.prediction)
    ensures v.Processed? ==>
      (v.shown.Some? <==> classify(FeatureVector(vocab, requested)).Ok? && classify(FeatureVector(vocab, requested)).value != "")
    ensures v.Processed? && classify(FeatureVector(vocab, requested)).Err? ==>
      v.error == Some(classify(FeatureVector(vocab, requested)).error)
  {
    if |requested| == 0 then SymptomWarning
    else if |location| == 0 then LocationWarning
    else
      match classify(FeatureVector(vocab, requested))
      case Err(e) => Processed(Some(e), None)
      case Ok(prediction) =>
        var specialist := Resolve(prediction);
        match search(SearchQuery(specialist, location))
        case Err(e) => Processed(Some(e), Present(prediction, specialist, [], []))
        case Ok(response) =>
          var h := Enrich(DoctorsList(response), lookup);
          Processed(h.error, Present(prediction, specialist, h.doctors, h.points))
  }

  /** The input checks run before any collaborator is consulted: on invalid
      input the view does not depend on them. */
  lemma ValidationBeforeCollaborators(vocab: seq<string>, requested: seq<string>, location: string,
                                      c1: Classifier, s1: TextSearch, l1: PlaceLookup,
                                      c2: Classifier, s2: TextSearch, l2: PlaceLookup)
    requires |requested| == 0 || |location| == 0
    ensures Recommend(vocab, requested, location, c1, s1, l1) == Recommend(vocab, requested, location, c2, s2, l2)
  {
  }

  /** The search is asked exactly `"<specialist> in <location>"`: two searches
      that agree on that query give the same view. */
  lemma SearchSeesOnlyTheQuery(vocab: seq<string>, requested: seq<string>, location: string,
                               classify: Classifier, s1: TextSearch, s2: TextSearch, lookup: PlaceLookup,
                               prediction: string)
    requires classify(FeatureVector(vocab, requested)) == Ok(prediction)
    requires s1(SearchQuery(Resolve(prediction), location)) == s2(SearchQuery(Resolve(prediction), location))
    ensures Recommend(vocab, requested, location, classify, s1, lookup) == Recommend(vocab, requested, location, classify, s2, lookup)
  {
  }

  /** A failing classifier: the error is reported and nothing is shown. */
  lemma ClassifierFailureShowsNothing(vocab: seq<string>, requested: seq<string>, location: string,
                                      classify: Classifier, search: TextSearch, lookup: PlaceLookup)
    requires |requested| > 0 && |location| > 0
    requires classify(FeatureVector(vocab, requested)).Err?
    ensures Recommend(vocab, requested, location, classify, search, lookup)
      == Processed(Some(classify(FeatureVector(vocab, requested)).error), None)
  {
  }

  /** A failing search: the error is reported, and the prediction and
      specialist are still shown, with the no-doctors warning. */
  lemma SearchFailureStillShowsPrediction(vocab: seq<string>, requested: seq<string>, location: string,
                                          classify: Classifier, search: TextSearch, lookup: PlaceLookup,
                                          prediction: string)
    requires |requested| > 0 && |location| > 0 && prediction != ""
    requires classify(FeatureVector(vocab, requested)) == Ok(prediction)
    requires search(SearchQuery(Resolve(prediction), location)).Err?
    ensures var v := Recommend(vocab, requested, location, classify, search, lookup);
      && v.error == Some(search(SearchQuery(Resolve(prediction), location)).error)
      && v.shown == Some(Shown(prediction, Resolve(prediction), [], true, [], None))
  {
  }

  /** The whole pipeline when every stage succeeds: no error, one card per
      capped search result in provider order, each shaped from its fetched
      details, and one map point per doctor with a geometry, in doctor order. */
  lemma RecommendSucceeds(vocab: seq<string>, requested: seq<string>, location: string,
                          classify: Classifier, search: TextSearch, lookup: PlaceLookup,
                          prediction: string, response: SearchResponse)
    requires |requested| > 0 && |location| > 0 && prediction != ""
    requires classify(FeatureVector(vocab, requested)) == Ok(prediction)
    requires search(SearchQuery(Resolve(prediction), location)) == Ok(response)
    requires forall i :: 0 <= i < |DoctorsList(response)| ==> FetchSucceeds(DoctorsList(response)[i], lookup)
    ensures var v := Recommend(vocab, requested, location, classify, search, lookup);
      var doctors := DoctorsList(response);
      var ds := FetchedDetails(doctors, lookup);
      && v.error == None
      && v.shown.Some?
      && v.shown.value.prediction == prediction
      && v.shown.value.specialist == Resolve(prediction)
      && v.shown.value.crash == None
      && (v.shown.value.noDoctorsWarning <==> |doctors| == 0)
      && |v.shown.value.doctors| == |doctors|
      && (forall i :: 0 <= i < |doctors| ==>
            v.shown.value.doctors[i] == ShapeDoctor(Streamlit, ds[i], doctors[i].placeId.value))
      && v.shown.value.mapPoints == PointsOf(ds)
      && |v.shown.value.mapPoints| == CountGeometry(ds)
  {
    var doctors := DoctorsList(response);
    EnrichSucceeds(doctors, lookup);
  }

  /** The cards drawn after the details loop stopped at a failing lookup
      for result `k`: one per result, fetched details before `k`, defaults
      from `k` on. */
  lemma {:induction false} CardsAfterFailedLookup(doctors: seq<Candidate>, lookup: PlaceLookup, k: nat)
    requires k < |doctors|
    requires forall i :: 0 <= i < |doctors| ==> doctors[i].placeId.Some?
    requires forall i :: 0 <= i < k ==> FetchSucceeds(doctors[i], lookup)
    requires lookup(doctors[k].placeId.value).Err?
    ensures var r := Cards(Enrich(doctors, lookup).doctors);
      && r.crash == None
      && |r.cards| == |doctors|
      && (forall j :: 0 <= j < k ==>
            r.cards[j] == ShapeDoctor(Streamlit, DetailsOf(lookup(doctors[j].placeId.value).value), doctors[j].placeId.value))
      && (forall j :: k <= j < |doctors| ==>
            r.cards[j] == ShapeDoctor(Streamlit, NoDetails, doctors[j].placeId.value))
  {
    EnrichStopsAtFailedLookup(doctors, lookup, k);
    var es := Enrich(doctors, lookup).doctors;
    var r := Cards(es);
    assert forall i :: 0 <= i < |es| ==> es[i].candidate.placeId.Some?;
    forall j | 0 <= j < |doctors|
      ensures r.cards[j] == ShapeDoctor(Streamlit, es[j].details.GetOr(NoDetails), doctors[j].placeId.value)
    {
      assert es[j].candidate == doctors[j];
    }
  }

  /** Past validation and a successful prediction and search, the view is the
      outcome of the details loop over the capped results. */
  lemma RecommendAfterSearch(vocab: seq<string>, requested: seq<string>, location: string,
                             classify: Classifier, search: TextSearch, lookup: PlaceLookup,
                             prediction: string, response: SearchResponse)
    requires |requested| > 0 && |location| > 0
    requires classify(FeatureVector(vocab, requested)) == Ok(prediction)
    requires search(SearchQuery(Resolve(prediction), location)) == Ok(response)
    ensures var h := Enrich(DoctorsList(response), lookup);
      Recommend(vocab, requested, location, classify, search, lookup)
        == Processed(h.error, Present(prediction, Resolve(prediction), h.doctors, h.points))
  {
  }

  /** A failing details lookup at result `k`: the error is reported, yet
      the prediction, the specialist and the cards of every capped result
      are shown, with the points gathered before the failure. Which card
      each result gets is stated by `CardsAfterFailedLookup`: fetched
      details before `k`, defaults from `k` on. */
  lemma LookupFailureStillShowsEveryDoctor(vocab: seq<string>, requested: seq<string>, location: string,
                                           classify: Classifier, search: TextSearch, lookup: PlaceLookup,
                                           prediction: string, response: SearchResponse,
                                           doctors: seq<Candidate>, k: nat)
    requires |requested| > 0 && |location| > 0 && prediction != ""
    requires classify(FeatureVector(vocab, requested)) == Ok(prediction)
    requires search(SearchQuery(Resolve(prediction), location)) == Ok(response)
    requires doctors == DoctorsList(response)
    requires k < |doctors|
    requires forall i :: 0 <= i < |doctors| ==> doctors[i].placeId.Some?
    requires forall i :: 0 <= i < k ==> FetchSucceeds(doctors[i], lookup)
    requires lookup(doctors[k].placeId.value).Err?
    ensures var v := Recommend(vocab, requested, location, classify, search, lookup);
      && v.error == Some(lookup(doctors[k].placeId.value).error)
      && v.shown.Some?
      && v.shown.value.prediction == prediction
      && v.shown.value.specialist == Resolve(prediction)
      && v.shown.value.crash == None
      && |v.shown.value.doctors| == |doctors|
      && v.shown.value.doctors == Cards(Enrich(doctors, lookup).doctors).cards
      && v.shown.value.mapPoints == PointsOf(Attached(Enrich(doctors, lookup).doctors))
  {
    var h := Enrich(doctors, lookup);
    RecommendAfterSearch(vocab, requested, location, classify, search, lookup, prediction, response);
    EnrichStopsAtFailedLookup(doctors, lookup, k);
    CardsAfterFailedLookup(doctors, lookup, k);
    EnrichPoints(doctors, lookup);
    PresentAllDrawn(prediction, Resolve(prediction), h.doctors, h.points);
  }

  /** With a prediction and at least one result, all of which have place ids,
      the page shows every card and the gathered points. */
  lemma PresentAllDrawn(prediction: string, specialist: string, doctors: seq<Enriched>, points: seq<MapPoint>)
    requires prediction != "" && specialist != "" && |doctors| > 0
    requires Cards(doctors).crash == None
    ensures Present(prediction, specialist, doctors, points)
      == Some(Shown(prediction, specialist, Cards(doctors).cards, false, points, None))
  {
  }
}
