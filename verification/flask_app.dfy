/** The Flask `/predict` route (web/app.py:61-126): the same pipeline as the
    Streamlit page, answered as JSON. Unlike the page it is all-or-nothing:
    any exception in any stage becomes a 500 reply carrying only the error. */
module FlaskApp {
  import opened Wrappers
  import opened Features
  import opened Specialty
  import opened Places

  /** The JSON request body; either key may be missing. */
  datatype Request = Request(symptoms: Option<seq<string>>, location: Option<string>)

  datatype Body =
    | ErrorBody(error: string)
    | Recommendation(predictedDisease: string, specialist: string, doctors: seq<DoctorRecord>)

  datatype Response = Response(status: int, body: Body)

  const NotConfigured := "Backend server is not configured correctly."
  const MissingInput := "Missing symptoms or location."

  /** The details loop (web/app.py:91-115): one record per doctor, in order,
      or the first exception raised. */
  function DetailRecords(doctors: seq<Candidate>, lookup: PlaceLookup): (r: Result<seq<DoctorRecord>, Exception>)
    ensures r.Ok? <==> forall i :: 0 <= i < |doctors| ==>
      doctors[i].placeId.Some? && lookup(doctors[i].placeId.value).Ok?
    ensures r.Ok? ==> |r.value| == |doctors|
    ensures r.Ok? ==> forall i :: 0 <= i < |doctors| ==>
      && doctors[i].placeId.Some?
      && r.value[i] == ShapeDoctor(Flask, DetailsOf(lookup(doctors[i].placeId.value).value), doctors[i].placeId.value)
  {
    if |doctors| == 0 then Ok([])
    else
      match doctors[0].placeId
      case None => Err(KeyError("place_id"))
      case Some(placeId) =>
        match lookup(placeId)
        case Err(e) => Err(e)
        case Ok(response) =>
          match DetailRecords(doctors[1..], lookup)
          case Err(e) => Err(e)
          case Ok(rest) => Ok([ShapeDoctor(Flask, DetailsOf(response), placeId)] + rest)
  }

  /** The exception reported is the one of the first doctor that fails. */
  lemma {:induction false} DetailRecordsFirstFailure(doctors: seq<Candidate>, lookup: PlaceLookup, k: nat)
    requires k < |doctors|
    requires forall i :: 0 <= i < k ==> doctors[i].placeId.Some? && lookup(doctors[i].placeId.value).Ok?
    requires doctors[k].placeId.None? || lookup(doctors[k].placeId.value).Err?
    ensures DetailRecords(doctors, lookup) ==
      if doctors[k].placeId.None? then Err(KeyError("place_id")) else Err(lookup(doctors[k].placeId.value).error)
  {
    if k > 0 {
      DetailRecordsFirstFailure(doctors[1..], lookup, k - 1);
    }
  }

  /** The route's pipeline after validation; every stage may raise. */
  function Pipeline(vocab: seq<string>, symptoms: seq<string>, location: string,
                    classify: Classifier, search: TextSearch, lookup: PlaceLookup): (r: Result<Body, Exception>)
    ensures r.Ok? ==> r.value.Recommendation?
    ensures r.Ok? ==> classify(FeatureVector(vocab, symptoms)) == Ok(r.value.predictedDisease)
    ensures r.Ok? ==> r.value.specialist == Resolve(r.value.predictedDisease)
    ensures r.Ok? ==> |r.value.doctors| <= MaxDoctors
    ensures classify(FeatureVector(vocab, symptoms)).Err? ==> r == Err(classify(FeatureVector(vocab, symptoms)).error)
    ensures classify(FeatureVector(vocab, symptoms)).Ok? ==>
      var query := SearchQuery(Resolve(classify(FeatureVector(vocab, symptoms)).value), location);
      && (search(query).Err? ==> r == Err(search(query).error))
      && (search(query).Ok? && DetailRecords(DoctorsList(search(query).value), lookup).Err? ==>
            r == Err(DetailRecords(DoctorsList(search(query).value), lookup).error))
      && (search(query).Ok? && DetailRecords(DoctorsList(search(query).value), lookup).Ok? ==>
            r == Ok(Recommendation(classify(FeatureVector(vocab, symptoms)).value,
                                   Resolve(classify(FeatureVector(vocab, symptoms)).value),
                                   DetailRecords(DoctorsList(search(query).value), lookup).value)))
  {
    match classify(FeatureVector(vocab, symptoms))
    case Err(e) => Err(e)
    case Ok(prediction) =>
      var specialist := Resolve(prediction);
      match search(SearchQuery(specialist, location))
      case Err(e) => Err(e)
      case Ok(response) =>
        match DetailRecords(DoctorsList(response), lookup)
        case Err(e) => Err(e)
        case Ok(doctors) => Ok(Recommendation(prediction, specialist, doctors))
  }

  /** POST /predict. `configured` says whether the model and the maps client
      were loaded at start-up. */
  function Predict(configured: bool, vocab: seq<string>, request: Request,
                   classify: Classifier, search: TextSearch, lookup: PlaceLookup): (resp: Response)
    ensures resp.status == 200 || resp.status == 400 || resp.status == 500
    ensures resp.status == 200 <==> resp.body.Recommendation?
    ensures resp.status == 400 <==>
      configured && (|request.symptoms.GetOr([])| == 0 || |request.location.GetOr("")| == 0)
    ensures !configured ==> resp == Response(500, ErrorBody(NotConfigured))
    ensures configured && resp.status != 400 ==>
      var outcome := Pipeline(vocab, request.symptoms.GetOr([]), request.location.GetOr(""), classify, search, lookup);
      && (outcome.Err? ==> resp == Response(500, ErrorBody(Message(outcome.error))))
      && (outcome.Ok? ==> resp == Response(200, outcome.value))
  {
    if !configured then Response(500, ErrorBody(NotConfigured))
    else
      var symptoms := request.symptoms.GetOr([]);
      var location := request.location.GetOr("");
      if |symptoms| == 0 || |location| == 0 then Response(400, ErrorBody(MissingInput))
      else
        match Pipeline(vocab, symptoms, location, classify, search, lookup)
        case Err(e) => Response(500, ErrorBody(Message(e)))
        case Ok(body) => Response(200, body)
  }

  /** Invalid input is answered before the classifier or the maps client is
      consulted: the reply does not depend on them. */
  lemma ValidationBeforeCollaborators(vocab: seq<string>, request: Request,
                                      c1: Classifier, s1: TextSearch, l1: PlaceLookup,
                                      c2: Classifier, s2: TextSearch, l2: PlaceLookup)
    requires |request.symptoms.GetOr([])| == 0 || |request.location.GetOr("")| == 0
    ensures Predict(true, vocab, request, c1, s1, l1) == Response(400, ErrorBody(MissingInput))
    ensures Predict(true, vocab, request, c1, s1, l1) == Predict(true, vocab, request, c2, s2, l2)
  {
  }

  /** A 200 reply holds exactly the prediction for the encoded symptoms, its
      specialist, and one record per capped search result for the query
      `"<specialist> in <location>"`, in provider order. */
  lemma SuccessContents(vocab: seq<string>, request: Request,
                        classify: Classifier, search: TextSearch, lookup: PlaceLookup)
    requires Predict(true, vocab, request, classify, search, lookup).status == 200
    ensures var body := Predict(true, vocab, request, classify, search, lookup).body;
      var symptoms, location := request.symptoms.GetOr([]), request.location.GetOr("");
      && classify(FeatureVector(vocab, symptoms)) == Ok(body.predictedDisease)
      && body.specialist == Resolve(body.predictedDisease)
      && search(SearchQuery(body.specialist, location)).Ok?
      && var doctors := DoctorsList(search(SearchQuery(body.specialist, location)).value);
      && |body.doctors| == |doctors| <= MaxDoctors
      && forall i :: 0 <= i < |doctors| ==>
           && doctors[i].placeId.Some?
           && lookup(doctors[i].placeId.value).Ok?
           && body.doctors[i] == ShapeDoctor(Flask, DetailsOf(lookup(doctors[i].placeId.value).value), doctors[i].placeId.value)
  {
  }

  /** When the classifier, the search and every capped lookup succeed, the
      reply is 200 with the prediction, its specialist and one record per
      capped result, in provider order. */
  lemma PredictSucceeds(vocab: seq<string>, request: Request,
                        classify: Classifier, search: TextSearch, lookup: PlaceLookup,
                        prediction: string, response: SearchResponse)
    requires |request.symptoms.GetOr([])| > 0 && |request.location.GetOr("")| > 0
    requires classify(FeatureVector(vocab, request.symptoms.GetOr([]))) == Ok(prediction)
    requires search(SearchQuery(Resolve(prediction), request.location.GetOr(""))) == Ok(response)
    requires forall i :: 0 <= i < |DoctorsList(response)| ==>
      DoctorsList(response)[i].placeId.Some? && lookup(DoctorsList(response)[i].placeId.value).Ok?
    ensures var resp := Predict(true, vocab, request, classify, search, lookup);
      var doctors := DoctorsList(response);
      && resp.status == 200
      && resp.body.Recommendation?
      && resp.body.predictedDisease == prediction
      && resp.body.specialist == Resolve(prediction)
      && |resp.body.doctors| == |doctors|
      && forall i :: 0 <= i < |doctors| ==>
           resp.body.doctors[i] == ShapeDoctor(Flask, DetailsOf(lookup(doctors[i].placeId.value).value), doctors[i].placeId.value)
  {
  }

  /** All-or-nothing: when any capped result's details cannot be fetched,
      the reply is a 500 carrying that error and no doctor list. */
  lemma FailedLookupFailsRequest(vocab: seq<string>, request: Request,
                                 classify: Classifier, search: TextSearch, lookup: PlaceLookup,
                                 prediction: string, response: SearchResponse, k: nat)
    requires |request.symptoms.GetOr([])| > 0 && |request.location.GetOr("")| > 0
    requires classify(FeatureVector(vocab, request.symptoms.GetOr([]))) == Ok(prediction)
    requires search(SearchQuery(Resolve(prediction), request.location.GetOr(""))) == Ok(response)
    requires k < |DoctorsList(response)|
    requires DoctorsList(response)[k].placeId.Some? && lookup(DoctorsList(response)[k].placeId.value).Err?
    ensures var resp := Predict(true, vocab, request, classify, search, lookup);
      && resp.status == 500
      && resp.body.ErrorBody?
      && ((forall i :: 0 <= i < k ==>
             DoctorsList(response)[i].placeId.Some? && lookup(DoctorsList(response)[i].placeId.value).Ok?) ==>
          resp.body == ErrorBody(Message(lookup(DoctorsList(response)[k].placeId.value).error)))
  {
    var doctors := DoctorsList(response);
    if forall i :: 0 <= i < k ==> doctors[i].placeId.Some? && lookup(doctors[i].placeId.value).Ok? {
      DetailRecordsFirstFailure(doctors, lookup, k);
    }
  }

  /** The end-to-end example: itching and skin rash in New Delhi, classified
      as a fungal infection, searches for dermatologists in New Delhi; an
      empty but successful search is a 200 reply with no doctors. */
  lemma FungalInfectionInNewDelhi(vocab: seq<string>, classify: Classifier, search: TextSearch, lookup: PlaceLookup)
    requires classify(FeatureVector(vocab, ["itching", "skin_rash"])) == Ok("Fungal infection")
    requires search("Dermatologist in New Delhi") == Ok(SearchResponse(Some([])))
    ensures Predict(true, vocab, Request(Some(["itching", "skin_rash"]), Some("New Delhi")), classify, search, lookup)
      == Response(200, Recommendation("Fungal infection", "Dermatologist", []))
  {
    assert SearchQuery(Resolve("Fungal infection"), "New Delhi") == "Dermatologist in New Delhi";
  }
}
