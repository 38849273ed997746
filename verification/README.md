# Doctor recommender: verified model of the recommendation pipeline

Doctor-Rec turns a set of symptoms and a free-text location into a short list
of nearby doctors. A trained classifier predicts a disease from the
symptoms, a static map names the specialist for that disease, and the Google
Places text search and details lookup find and describe up to five such
doctors. The pipeline exists twice: in the Streamlit page (`app.py`) and in
the Flask `/predict` JSON endpoint (`web/app.py`).

This project models the deterministic data shaping inside that I/O, in Dafny:

- `Vocabulary` (vocabulary.dfy): the symptom vocabulary, which is the
  training table's headers without `prognosis` and without `Unnamed:` columns,
  in header order.
- `Features` (features.dfy): the 0/1 row the classifier receives, one entry
  per vocabulary symptom. It comes as a reference function and as the
  source's dictionary-building loop, which is proved equal to it.
- `Specialty` (specialty.dfy): the fourteen-entry disease to specialist map,
  with the `General Practitioner` fallback. Both front-ends carry the same
  map.
- `Places` (places.dfy): the shapes of the provider's replies as the code
  reads them, with every dictionary key optional. It also holds the search
  query, the five-result cap, the tri-state open status, the map link and the
  doctor record with its per-field defaults. The link and the record are
  parameterised by front-end where the two differ. It also extracts the map
  points.
- `StreamlitApp` (streamlit_app.dfy): the page's handling of one "Find a
  Doctor" press. This covers the two input warnings, the details loop that
  also gathers map points, and what is shown afterwards.
- `FlaskApp` (flask_app.dfy): the `/predict` route with its 200/400/500
  replies.
- `Wrappers` (wrappers.dfy): `Option` for optional fields and `Result` for
  steps that may raise.

The classifier, the text search and the details lookup are function
parameters (`Classifier`, `TextSearch`, `PlaceLookup`). Each returns either
a value or an `Exception`. The code raises two kinds: a `KeyError` for a
missing dictionary key (`place_id`, `location`, `lat`, `lng`) and a
`ServiceError` for a failure inside a collaborator. `Message` renders an
exception as Python's `str(e)` does.

Behaviour of the code worth knowing:

- Detail fetches run one after another, and the first exception ends the
  loop. There is no concurrency and no name-only fallback record.
- The Flask route is all-or-nothing: any exception in any stage becomes a
  500 reply that carries only `str(e)` (`FlaskApp.Predict`,
  `FlaskApp.FailedLookupFailsRequest`).
- The page is not all-or-nothing. It catches the exception, reports it, and
  still shows the prediction, the specialist and every capped search result
  (`StreamlitApp.Present`). Results whose details were never fetched are
  shown with the default fields, and the map shows the points gathered
  before the error (`StreamlitApp.LookupFailureStillShowsEveryDoctor`,
  `StreamlitApp.SearchFailureStillShowsPrediction`). If a search result has
  no `place_id`, drawing the cards raises a second time at that result. This
  happens outside the handled block, so the cards before it stay on the page
  and the map is not drawn (`StreamlitApp.Cards`, `StreamlitApp.Present`).
- An empty search result is not an error. The page shows a "No doctors
  found" warning, and the Flask route replies 200 with an empty `doctors`
  list.
- Only the page produces map points, and only the Flask record has a
  `location` field.

## Model

| member | source | states |
|---|---|---|
| Vocabulary.Symptoms | app.py:42-43 | a header is in the vocabulary iff it is in the header list and is neither `prognosis` nor `Unnamed:`-prefixed; the vocabulary is no longer than the header list |
| Vocabulary.SymptomsAppend | app.py:43 | filtering the concatenation of two header lists gives the two filtered lists concatenated, so no column moves past another |
| Vocabulary.SymptomsPosition | app.py:43 | every kept header appears in the vocabulary at its rank, the number of kept headers before it |
| Vocabulary.RankOrdered | app.py:43 | a kept header ranks strictly before every later header, so kept headers keep their relative order |
| Vocabulary.SymptomsOfSymptoms | web/app.py:34 | a header list of symptom names only is its own vocabulary |
| Vocabulary.SymptomsDistinct | app.py:41-43 | unique column labels give a vocabulary without repeats |
| Features.Encode | app.py:125-129 | the dictionary loop yields a row as long as the vocabulary, with 1 at a position iff that symptom was requested; this row equals the reference `FeatureVector` |
| Features.OnlyKnownSymptomsMatter | app.py:126-128 | two requests that agree on the vocabulary symptoms give the same row, so requested names outside the vocabulary have no effect |
| Features.UnknownSymptomsIgnored | web/app.py:77-79 | appending names that are not in the vocabulary leaves the row unchanged |
| Features.OnesCountKnownRequested | web/app.py:76-79 | over a vocabulary without repeats, the row has exactly as many 1 entries as vocabulary ∩ requested has elements |
| Specialty.Resolve | app.py:135-145 | the mapped specialist for a key, `General Practitioner` otherwise; the result is always one of the seven specialist categories and never empty |
| Specialty.HypertensionNeedsTrailingSpace | app.py:139 | `Hypertension ` (with the trailing space) resolves to Cardiologist, and `Hypertension` falls back |
| Specialty.ResolveExamples | web/app.py:40-47 | Migraine resolves to Neurologist, Fungal infection to Dermatologist, and an unmapped label to the fallback |
| Places.Message | web/app.py:124-126 | a key error renders as the key in single quotes, a collaborator failure as its own message |
| Places.SearchQuery | app.py:150 | the query is the specialist, then ` in `, then the location, in that order and nothing else |
| Places.SearchQueryDeterminesLocation | web/app.py:86 | for a given specialist, two equal queries have equal locations |
| Places.DoctorsList | app.py:152 | a missing `results` gives no doctors; otherwise the doctors are a prefix of the results of length min(5, number of results) |
| Places.OpenStatusOf | app.py:197-200 | the status is unknown iff opening hours are absent, open iff `open_now` is present and true, and closed otherwise, including a missing `open_now` |
| Places.StatusText | app.py:197-200 | `Status unknown`, `🟢 Open now` and `🔴 Closed` are the texts of exactly the unknown, open and closed statuses |
| Places.StatusTextDistinguishes | web/app.py:101-104 | the three status texts are pairwise different |
| Places.ReplaceSpaces | app.py:216 | same length; each space becomes `+`, every other character is kept |
| Places.ReplaceSpacesOnlySpaces | web/app.py:113 | the result has no space, non-space characters are unchanged, and a name without spaces is returned as is |
| Places.MapsUrl | web/app.py:113 | the link is the front-end's prefix, then the name (default `N/A` on the page, empty in the route) with spaces turned into `+`, then `&query_place_id=` and the place id |
| Places.LocationOf | web/app.py:114 | the geometry's own location when geometry and location are both present; `{}` when either is missing |
| Places.ShapeDoctor | web/app.py:106-115 | each present field is shown as given and each missing one by its default (`N/A`, `Address not available`, `Phone not available`, no website, `N/A` rating); a present rating is the provider's score; the status text and map link are derived from the details; the route's record carries the geometry's location (or `{}`), the page's record none |
| Places.ShapeEmptyDetails | app.py:189-200 | a place with no details is shown entirely by the defaults, with status unknown |
| Places.MapsUrlsAgree | app.py:216 | when the place has a name, the page's link and the route's link have the same text after their prefixes: the name with spaces as '+', then the place-id parameter (web/app.py:113 builds the same text after its own prefix) |
| Places.FrontendsAgree | app.py:191-216 | both front-ends show the same name, address, phone, website, rating and status for a place, and their links differ only in the prefix when the name is present |
| Places.PointOf | app.py:165-168 | no point without geometry; with geometry, a point `{name or N/A, lat, lon = lng}` when location, lat and lng are present, and otherwise the key error of the first missing key: `location`, then `lat`, then `lng` |
| Places.PointsOf | app.py:155-168 | there are no more points than details records |
| Places.PointsCountGeometry | app.py:165-168 | when no extraction raises, there is exactly one point per details record with a geometry |
| Places.PointsOfAppend | app.py:167 | points are appended in details order |
| StreamlitApp.Enrich | app.py:152-168 | one entry per capped result, in order; attached details are the fetched ones; the loop raises nothing iff every place id, lookup and point extraction succeeds, and then every result has details |
| StreamlitApp.EnrichAttachesPrefix | app.py:155-163 | the results that got details form a prefix of the list |
| StreamlitApp.EnrichPoints | app.py:165-168 | the map points are exactly those of the attached details, in doctor order |
| StreamlitApp.EnrichSucceeds | app.py:155-168 | when every fetch succeeds, every result carries its fetched details and there is one point per result with a geometry, in doctor order |
| StreamlitApp.EnrichStopsAtFailedLookup | app.py:155-174 | a failing lookup ends the loop with that lookup's error, and it and every later result stay without details |
| StreamlitApp.EnrichFirstFailure | app.py:155-174 | the reported exception is that of the first doctor whose fetch fails: a key error for `place_id` when the id is missing, the lookup's own exception, or the map point's key error. The doctors before it keep their details, and so does the failing doctor once its lookup succeeded, since details are attached (app.py:163) before the point is read; later doctors have none |
| StreamlitApp.Cards | app.py:188-216 | cards follow the results in order, each shaped from the attached details or the defaults; drawing stops with a `place_id` key error exactly at the first result without a place id |
| StreamlitApp.CrashOnlyAfterFailedLoop | app.py:188-190 | drawing stops only when the details loop has already raised |
| StreamlitApp.Present | app.py:177-224 | results are shown iff prediction and specialist are non-empty; with no results, the no-doctors warning replaces cards and map; otherwise the cards and the crash are those of drawing the results, and the map shows the gathered points only when drawing did not stop |
| StreamlitApp.Recommend | app.py:105-152 | the symptom warning appears iff no symptom is selected; the location warning appears iff symptoms are selected and the location is empty; after processing, results are shown iff the classifier returned a non-empty prediction for the encoded row, with its resolved specialist; a classifier error is the reported error |
| StreamlitApp.ValidationBeforeCollaborators | app.py:106-109 | on invalid input the view does not depend on the classifier, search or lookup |
| StreamlitApp.SearchSeesOnlyTheQuery | app.py:150-151 | two searches that agree on `"<specialist> in <location>"` give the same view |
| StreamlitApp.ClassifierFailureShowsNothing | app.py:114-130 | a failing prediction is reported, and nothing is shown |
| StreamlitApp.SearchFailureStillShowsPrediction | app.py:147-185 | a failing search is reported, and the prediction and specialist are still shown with the no-doctors warning |
| StreamlitApp.RecommendSucceeds | app.py:125-224 | when every stage succeeds, there is no error and one card per capped result in provider order, each shaped from its fetched details, plus one map point per doctor with a geometry, in order |
| StreamlitApp.CardsAfterFailedLookup | app.py:155-216 | after a failing lookup at result k, every result still gets a card, in order: fetched details before k, defaults from k on |
| StreamlitApp.LookupFailureStillShowsEveryDoctor | app.py:155-224 | a failing lookup at result k is reported, yet the prediction, the specialist and one card per capped result are shown, drawn from the loop's state after the failure (what each card holds is stated by StreamlitApp.CardsAfterFailedLookup), with the points gathered before the failure |
| FlaskApp.DetailRecords | web/app.py:91-115 | succeeds iff every result has a place id and a successful lookup; then there is exactly one record per result, in order, shaped from its details |
| FlaskApp.DetailRecordsFirstFailure | web/app.py:92-98 | the error raised is that of the first result whose place id or lookup fails |
| FlaskApp.Pipeline | web/app.py:76-122 | fails with the classifier's error, else with the search's error for `"<specialist> in <location>"`, else with the first failing details fetch; otherwise succeeds with the prediction, its specialist and the records of the capped results |
| FlaskApp.Predict | web/app.py:64-126 | status is 200, 400 or 500; unconfigured is 500; 400 iff configured and symptoms or location missing or empty; otherwise 500 with `str(e)` of the failing stage, or 200 with the pipeline's recommendation |
| FlaskApp.ValidationBeforeCollaborators | web/app.py:72-73 | missing or empty input gives 400 "Missing symptoms or location." whatever the classifier, search and lookup do |
| FlaskApp.SuccessContents | web/app.py:76-122 | a 200 reply holds the prediction for the encoded symptoms, its specialist, and one record per capped result of the query `"<specialist> in <location>"` (at most five), in order |
| FlaskApp.PredictSucceeds | web/app.py:76-122 | when the classifier, the search and every capped lookup succeed, the reply is 200 with the prediction, its specialist and one record per capped result in provider order |
| FlaskApp.FailedLookupFailsRequest | web/app.py:97-126 | a failing details lookup for any capped result makes the reply a 500 without a doctor list; when the earlier results succeed, the body is that lookup's `str(e)` |
| FlaskApp.FungalInfectionInNewDelhi | web/app.py:82-88 | itching and skin rash in New Delhi, classified as Fungal infection, searches for `Dermatologist in New Delhi`; an empty result is a 200 reply with no doctors |

## Left out

- Streamlit rendering, layout, spinners, balloons, `time.sleep` and the
  "Find a Doctor" button state: presentation only. The view records what is
  shown, not how it is drawn.
- The page's guard on a loaded model, vocabulary and maps client (app.py:79,
  229-232) is left out, because it stands for file I/O and client construction.
  `configured` stands for the route's model and maps-client check
  (web/app.py:64-65). The vocabulary is a parameter and may be empty: a failed
  load leaves it empty (web/app.py:35-37), and the route still runs.
- Flask routing, templates, `jsonify` and `app.run`, including the `/` index
  route's empty-vocabulary error (web/app.py:55-56): framework plumbing.
- `joblib.load`, `pd.read_csv` and `pd.DataFrame`: the header list and the
  classifier are parameters. The row is modelled per vocabulary position,
  which matches the one-row DataFrame because pandas column labels are unique
  (`Vocabulary.SymptomsDistinct`).
- The `gmaps.places` / `gmaps.place` calls, API keys and environment
  loading: network I/O. Their replies are function parameters.
- Latitude and longitude are floats. They are carried as opaque values and
  never computed with.
- A request body that is not a JSON object, or JSON values of unexpected
  types: the request is modelled as an object whose two keys may be missing.
- The disabled "Website N/A" button and its key: display only. The record
  carries the website as given.
- Concurrent detail fetching, request cancellation and degraded name-only
  records: the code has none of them, so there is nothing to model.
