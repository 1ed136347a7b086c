/** The request handler `predict()` of server.py: validate the JSON body,
    encode it, score it with the classifier, average and relabel, and turn
    every exception into an error response. The HTTP transport is not
    modelled: a request is its parsed JSON body, a response its JSON body and
    status. The classifier is a parameter: any total function from a feature
    matrix to either a probability matrix or a raised exception. */
module Handler {
  import opened Exceptions
  import opened Vocabulary
  import opened Encoder
  import opened Aggregator

  /** The parsed request body, as `request.get_json()` hands it over. */
  datatype Payload =
    | NoJson  // get_json() gave None
    | Object(category: Option<seq<string>>, location: Option<int>)

  /** The outcome of `model.predict_proba(input_data)`. */
  datatype Scored = Scored(probabilities: ProbabilityMatrix) | Failed(error: Exception)

  datatype Body = ErrorBody(error: string) | SummaryBody(summaryPrediction: seq<Entry>)

  datatype Response = Response(body: Body, status: int)

  const ValidationMessage: string := "Missing or empty 'category' or 'location' field"

  /** The TypeError of `'category' not in data` when `data` is None. */
  const NoneNotIterable: Exception := TypeError("argument of type 'NoneType' is not iterable")

  /** The validation of `predict()`: `category` absent or empty, or `location`
      absent. The value of `location` is not inspected. */
  predicate Rejected(category: Option<seq<string>>, location: Option<int>) {
    category.None? || category.value == [] || location.None?
  }

  /** The two `except` clauses: a KeyError gives 400, anything else 500; the
      message always ends with `str(e)`. */
  function ErrorResponse(e: Exception): (r: Response)
    ensures r.status == 400 <==> e.KeyError?
    ensures r.status == 500 <==> !e.KeyError?
    ensures r.body.ErrorBody? && |Str(e)| <= |r.body.error|
    ensures r.body.error[|r.body.error| - |Str(e)|..] == Str(e)
  {
    match e
    case KeyError(_) => Response(ErrorBody("Missing required field: " + Str(e)), 400)
    case _ => Response(ErrorBody(Str(e)), 500)
  }

  /** `predict()` with the `encoders` table and the classifier as parameters.
      Every response carries one of its four statuses, and it is 200 exactly
      when the body is a summary. */
  function Predict(encoders: Encoders, payload: Payload, predictProba: seq<Row> -> Scored): (r: Response)
    ensures r.status in {200, 250, 400, 500}
    ensures r.status == 200 <==> r.body.SummaryBody?
  {
    match payload
    case NoJson => ErrorResponse(NoneNotIterable)
    case Object(category, location) =>
      if Rejected(category, location) then Response(ErrorBody(ValidationMessage), 250)
      else
        match Encode(encoders.itemType, category.value, location.value)
        case Raise(e) => ErrorResponse(e)
        case Ok(rows) =>
          match predictProba(rows)
          case Failed(e) => ErrorResponse(e)
          case Scored(p) =>
            match Summary(encoders.outletIdentifier, Mean(p))
            case Raise(e) => ErrorResponse(e)
            case Ok(entries) => Response(SummaryBody(entries), 200)
  }

  /** A request that passes validation and whose labels are all known. */
  predicate Encodable(encoders: Encoders, payload: Payload) {
    && payload.Object? && !Rejected(payload.category, payload.location)
    && AllKnown(encoders.itemType, payload.category.value)
  }

  /** The feature matrix of an encodable request. */
  function InputData(encoders: Encoders, payload: Payload): (rows: seq<Row>)
    requires Encodable(encoders, payload)
    ensures |rows| == |payload.category.value|
    ensures forall i :: 0 <= i < |rows| ==>
      IsFirstIndex(encoders.itemType, payload.category.value[i], rows[i].itemType)
  {
    Encode(encoders.itemType, payload.category.value, payload.location.value).value
  }

  /** Status 250 with the fixed message comes out exactly when `category` is
      absent or empty or `location` is absent; nothing is then encoded or
      scored, so the classifier does not matter. */
  lemma ValidationRejects(encoders: Encoders, payload: Payload, f: seq<Row> -> Scored, g: seq<Row> -> Scored)
    ensures Predict(encoders, payload, f).status == 250
      <==> payload.Object? && Rejected(payload.category, payload.location)
    ensures Predict(encoders, payload, f).status == 250 ==>
      && Predict(encoders, payload, f).body == ErrorBody(ValidationMessage)
      && Predict(encoders, payload, f) == Predict(encoders, payload, g)
  {
  }

  /** A location of 0 is present, so it passes validation. */
  lemma LocationZeroAccepted(encoders: Encoders, category: seq<string>, f: seq<Row> -> Scored)
    requires category != []
    ensures Predict(encoders, Object(Some(category), Some(0)), f).status != 250
  {
    ValidationRejects(encoders, Object(Some(category), Some(0)), f, f);
  }

  /** A label that is not in `Item_Type` makes `list.index` raise ValueError,
      which the generic clause answers with 500 (not 400) and the message of
      the first unknown label; the classifier is never called. */
  lemma UnknownLabelIs500(encoders: Encoders, payload: Payload, f: seq<Row> -> Scored, g: seq<Row> -> Scored)
    requires payload.Object? && !Rejected(payload.category, payload.location)
    requires exists i :: 0 <= i < |payload.category.value| && payload.category.value[i] !in encoders.itemType
    ensures Predict(encoders, payload, f).status == 500
    ensures exists i: nat :: (FirstUnknownAt(encoders.itemType, payload.category.value, i)
      && Predict(encoders, payload, f).body == ErrorBody("'" + payload.category.value[i] + "' is not in list"))
    ensures Predict(encoders, payload, f) == Predict(encoders, payload, g)
  {
  }

  /** A 400 response comes out exactly when the request is encodable and the
      classifier raises a KeyError on its feature matrix: validation, encoding
      and relabelling never raise one. */
  lemma BadRequestOnlyFromClassifier(encoders: Encoders, payload: Payload, f: seq<Row> -> Scored)
    ensures Predict(encoders, payload, f).status == 400 <==>
      && Encodable(encoders, payload)
      && f(InputData(encoders, payload)).Failed?
      && f(InputData(encoders, payload)).error.KeyError?
  {
  }

  /** Whatever the classifier raises goes through the two `except` clauses:
      a KeyError gives 400 with "Missing required field: " and its `str()`,
      any other exception 500 with its `str()`. */
  lemma ClassifierErrors(encoders: Encoders, payload: Payload, f: seq<Row> -> Scored)
    requires Encodable(encoders, payload) && f(InputData(encoders, payload)).Failed?
    ensures var e := f(InputData(encoders, payload)).error;
      Predict(encoders, payload, f) ==
        if e.KeyError? then Response(ErrorBody("Missing required field: " + Str(e)), 400)
        else Response(ErrorBody(Str(e)), 500)
  {
  }

  /** When `get_json()` hands over None, the membership test raises TypeError: 500. */
  lemma NoJsonIs500(encoders: Encoders, f: seq<Row> -> Scored)
    ensures Predict(encoders, NoJson, f) == Response(ErrorBody("argument of type 'NoneType' is not iterable"), 500)
  {
  }

  /** Success comes out exactly when the request is encodable, the classifier
      scores it, and it has no more classes than there are outlets; the
      summary then names the first outlets, one per class, in order, with the
      mean probability of each class as a percentage. */
  lemma Success(encoders: Encoders, payload: Payload, f: seq<Row> -> Scored)
    ensures Predict(encoders, payload, f).status == 200 <==>
      && Encodable(encoders, payload)
      && f(InputData(encoders, payload)).Scored?
      && f(InputData(encoders, payload)).probabilities.classes <= |encoders.outletIdentifier|
    ensures Predict(encoders, payload, f).status == 200 ==>
      var p := f(InputData(encoders, payload)).probabilities;
      var entries := Predict(encoders, payload, f).body.summaryPrediction;
      && Outlets(entries) == encoders.outletIdentifier[..p.classes]
      && Percents(entries) == seq(p.classes, k requires 0 <= k < p.classes => Mean(p)[k] * 100.0)
  {
    var r := Predict(encoders, payload, f);
    if Encodable(encoders, payload) {
      var rows := InputData(encoders, payload);
      assert Encode(encoders.itemType, payload.category.value, payload.location.value) == Ok(rows);
      if f(rows).Scored? {
        var p := f(rows).probabilities;
        var summary := Summary(encoders.outletIdentifier, Mean(p));
        assert r == if summary.Ok? then Response(SummaryBody(summary.value), 200) else ErrorResponse(summary.error);
        if summary.Ok? {
          assert Percents(summary.value) == seq(p.classes, k requires 0 <= k < p.classes => Mean(p)[k] * 100.0);
        }
      }
    }
  }

  /** A classifier with more classes than there are outlets makes the
      relabelling subscript run off the vocabulary: IndexError, 500. */
  lemma TooManyClassesIs500(encoders: Encoders, payload: Payload, f: seq<Row> -> Scored)
    requires Encodable(encoders, payload)
    requires f(InputData(encoders, payload)).Scored?
    requires f(InputData(encoders, payload)).probabilities.classes > |encoders.outletIdentifier|
    ensures Predict(encoders, payload, f) == Response(ErrorBody("list index out of range"), 500)
  {
  }

  /** The response depends on the classifier only through what it returns
      for this request's feature matrix: one batched call per request. */
  lemma OneBatchedCall(encoders: Encoders, payload: Payload, f: seq<Row> -> Scored, g: seq<Row> -> Scored)
    requires Encodable(encoders, payload)
    requires f(InputData(encoders, payload)) == g(InputData(encoders, payload))
    ensures Predict(encoders, payload, f) == Predict(encoders, payload, g)
  {
  }

  /** When every sample's scores form a probability distribution, a
      successful summary's percentages are non-negative and add up to 100. */
  lemma SummaryAddsUpTo100(encoders: Encoders, payload: Payload, f: seq<Row> -> Scored)
    requires Predict(encoders, payload, f).status == 200
    requires f(InputData(encoders, payload)).Scored?
    requires var p := f(InputData(encoders, payload)).probabilities;
      forall i :: 0 <= i < |p.rows| ==> IsDistribution(p.rows[i])
    ensures forall e <- Predict(encoders, payload, f).body.summaryPrediction :: 0.0 <= e.percent
    ensures Sum(Percents(Predict(encoders, payload, f).body.summaryPrediction)) == 100.0
  {
    Success(encoders, payload, f);
    var p := f(InputData(encoders, payload)).probabilities;
    MeanIsDistribution(p);
    SummaryTotal(encoders.outletIdentifier, Mean(p));
  }

  /** A one-label request sends the classifier the single row
      `[0.1, k, location, 0]`, `k` the label's code; if the classifier scores
      it, the summary's percentages are that one row's probabilities times 100. */
  lemma SingleLabelRequest(encoders: Encoders, item: string, k: nat, location: int, f: seq<Row> -> Scored)
    requires IndexOf(encoders.itemType, item) == Some(k)
    requires f([Row(0.1, k, location, 0)]).Scored?
    requires f([Row(0.1, k, location, 0)]).probabilities.classes <= |encoders.outletIdentifier|
    ensures var p := f([Row(0.1, k, location, 0)]).probabilities;
      var response := Predict(encoders, Object(Some([item]), Some(location)), f);
      && response.status == 200
      && Outlets(response.body.summaryPrediction) == encoders.outletIdentifier[..p.classes]
      && (|p.rows| == 1 ==>
            Percents(response.body.summaryPrediction) == seq(p.classes, c requires 0 <= c < p.classes => p.rows[0][c] * 100.0))
  {
    SingleLabel(encoders.itemType, item, k, location);
    var payload := Object(Some([item]), Some(location));
    assert InputData(encoders, payload) == [Row(0.1, k, location, 0)];
    Success(encoders, payload, f);
    var p := f([Row(0.1, k, location, 0)]).probabilities;
    if |p.rows| == 1 {
      MeanOfSingleRow(p);
    }
  }
}
