# GrocerHere prediction service: verified model of the request encoder

The GrocerHere server answers one POST request: a list of product
categories (`category`) and a store-location code (`location`). It
answers with a distribution over the ten store outlets. The handler
`predict()` in `server.py` works in five steps:

1. It validates the JSON body.
2. It encodes every category label as a 4-field feature row.
3. It scores the rows with a pre-trained classifier in one batched call.
4. It averages the per-row class probabilities.
5. It relabels class `k` with the `k`-th outlet identifier.

Every exception is turned into an error response. This project models
that handler in Dafny and proves what it promises.

- `exceptions.dfy` (module `Exceptions`): `Option`, `Result`, and the
  Python exceptions the handler can meet (KeyError, ValueError,
  IndexError, TypeError, other), with their `str()`.
- `vocabulary.dfy` (module `Vocabulary`): the `Item_Type` and
  `Outlet_Identifier` vocabularies as constant `seq<string>`, the
  `encoders` table as a value (`Encoders`), and `list.index` as
  `IndexOf`.
- `encoder.dfy` (module `Encoder`):
  - the four feature lists: uniform visibility `0.1 / n`, the
    item-type code, the location repeated, and the batch-size bin;
  - their combination into rows (`Encode`);
  - `BuildInputData`, the imperative version with the row-assembly loop
    of the source, proved equal to `Encode`.
- `aggregator.dfy` (module `Aggregator`): the classifier's probability
  matrix, the column mean, and the relabelling dict comprehension
  (`Summary`). Also the dict reading of the summary (`AsDict`) and the
  facts about sums behind "the percentages add up to 100".
- `handler.dfy` (module `Handler`): the request body (`Payload`), the
  response (`Response`), the exception-to-status mapping, and
  `Predict`, with the end-to-end lemmas.

The encoder, the aggregator and the handler take the `encoders` table
and the classifier as parameters. `ServerEncoders` is the table that
the service ships.

The classifier is any total function from a feature matrix to either a
probability matrix or a raised exception. A probability matrix has at
least one row and the same number of classes in every row.

Probabilities and the visibility value are exact reals.

Two behaviours of the code are easy to misread; the model follows the
code:

- An unknown category label gets status 500, not the 400 a caller might
  expect. `list.index` raises ValueError, and the generic clause answers
  it with the message `'<label>' is not in list`. The 400 (KeyError)
  clause can then only fire for a KeyError raised inside the classifier
  (`Handler.BadRequestOnlyFromClassifier`, `Handler.ClassifierErrors`).
- The code never checks the classifier's class count against
  `Outlet_Identifier`:
  - fewer than ten classes give a summary over the first outlets only;
  - more than ten make the subscript raise IndexError, which gives a
    500.
  "The summary's keys are exactly the ten outlets" therefore holds only
  for a ten-class classifier (`Aggregator.ServerSummaryKeys`).

## Model

| member | source | states |
|---|---|---|
| `Vocabulary.IndexOf` | server.py:50 | `list.index`: when found, the position holds the label and no earlier position does; not found exactly when the label is not in the list |
| `Vocabulary.IndexOfRoundTrip` | server.py:50 | on a duplicate-free vocabulary, looking up the label stored at position `k` gives `k` back (index and subscript are inverse) |
| `Vocabulary.ServerEncodersDistinct` | server.py:10-19 | the shipped table has 16 distinct item types and 10 distinct outlet identifiers |
| `Vocabulary.ItemTypeCodes` | server.py:11-15 | every item type is encoded as its own position in `Item_Type` |
| `Vocabulary.DairyIsFour` | server.py:12 | "Dairy" is encoded as 4 |
| `Encoder.NotInList` | server.py:50 | the error `list.index` raises for a missing label is a ValueError whose `str()` is the quoted label followed by "is not in list" |
| `Encoder.VisibilityFeature` | server.py:45-46 | one visibility value per item, each the n-th share of 0.1 (value times n is 0.1) |
| `Encoder.CategoryFeature` | server.py:49-51 | succeeds exactly when every label is in `Item_Type`; then one code per label, in order, each the label's first index; otherwise the ValueError names the first unknown label |
| `Encoder.LocationFeature` | server.py:54 | one entry per item, each the request's `location` |
| `Encoder.BinFeature` | server.py:57-60 | one entry per item: all 0 for fewer than 10 items, all `location + 1` from 10 on |
| `Encoder.Rows` | server.py:63-69 | one row per position, row `i` holding the `i`-th entry of each of the four feature lists in field order |
| `Encoder.Encode` | server.py:42-69 | one row per label in input order: the label's first index, `location` in every row, the same visibility `0.1 / n` in every row, bin 0 for fewer than 10 labels and `location + 1` from 10 on; fails exactly when some label is unknown, with the first unknown label's error |
| `Encoder.BuildInputData` | server.py:42-69 | the feature lists followed by the append loop compute exactly `Encode`, including its error |
| `Encoder.SingleLabel` | server.py:45-69 | a one-label request is encoded as the single row `[0.1, code, location, 0]` |
| `Encoder.DairyExample` | server.py:45-69 | `["Dairy"]` at location 1 is encoded as `[0.1, 4, 1, 0]` |
| `Encoder.BinBoundary` | server.py:57-60 | nine copies of a known label give bin 0 in every row, ten copies give `location + 1` in every row |
| `Aggregator.Mean` | server.py:78 | one value per class, each the mean of its column: value times the number of samples is the column's sum; further specified by `Aggregator.MeanOfSingleRow` and `Aggregator.MeanIsDistribution` |
| `Aggregator.MeanOfSingleRow` | server.py:78 | the mean over a single sample is that sample's row |
| `Aggregator.MeanIsDistribution` | server.py:75-78 | if every sample's scores are non-negative and add up to 1, so does their mean |
| `Aggregator.MeanTotal` | server.py:78 | averaging rows that each add up to 1 gives a vector that adds up to 1 |
| `Aggregator.Summary` | server.py:81-84 | succeeds exactly when there are no more classes than outlets, otherwise raises IndexError; on success one entry per class, keyed by the first outlets in vocabulary order, each class's mean times 100 |
| `Aggregator.SummaryTotal` | server.py:81-84 | the percentages of a summary of a distribution are non-negative and add up to 100 |
| `Aggregator.SummaryAsDict` | server.py:81-84 | read as a dict, a summary over a duplicate-free vocabulary has exactly one key per class, the first outlets, each mapped to its class's percentage |
| `Aggregator.ServerSummaryKeys` | server.py:16-19 | with the shipped vocabulary and ten classes, the summary's keys are exactly the ten outlet identifiers |
| `Handler.Predict` | server.py:33-91 | every response has status 200, 250, 400 or 500, and it is 200 exactly when the body is a summary; each branch is specified by the `Handler` lemmas below |
| `Handler.ErrorResponse` | server.py:88-91 | status 400 exactly for a KeyError and 500 for every other exception; the message is an error body ending with the exception's `str()` |
| `Handler.Rejected` | server.py:38 | the validation condition; `Handler.ValidationRejects` states that it alone decides the 250 response and `Handler.LocationZeroAccepted` that only the presence of `location` is checked |
| `Handler.InputData` | server.py:42-72 | an encodable request's feature matrix has one row per label, each carrying the label's first index in `Item_Type` |
| `Handler.ValidationRejects` | server.py:37-39 | status 250 with the fixed message comes out exactly when `category` is absent or empty or `location` is absent, and then the classifier plays no part |
| `Handler.LocationZeroAccepted` | server.py:38 | `location` is checked only for presence, so location 0 passes validation |
| `Handler.UnknownLabelIs500` | server.py:48-91 | an unknown label gives status 500 (not 400) with the ValueError message of the first unknown label, and the classifier plays no part |
| `Handler.BadRequestOnlyFromClassifier` | server.py:88-89 | status 400 comes out exactly when the request is valid and encodable and the classifier raises a KeyError on its feature matrix |
| `Handler.ClassifierErrors` | server.py:88-91 | an exception the classifier raises gives 400 with "Missing required field: " followed by its `str()` if it is a KeyError, and 500 with its `str()` otherwise |
| `Handler.NoJsonIs500` | server.py:35-38 | when `get_json()` hands over `None`, the membership test raises TypeError, answered with 500 and the message "argument of type 'NoneType' is not iterable" |
| `Handler.Success` | server.py:75-86 | status 200 exactly when the request is encodable, the classifier scores it and there are no more classes than outlets; the summary's keys are then the first outlets in order and its values the mean probabilities times 100 |
| `Handler.TooManyClassesIs500` | server.py:81-91 | more classes than outlets give 500 with "list index out of range" |
| `Handler.OneBatchedCall` | server.py:75 | the response depends on the classifier only through its answer for this request's whole feature matrix |
| `Handler.SummaryAddsUpTo100` | server.py:75-86 | when every sample's scores form a distribution, a successful summary's percentages are non-negative and add up to 100 |
| `Handler.SingleLabelRequest` | server.py:42-86 | a one-label request sends the classifier the single row `[0.1, code, location, 0]`, and a scored single-row answer comes back as that row's probabilities times 100, keyed by the first outlets |

## Left out

- Flask routing, `request.get_json`, `jsonify`, CORS and `app.run`: they are transport. A request is its parsed body and a response is a body with a status.
- `jsonify` writes keys in sorted order. The summary's keys are already in vocabulary order, and that order is sorted.
- `Handler.Payload`: `NoJson` is the case where `get_json()` returns `None`. That happens for a JSON `null` body, and, before Flask 2.1, for a request that is not JSON. From Flask 2.1 on, a missing or undecodable body makes `get_json()` raise instead. The generic clause then also answers 500, but with Flask's message, which is not modelled.
- `Handler.Payload`: the other body shapes are an object whose `category` is absent or a list of strings, and whose `location` is absent or an integer. Other JSON bodies are not modelled: arrays or strings as the body, `null` or non-list `category`, non-integer `location`.
- Loading the classifier with `joblib.load` is foreign I/O. `predict_proba` is a parameter of `Predict`. The model assumes it returns a rectangular matrix (as a NumPy array is) with at least one row. The handler never sends an empty batch, because validation rejects an empty `category`, and a scikit-learn classifier returns one row per sample. The model does not assume one row per sample.
- `Encoder.Encode`: visibility is the exact rational `0.1 / n`, not its float value, and codes are integers rather than the floats of `np.array`.
- `Aggregator.Summary`: percentages are exactly `100 * mean`. The rounding to two decimals and float error are not modelled, because they are floating-point arithmetic. For the same reason "adds up to 100" is exact here, not approximate.
- `Encoder.NotInList`: the ValueError message quotes the label as `'label'`. Python's `repr` escaping of labels that contain quotes or control characters is not modelled.
- The vocabularies `Outlet_Location_Type` and `Outlet_Type` and the list `encoded_fields` are left out, because the code never reads them.
- Concurrency: the handler keeps no state between requests, so none is modelled.
- `Exceptions.Exception`: `KeyError(key: string)` holds a string key, so a KeyError with a non-string key is not represented. The classifier could raise one (`str(KeyError(3))` is `3`, unquoted). `Exceptions.Str` quotes every KeyError key.
