# BrandGuard review pipeline — verified model

This project models the decision logic of two small HTTP services. The
**ingestion service** validates a submitted review (`brand`, `text`) and
forwards it to the **sentiment service**. It then turns the outcome of that
one call into its reply. The sentiment service does four things:

- It sorts the review text's polarity score into CRITICAL, NEUTRAL or POSITIVE.
- It stamps the result with the time.
- It tries once to write the result to a DynamoDB table. Every failure is
  downgraded to a "mock save" notice with a reason.
- It returns the result, whatever happened to the write.

Modules, one per component:

- `Wrappers`: `Option` and `Result`.
- `Validation`: the `Review` model that both services declare identically,
  and its field validator `not_empty`. Python's `str.strip()` is modelled
  with Python's own whitespace set.
- `Classifier`: the thresholding in `analyze_sentiment`.
- `Persistence`: `save_to_dynamodb`. The caller's dictionary is the class
  `Item`, whose `Pop` removes the table override in place. The outcome of the
  write is the datatype `WriteOutcome`, one constructor per `except` clause.
- `SentimentService`: the `/analyze` orchestration.
- `IngestionService`: the forwarded payload and the `try`/`except` of `/submit`.

The calls into other code become parameters. The TextBlob polarity is
`polarityOf: string -> Polarity`, the boto3 table write is `put`, the httpx
POST is `post`, and the current UTC instant is `timestamp`.

Three failure messages are fixed by the code:

- A missing-credentials failure is reported as "No AWS credentials" (sentiment_service/main.py:208).
- A BotoCore failure, or any other unexpected one, is reported with the exception's class name (sentiment_service/main.py:216-224).
- A downstream HTTP error keeps its status, and its body follows the prefix "Sentiment Service error: " (ingestion_service/main.py:156-161).

## Model

| member | source | states |
|---|---|---|
| `Validation.IsSpace` | sentiment_service/main.py:67-69 | the characters `str.strip()` removes and `str.isspace()` accepts: tab to carriage return, U+001C to space, U+0085, U+00A0, U+1680, U+2000 to U+200A, U+2028, U+2029, U+202F, U+205F and U+3000 |
| `Validation.Strip` | sentiment_service/main.py:69 | the stripped string is empty exactly when the input is all whitespace; otherwise it neither starts nor ends with whitespace |
| `Validation.StripSplit` | sentiment_service/main.py:69 | the stripped string is a slice `s[i..j]` of the input with only whitespace before `i` and after `j`: only whitespace is removed, and only at the two ends |
| `Validation.StripUnique` | ingestion_service/main.py:70 | any split of a string into whitespace, a core with no whitespace at its ends, and whitespace has `Strip` equal to that core, so `Strip` is the unique such trimming |
| `Validation.StripIdempotent` | sentiment_service/main.py:67-69 | stripping twice gives the same as stripping once |
| `Validation.CleanIsStripped` | sentiment_service/main.py:69 | a non-empty string with no whitespace at either end is unchanged by `Strip` |
| `Validation.NotEmpty` | sentiment_service/main.py:52-69 | fails with "Field cannot be empty" exactly on empty or whitespace-only input; otherwise returns the stripped value, which is non-empty and has no leading or trailing whitespace |
| `Validation.NotEmptyIdempotent` | ingestion_service/main.py:53-70 | validating a value the validator returned gives that value again |
| `Validation.EmptyAndBlankRejected` | ingestion_service/main.py:68-69 | `""` and `"   "` are rejected, and a review with an empty brand fails naming only the brand field |
| `Validation.ValidateReview` | ingestion_service/main.py:50-70 | a review is built exactly when neither field is all whitespace, and then holds both fields stripped; on failure it names exactly the rejected fields |
| `Validation.RevalidateReview` | sentiment_service/main.py:41-69 | a review that already passed validation passes again unchanged |
| `Classifier.AnalyzeSentiment` | sentiment_service/main.py:142-153 | the score is the polarity unchanged; CRITICAL iff polarity < -0.1, POSITIVE iff polarity > 0.1, NEUTRAL iff -0.1 <= polarity <= 0.1 |
| `Classifier.Label.Name` | sentiment_service/main.py:146-150 | the label strings "CRITICAL", "NEUTRAL" and "POSITIVE" |
| `Classifier.BoundariesAreNeutral` | sentiment_service/main.py:145-150 | polarities of exactly -0.1 and exactly 0.1 are both NEUTRAL |
| `Classifier.LabelMonotone` | sentiment_service/main.py:121-124 | a higher polarity never gets a more negative label |
| `Classifier.EveryLabelReachable` | sentiment_service/main.py:121-124 | each of the three labels is produced by some polarity in [-1, 1] |
| `Classifier.NameInjective` | sentiment_service/main.py:145-150 | the three label names are pairwise distinct |
| `Persistence.Lookup` | sentiment_service/main.py:208 | `dict.get`: a value exactly when the key is present, and then the stored one |
| `Persistence.TableFor` | sentiment_service/main.py:191 | the table is the record's `_table_name` entry when present, else `DYNAMODB_TABLE_NAME` ("brandguard-reviews") |
| `Persistence.PopKeepsOtherEntries` | sentiment_service/main.py:191 | removing `_table_name` leaves it absent and every other key, the brand included, unchanged |
| `Persistence.FallbackReason` | sentiment_service/main.py:205-224 | no reason after a successful write; "No AWS credentials" for missing credentials; a client error's `Error.Code`, or "Unknown" without one; the exception's class name for a BotoCore or any other error |
| `Persistence.Report` | sentiment_service/main.py:189-224 | the report is a real save exactly when the write succeeded, otherwise a mock save with the fallback reason; it always names the brand given |
| `Persistence.Item.constructor` | sentiment_service/main.py:282-289 | a new dictionary holds exactly the entries given |
| `Persistence.Item.Pop` | sentiment_service/main.py:191 | `dict.pop(key, default)` returns the stored value or the default, and leaves the dictionary without the key and otherwise unchanged |
| `Persistence.SaveToDynamoDB` | sentiment_service/main.py:161-224 | pops the table override from the caller's dictionary in place, attempts one write of the remaining record to that table, and returns the report for its outcome without failing |
| `SentimentService.ResultFields` | sentiment_service/main.py:284-288 | the five entries of the stored record: brand, text and sentiment as strings, score as a number, timestamp as a string, each copied from the result |
| `SentimentService.RecordOf` | sentiment_service/main.py:281-290 | the dictionary handed to the gateway has the result's five fields plus `_table_name`, and it targets the default table |
| `SentimentService.StoredRecordRoundTrip` | sentiment_service/main.py:272-290 | reading back the record as written gives exactly the returned result |
| `SentimentService.Analyze` | sentiment_service/main.py:233-293 | the result copies the review's brand and text, takes the classifier's label and score for the text's polarity and the given timestamp; the record written is the result's five fields, sent to the default table; the result does not depend on the write's outcome |
| `IngestionService.Payload` | ingestion_service/main.py:137 | `review.model_dump()`: a JSON object with exactly the keys `brand` and `text`, holding the review's two strings |
| `IngestionService.RequestError.IsTimeout` | ingestion_service/main.py:144 | the request errors the `httpx.TimeoutException` clause catches: the connect, read, write and pool timeouts |
| `IngestionService.HttpResponse.IsSuccess` | ingestion_service/main.py:139 | the statuses `raise_for_status()` lets through: 200 to 299 |
| `IngestionService.PayloadRevalidates` | ingestion_service/main.py:135-138 | the forwarded body has exactly the keys `brand` and `text`, and the receiving validator reads it back as the same review |
| `IngestionService.Respond` | ingestion_service/main.py:102-161 | a 2xx body that is a JSON object is returned unchanged, and any other 2xx JSON value fails the route's `dict` response model; a timeout gives 503 "not responding"; any other request error gives 503 "Unable to connect"; a non-2xx status is propagated with detail "Sentiment Service error: " plus the body |
| `IngestionService.SubmitReview` | ingestion_service/main.py:102-142 | the reply is the downstream body exactly when the forward of the review's payload returned a 2xx response whose body is a JSON object, and then it is that object |
| `IngestionService.UnavailableIffNoResponse` | ingestion_service/main.py:144-161 | the two "service unavailable" details appear exactly when no response arrived; a downstream 503 is relayed with its own detail |
| `IngestionService.ErrorDetailCarriesBody` | ingestion_service/main.py:156-161 | a downstream error keeps its status, and its detail is the prefix followed by the body text |

## Left out

- The TextBlob polarity computation is a foreign library. Polarity is a parameter in [-1, 1].
- Floating point is not modelled. Polarity and the thresholds are reals, and the thresholds are exactly -1/10 and 1/10. Python compares against the double nearest 0.1, so behaviour exactly at a threshold is idealised.
- The boto3 client, table and `put_item` call are not modelled. The write is the parameter `put`, which may return any outcome. This also covers failures that boto3 raises before sending, such as a missing region or its refusal of float attribute values.
- The httpx client, its 10-second timeout and the async context manager are not modelled. The call is the parameter `post`.
- `raise_for_status` follows current httpx: every non-2xx status raises. Redirects are not followed, so a 3xx is an error too.
- A 2xx body that is not JSON makes `response.json()` raise, and no clause catches it. The model returns `Unhandled("JSONDecodeError")`.
- A 2xx JSON body that is not an object fails the `-> dict` response model of `submit_review`. The model returns `Unhandled("ResponseValidationError")`.
- The framework's 500 response to these two unhandled cases is not modelled.
- FastAPI routing, the 422 response for a rejected field, Pydantic's machinery, CORS, the uvicorn startup blocks and the constant `/health` endpoints are not modelled.
- Logging and `print` are not modelled. The brand and the reason are kept in `SaveReport` as the observable part of the notice.
- `datetime.now(timezone.utc).isoformat()` is not modelled. The timestamp is a parameter.
- Concurrency between requests is not modelled, because each request is handled independently.
