# Telemetry ingestion function, modelled in Dafny

`lambda_function/lambda_function.py` is an HTTP-triggered function. It receives
a JSON list of raw vehicle telemetry records. It normalises each record onto a
fixed schema and publishes it to a Kafka topic, one message at a time, waiting
for each acknowledgement. It then answers 200, or 500 at the first failure.
This project models three parts of that file:

- **Vehicle-state classification** (`vehicle_state_map` and
  `map_vehicle_state_to_movement_status`, module `Classification`). The
  code-to-name table and the if-chain that buckets a name into `idle`,
  `charging`, `moving` or `nogps`. It includes Python's lookup semantics: an
  integral float or a boolean finds the integer key it equals, and a list or
  object cannot be looked up at all.
- **Record normalisation** (`transform_data`, module `Telemetry`). The copied
  identity and position fields, the derived movement status, and the renamed
  CAN fields. It also covers the nine 0/1 error flags taken from the
  `ErrorState1`/`ErrorState2` registers by exact equality, and every way the
  function raises, in the order Python evaluates it.
- **The request handler** (`lambda_handler`, module `Handler`):
  - It checks that the body is a list.
  - For each element in turn, it checks `uniqueId`, normalises the element,
    sends it with the fixed topic, partition and key, and waits for the
    acknowledgement.
  - It then flushes and answers.
  - The Kafka client is a `Producer` object whose log holds the acknowledged
    messages. Whether the broker acknowledges a message is outside the model,
    so `Send` may answer either way.
  - The handler's contract (`Reports`) pins down exactly how the log grows and
    which response comes back for every way the loop can stop.

The loop (`PublishBatch`) is written and proved for any per-element step of
type `Step`. `LambdaHandler` instantiates it with `Prepare`, the
`uniqueId` check followed by `transform_data`. The element-level facts are
proved once about `Prepare` and `Transform`. The batch-level facts (`BatchReport`
and the lemmas beside it) then hold for every step.

JSON values are the datatype `JsonValues.Json`. Python's `dict.get` is
`JsonValues.Get`. Comparing a value with an integer, by `==` or as a dictionary
key, is `PyEqualsInt` / `CodeOf`.

One behaviour of the code worth knowing, which the model keeps:
`vehicle_state_map.get` (line 85) raises `TypeError` for a list or object
`VehicleState`, so classification can fail. `MovementStatusOf` returns `None`
for such a value, and `Transform` fails with `UnhashableVehicleState`.

## Model

| member | source | states |
|---|---|---|
| `JsonValues.CodeOf` | lambda_function/lambda_function.py:85 | the integer key a JSON value finds in an int-keyed dict is exactly the one integer it compares equal to under Python `==` (ints, integral floats, booleans); strings, null, non-integral floats, lists and objects find none |
| `Classification.Classify` | lambda_function/lambda_function.py:68-92 | code by code: idle exactly for 0 and 4, charging exactly for 2, 5, 6, 7, 9, 10, 11, moving exactly for 1, nogps for 3, 8, any code outside the table and a missing/non-integer value; the same sets stated for the strings `"idle"`, `"charging"`, `"moving"`, `"nogps"` written to `movementStatus` |
| `Classification.MovementStatusOf` | lambda_function/lambda_function.py:84-92 | classifying the raw `VehicleState` fails exactly when the value is unhashable (list or object); otherwise moving iff the value `== 1`, idle iff it `== 0` or `== 4`, charging iff it equals one of the charging codes; null and strings are nogps |
| `Classification.NamedButUnbucketed` | lambda_function/lambda_function.py:72-92 | codes 3 (Balancing) and 8 (LowPowerMode) have table names yet fall through the if-chain to nogps |
| `Classification.NamesDistinct` | lambda_function/lambda_function.py:86-92 | the four bucket strings on the wire are pairwise distinct |
| `Telemetry.Transform` | lambda_function/lambda_function.py:95-165 | succeeds exactly when the element is an object with an object `evCanData`, a hashable `VehicleState` and the five keys indexed directly; each failure is pinned in Python's evaluation order: a non-object element, then a missing `evCanData`, then an `evCanData` that is not an object, then an unhashable `VehicleState`, then the first of `uniqueId`, `vehicleName`, `timestamp`, `latitude`, `longitude` (literal order) that is missing, named in the error; on success the identity fields are copied, `speed` is read with `.get`, `evCanData` is the projection of the CAN object, and `movementStatus` is the classification of its `VehicleState` |
| `Telemetry.PassThrough` | lambda_function/lambda_function.py:108-162 | every copied CAN field arrives unchanged under its output name, and a missing one arrives as null |
| `Telemetry.ErrorState1Flags` | lambda_function/lambda_function.py:111-158 | each ErrorState1 flag is 1 exactly when the register equals its single code (1, 2, 4, 16, 32, 128); OverTemp and FetOverTemp agree; the flags sum to 1 for one of those codes and to 0 for anything else, including combinations such as 17 |
| `Telemetry.ErrorState2Flags` | lambda_function/lambda_function.py:115-153 | shortCircuitError is 1 exactly for code 32, chargerTimeout exactly for code 4, never both |
| `Telemetry.FlagsDependOnlyOnRegisters` | lambda_function/lambda_function.py:111-158 | two CAN objects that agree on a register get the same flags from it, whatever else they hold |
| `Telemetry.StatusAgreesWithCarriedState` | lambda_function/lambda_function.py:97-155 | a normalised record's `movementStatus` is the classification of the `VehicleState` it carries |
| `Telemetry.MovingSample` | lambda_function/lambda_function.py:95-165 | an element with `VehicleState` 1, `SOC` 50, no error registers and all required keys normalises to status moving, SOC 50 and every error flag 0 |
| `Handler.Producer.constructor` | lambda_function/lambda_function.py:7-14 | a fresh client has acknowledged nothing |
| `Handler.Producer.Send` | lambda_function/lambda_function.py:35-38 | an acknowledged message is appended to the log; a refused one leaves the log unchanged |
| `Handler.Prepare` | lambda_function/lambda_function.py:26-32 | an element is accepted exactly when it is an object with `uniqueId` that `transform_data` accepts; a missing `uniqueId` is reported before anything else about an object, and a `transform_data` failure is passed on with its reason |
| `Handler.Outcome` | lambda_function/lambda_function.py:40-64 | 200 with "Data successfully sent" exactly when the body is a list and every element went out; otherwise 500 with a failure; the failure is the broker's exactly when the loop stopped at an element that had been accepted |
| `Handler.Publishable` | lambda_function/lambda_function.py:26-38 | the messages of the elements before the first rejected one, in order, each the envelope of its element's record; the element after them (if any) is rejected |
| `Handler.PublishBatch` | lambda_function/lambda_function.py:26-59 | the loop and flush: the log keeps its old contents and grows by the messages of the first elements in order, each accepted, and the response is the one that stopping at that element calls for |
| `Handler.BatchReport` | lambda_function/lambda_function.py:26-57 | what a request on a list published is a prefix of the publishable messages; success exactly when all elements went out; a rejection stops exactly at the first rejected element after everything before it went out; a broker failure stops short of that |
| `Handler.AllToOneDestination` | lambda_function/lambda_function.py:35 | every published message goes to topic `device.activity.NewCan`, partition 0, key `alldata` |
| `Handler.NotAListPublishesNothing` | lambda_function/lambda_function.py:19-23 | a missing or unreadable body, or one that is not a list, publishes nothing and answers 500 with that failure |
| `Handler.EmptyBatchSucceeds` | lambda_function/lambda_function.py:26-64 | `[]` publishes nothing and answers 200 |
| `Handler.MissingUniqueIdPublishesNothing` | lambda_function/lambda_function.py:28-29 | `[{}]` publishes nothing and answers 500 with the missing-`uniqueId` rejection |
| `Handler.LambdaHandler` | lambda_function/lambda_function.py:16-64 | the whole request: the log only grows, by the messages of the first elements of the list in order (nothing for a body that is not a list), and the response is the one that stopping there calls for |

## Left out

- The producer's configuration (lines 6-14): broker addresses, serialisers, `acks=1`, `retries=5` and `linger_ms=10`. The client is reduced to the log of acknowledged messages. Retries inside the client, and duplicates they may cause, are not modelled.
- `json.loads` of `event['body']` and `json.dumps` of the value and of the response body are not modelled. The handler receives the parsed body, or `None` when the key is missing or the text is not JSON. The response carries the failure as a `Failure` value instead of the `str(e)` text.
- Floats are exact reals, so `NaN` and the infinities that Python's parser accepts are not represented.
- A list element that is not an object is reported as `Malformed(ElementNotAnObject)` whatever its type. In Python, a string or list element without `"uniqueId"` fails the `uniqueId` check first, and other types raise `TypeError`. All of these end in the same 500 "An error occurred" response. Only the error text differs.
- `Handler.Producer.Flush`: `flush()` has no observable effect in the model, because every message has already been acknowledged when the loop reaches it. `producer.flush()` (line 59) sits outside the `try`, so an exception it raises escapes the handler instead of becoming a 500; the model does not capture this.
- `Handler.Producer.Send`: a message whose acknowledgement times out counts as not published. In reality it may still have reached the broker.
- The broker's answers are not an input, so the model does not say which elements the broker acknowledges; `Send` may refuse any message.
- The module-level, process-wide reuse of the producer is represented by passing the same `Producer` object to every request.
- `lambda_function/webhook_lambda_function.py`, `app.py` and the deployment stack are not part of this model.
