/** The request handler (`lambda_handler`): validate the parsed body, then walk
    the batch in order, normalising each element and publishing it to a fixed
    topic, partition and key, waiting for each acknowledgement; the first
    failure ends the request with status 500, and only a fully published
    batch answers 200. */
module Handler {
  import opened JsonValues
  import opened Telemetry

  const Topic: string := "device.activity.NewCan"
  const Partition: int := 0
  const PartitionKey: string := "alldata"

  /** One message handed to the broker: topic, partition, key and the
      normalised record as its value. */
  datatype Message = Message(topic: string, partition: int, key: string, value: NormalizedRecord)

  /** Why one element of the batch is not published. */
  datatype Rejection =
    | MissingUniqueId                    // an element without a `uniqueId` key
    | Malformed(reason: TransformError)  // `transform_data` raised

  /** Why a request fails. Every failure but BrokerError is a Python exception
      other than `KafkaError`. */
  datatype Failure =
    | BodyUnreadable         // `event['body']` missing or not valid JSON
    | NotAnArray             // the parsed body is not a list
    | Rejected(why: Rejection)  // an element of the batch was rejected
    | BrokerError            // `send` or the acknowledgement raised `KafkaError`

  /** The HTTP response: status code, the `message` text of the body, and the
      failure that `error` describes (None on success). */
  datatype Response = Response(statusCode: int, message: string, error: Option<Failure>)

  const Success: Response := Response(200, "Data successfully sent", None)

  /** The 500 response for a failure; the broker's failures have their own text. */
  function Failed(f: Failure): Response {
    Response(500, if f == BrokerError then "Failed to send data" else "An error occurred", Some(f))
  }

  function Envelope(record: NormalizedRecord): Message {
    Message(Topic, Partition, PartitionKey, record)
  }

  /** The shared broker client, reduced to the messages it has acknowledged so
      far, in order. It lives across invocations, so a request only ever adds
      to the log. */
  class Producer {
    var log: seq<Message>

    constructor ()
      ensures log == []
    {
      log := [];
    }

    /** `send(...)` followed by `future.get(timeout=10)`. Whether the broker
        acknowledges is outside the model, so either answer is possible; an
        acknowledged message is appended to the log, a failed one is not. */
    method Send(m: Message) returns (ok: bool)
      modifies this
      ensures log == if ok then old(log) + [m] else old(log)
    {
      ok :| true;
      if ok {
        log := log + [m];
      }
    }

    /** `flush()`: every message is already acknowledged when it is reached. */
    method Flush()
    {
    }
  }

  /** The per-element step of the loop: the `uniqueId` check, then
      `transform_data`. */
  function Prepare(element: Json): (r: Result<NormalizedRecord, Rejection>)
    ensures r.Ok? <==> element.JObject? && "uniqueId" in element.fields && Transform(element).Ok?
    ensures !element.JObject? ==> r == Err(Malformed(ElementNotAnObject))
    ensures element.JObject? && "uniqueId" !in element.fields ==> r == Err(MissingUniqueId)
    ensures element.JObject? && "uniqueId" in element.fields ==>
      match Transform(element)
      case Ok(record) => r == Ok(record)
      case Err(reason) => r == Err(Malformed(reason))
  {
    if !element.JObject? then Err(Malformed(ElementNotAnObject))
    else if "uniqueId" !in element.fields then Err(MissingUniqueId)
    else
      match Transform(element)
      case Ok(record) => Ok(record)
      case Err(reason) => Err(Malformed(reason))
  }

  /** A per-element step of the loop: normalise one element or say why not. */
  type Step = Json -> Result<NormalizedRecord, Rejection>

  /** `added` holds the messages of the first `|added|` elements of the batch,
      in order, and each of those elements went through `prepare` successfully:
      what the loop has sent once it has passed them. */
  ghost predicate SentInOrder(prepare: Step, items: seq<Json>, added: seq<Message>) {
    && |added| <= |items|
    && forall j :: 0 <= j < |added| ==>
         prepare(items[j]).Ok? && added[j] == Envelope(prepare(items[j]).value)
  }

  /** The response once `sent` elements of a batch have been published and the
      loop has stopped: the body was unreadable or not a list, or every element
      went out, or element `sent` failed to normalise (its failure), or it
      normalised and the broker refused it. */
  function Outcome(prepare: Step, body: Option<Json>, sent: nat): (r: Response)
    requires body.Some? && body.value.JArray? ==> sent <= |body.value.items|
    ensures r.statusCode == 200 <==> body.Some? && body.value.JArray? && sent == |body.value.items|
    ensures r.statusCode == 200 ==> r == Success
    ensures r.statusCode != 200 ==> r.statusCode == 500 && r.error.Some? && r == Failed(r.error.value)
    ensures r.error == Some(BrokerError) <==>
      body.Some? && body.value.JArray? && sent < |body.value.items| && prepare(body.value.items[sent]).Ok?
  {
    match body
    case None => Failed(BodyUnreadable)
    case Some(JArray(items)) =>
      if sent == |items| then Success
      else (
        match prepare(items[sent])
        case Err(why) => Failed(Rejected(why))
        case Ok(_) => Failed(BrokerError))
    case Some(_) => Failed(NotAnArray)
  }

  /** What one request did: the log kept what it held and grew by the messages
      of the first `sent` elements of the batch (none for a body that is not a
      list), in order, and the response is the one that stopping there calls for. */
  ghost predicate Reports(prepare: Step, before: seq<Message>, after: seq<Message>, body: Option<Json>, response: Response) {
    && |before| <= |after|
    && after[..|before|] == before
    && var added := after[|before|..];
       && (if body.Some? && body.value.JArray? then SentInOrder(prepare, body.value.items, added) else added == [])
       && response == Outcome(prepare, body, |added|)
  }

  /** The messages of a batch up to its first rejected element: everything
      the loop publishes when the broker acknowledges every message. */
  function Publishable(prepare: Step, items: seq<Json>): (ms: seq<Message>)
    ensures |ms| <= |items|
    ensures forall j :: 0 <= j < |ms| ==> prepare(items[j]).Ok? && ms[j] == Envelope(prepare(items[j]).value)
    ensures |ms| < |items| ==> prepare(items[|ms|]).Err?
  {
    if items == [] then []
    else
      match prepare(items[0])
      case Err(_) => []
      case Ok(record) => [Envelope(record)] + Publishable(prepare, items[1..])
  }

  /** Passing one more element that normalises extends what was sent by its
      message. Stated on its own so the loop's proof stays small. */
  lemma SentOneMore(prepare: Step, items: seq<Json>, added: seq<Message>)
    requires SentInOrder(prepare, items, added) && |added| < |items|
    requires prepare(items[|added|]).Ok?
    ensures SentInOrder(prepare, items, added + [Envelope(prepare(items[|added|]).value)])
  {
  }

  /** Appending one message to a log that extends `before` by `added`. */
  lemma LogGrows(before: seq<Message>, added: seq<Message>, m: Message)
    ensures (before + added) + [m] == before + (added + [m])
  {
  }

  /** The loop of `lambda_handler` over a parsed list, then `flush()`, with
      `prepare` as the per-element step. */
  method PublishBatch(producer: Producer, items: seq<Json>, prepare: Step) returns (response: Response)
    modifies producer
    ensures Reports(prepare, old(producer.log), producer.log, Some(JArray(items)), response)
  {
    ghost var before := producer.log;
    ghost var added: seq<Message> := [];
    var i := 0;
    while i < |items|
      invariant i == |added| <= |items|
      invariant producer.log == before + added
      invariant SentInOrder(prepare, items, added)
    {
      var prepared := prepare(items[i]);
      if prepared.Err? {
        response := Failed(Rejected(prepared.error));
        assert producer.log[|before|..] == added;
        return;
      }
      var ok := producer.Send(Envelope(prepared.value));
      if !ok {
        response := Failed(BrokerError);
        assert producer.log[|before|..] == added;
        return;
      }
      SentOneMore(prepare, items, added);
      LogGrows(before, added, Envelope(prepared.value));
      added := added + [Envelope(prepared.value)];
      i := i + 1;
    }
    producer.Flush();
    response := Success;
    assert producer.log[|before|..] == added;
  }

  /** A request on a list, read against what the list offers: the log grew by
      a prefix of the publishable messages (already published messages are
      never taken back); the answer is success exactly when every element went
      out; a rejected element ends the request exactly at the first rejection,
      once everything before it went out; a broker failure ends it short of
      that point. */
  lemma BatchReport(prepare: Step, before: seq<Message>, after: seq<Message>, items: seq<Json>, response: Response)
    requires Reports(prepare, before, after, Some(JArray(items)), response)
    ensures var added, batch := after[|before|..], Publishable(prepare, items);
      && |added| <= |batch|
      && added == batch[..|added|]
      && (response == Success <==> added == batch && |batch| == |items|)
      && (response.error.Some? && response.error.value.Rejected? <==> added == batch && |batch| < |items|)
      && (response.error == Some(BrokerError) <==> |added| < |batch|)
  {
  }

  /** Every message a request publishes goes to the fixed topic, partition and key. */
  lemma AllToOneDestination(prepare: Step, before: seq<Message>, after: seq<Message>, body: Option<Json>, response: Response)
    requires Reports(prepare, before, after, body, response)
    ensures forall m :: m in after[|before|..] ==>
      m.topic == Topic && m.partition == Partition && m.key == PartitionKey
  {
  }

  /** A body that is missing, unreadable or not a list publishes nothing and
      answers 500 with the matching failure. */
  lemma NotAListPublishesNothing(prepare: Step, before: seq<Message>, after: seq<Message>, body: Option<Json>, response: Response)
    requires Reports(prepare, before, after, body, response)
    requires !(body.Some? && body.value.JArray?)
    ensures after == before
    ensures response == Failed(if body.None? then BodyUnreadable else NotAnArray)
  {
  }

  /** `[]` publishes nothing and answers 200. */
  lemma EmptyBatchSucceeds(prepare: Step, before: seq<Message>, after: seq<Message>, response: Response)
    requires Reports(prepare, before, after, Some(JArray([])), response)
    ensures after == before && response == Success
  {
  }

  /** `[{}]`: the element has no `uniqueId`, so nothing is published and the
      answer is 500 with that rejection. */
  lemma MissingUniqueIdPublishesNothing(before: seq<Message>, after: seq<Message>, response: Response)
    requires Reports(Prepare, before, after, Some(JArray([JObject(map[])])), response)
    ensures after == before && response == Failed(Rejected(MissingUniqueId))
  {
    var items := [JObject(map[])];
    assert Prepare(items[0]) == Err(MissingUniqueId);
    assert |after[|before|..]| == 0;
    assert after == after[..|before|] + after[|before|..];
  }

  /** `lambda_handler(event, context)` with the body already parsed (None: no
      body, or not valid JSON). */
  method LambdaHandler(producer: Producer, body: Option<Json>) returns (response: Response)
    modifies producer
    ensures Reports(Prepare, old(producer.log), producer.log, body, response)
  {
    if body.None? {
      response := Failed(BodyUnreadable);
      assert producer.log[|producer.log|..] == [];
    } else if !body.value.JArray? {
      response := Failed(NotAnArray);
      assert producer.log[|producer.log|..] == [];
    } else {
      response := PublishBatch(producer, body.value.items, Prepare);
    }
  }
}
