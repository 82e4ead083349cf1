/** The three routes over one `events` collection: `/webhook` stores the
    normalised event of an authentic delivery, `/` and `/events` purge old
    records and read the rest back, newest first. */
module App {
  import opened Text
  import opened Json
  import opened Signature
  import opened Normalizer
  import opened Documents
  import opened Retention
  import opened ReadSide

  /** What `webhook()` reads from the request: the `X-Hub-Signature` and
      `X-GitHub-Event` headers, the raw body, and the body parsed as JSON
      (`None` when it cannot be read as JSON and `request.json` raises). */
  datatype Delivery = Delivery(
    signature: Option<string>,
    eventType: Option<string>,
    body: seq<Byte>,
    json: Option<Json>)

  /** The answer of `webhook()`. */
  datatype Reply = InvalidSignature | Accepted(eventType: string) | Failed(error: PyError)
  {
    function Status(): int
    {
      match this
      case InvalidSignature => 401
      case Accepted(_) => 200
      case Failed(_) => 500
    }
  }

  /** The reply, and the event inserted into the collection if any. */
  datatype Outcome = Outcome(reply: Reply, stored: Option<Event>)

  /** `webhook()`: the signature gate, then the normaliser; every exception
      is answered with 500. Only a recognised event is stored, and the reply
      names the action even when nothing is stored. */
  function HandleWebhook(secret: string, delivery: Delivery, now: string,
                         mac: (string, seq<Byte>) -> seq<Byte>, repr: Json -> string): (o: Outcome)
    ensures o.reply == InvalidSignature <==> VerifySignature(secret, delivery.body, delivery.signature, mac) == Ok(false)
    ensures o.reply.Accepted? ==> VerifySignature(secret, delivery.body, delivery.signature, mac) == Ok(true)
    ensures o.reply.Failed? <==>
              || VerifySignature(secret, delivery.body, delivery.signature, mac).Raised?
              || (&& VerifySignature(secret, delivery.body, delivery.signature, mac) == Ok(true)
                  && (delivery.json.None? || Malformed(delivery.eventType.GetOr(""), Payload(delivery.json.value))))
    ensures o.stored.Some? <==> o.reply.Accepted? && o.reply.eventType != Unknown.Name()
    ensures o.stored.Some? ==>
              && o.reply == Accepted(o.stored.value.action.Name())
              && o.stored.value.action != Unknown
              && o.stored.value.timestamp == now
    ensures o.reply.Accepted? ==>
              && delivery.json.Some?
              && Normalize(delivery.eventType.GetOr(""), delivery.json.value, now, repr).Ok?
              && o.reply.eventType == Normalize(delivery.eventType.GetOr(""), delivery.json.value, now, repr).value.action.Name()
    ensures o.stored.Some? ==>
              && delivery.json.Some?
              && Normalize(delivery.eventType.GetOr(""), delivery.json.value, now, repr) == Ok(o.stored.value)
    ensures && VerifySignature(secret, delivery.body, delivery.signature, mac) == Ok(true)
            && delivery.json.Some?
            && Normalize(delivery.eventType.GetOr(""), delivery.json.value, now, repr).Ok?
            && Normalize(delivery.eventType.GetOr(""), delivery.json.value, now, repr).value.action != Unknown
            ==> o.stored == Some(Normalize(delivery.eventType.GetOr(""), delivery.json.value, now, repr).value)
  {
    match VerifySignature(secret, delivery.body, delivery.signature, mac)
    case Raised(e) => Outcome(Failed(e), None)
    case Ok(valid) =>
      if !valid then Outcome(InvalidSignature, None)
      else if delivery.json.None? then Outcome(Failed(BadRequest), None)
      else
        match Normalize(delivery.eventType.GetOr(""), delivery.json.value, now, repr)
        case Raised(e) => Outcome(Failed(e), None)
        case Ok(event) =>
          Outcome(Accepted(event.action.Name()), if event.action != Unknown then Some(event) else None)
  }

  /** The documents one delivery adds to the collection: none or one. */
  function Inserted(o: Outcome, oid: seq<Byte>): (r: seq<Doc>)
    ensures |r| <= 1
    ensures |r| == 1 <==> o.stored.Some?
  {
    match o.stored
    case Some(event) => [FromEvent(oid, event)]
    case None => []
  }

  /** The `events` collection, as the three routes use it. */
  class EventStore {
    var docs: seq<Doc>

    /** Every document was written by the webhook. */
    ghost predicate Valid()
      reads this
    {
      forall k :: 0 <= k < |docs| ==> IsRecorded(docs[k])
    }

    constructor ()
      ensures docs == [] && Valid()
    {
      docs := [];
    }

    /** `POST /webhook`. `now` is the server's clock as `get_current_time`
        prints it; `oid` is the ObjectId the store assigns on insertion. */
    method Webhook(secret: string, delivery: Delivery, now: string, oid: seq<Byte>,
                   mac: (string, seq<Byte>) -> seq<Byte>, repr: Json -> string) returns (reply: Reply)
      modifies this
      ensures reply == HandleWebhook(secret, delivery, now, mac, repr).reply
      ensures docs == old(docs) + Inserted(HandleWebhook(secret, delivery, now, mac, repr), oid)
      ensures old(Valid()) ==> Valid()
    {
      var outcome := HandleWebhook(secret, delivery, now, mac, repr);
      if outcome.stored.Some? {
        docs := docs + [FromEvent(oid, outcome.stored.value)];
      }
      reply := outcome.reply;
    }

    /** `clean_old_events`, given the cutoff text it computes from the clock. */
    method Purge(cutoff: string)
      modifies this
      ensures docs == Retained(old(docs), cutoff)
      ensures old(Valid()) ==> Valid()
    {
      var stored := docs;
      if Valid() {
        RetainedRecorded(stored, cutoff);
      }
      var kept: seq<Doc> := [];
      for i := 0 to |stored|
        invariant kept == Retained(stored[..i], cutoff)
      {
        RetainedStep(stored, i, cutoff);
        if !Expired(stored[i], cutoff) {
          kept := kept + [stored[i]];
        }
      }
      assert stored[..|stored|] == stored;
      docs := kept;
    }

    /** `GET /`: purge, fetch newest first, prepare each record for the
        template. `Raised` is the error the page is rendered with, without
        records. On a store only the webhook wrote it never fails. */
    method Index(cutoff: string) returns (page: Result<seq<Doc>>)
      modifies this
      ensures docs == Retained(old(docs), cutoff)
      ensures page == PageView(SortNewestFirst(docs))
      ensures old(Valid()) ==> page.Ok? && Valid()
    {
      Purge(cutoff);
      var sorted := SortNewestFirst(docs);
      page := RenderPage(sorted);
      if old(Valid()) {
        ReorderedPageOfRecorded(docs, sorted);
      }
    }

    /** `GET /events`: purge, fetch newest first, stringify each `_id`. */
    method GetEvents(cutoff: string) returns (events: seq<Doc>)
      modifies this
      ensures docs == Retained(old(docs), cutoff)
      ensures |events| == |docs|
      ensures forall k :: 0 <= k < |events| ==> events[k] == ForApi(SortNewestFirst(docs)[k])
      ensures old(Valid()) ==> Valid()
    {
      Purge(cutoff);
      events := ApiView(SortNewestFirst(docs));
    }
  }

  // ---------------------------------------------------------------------------
  // Deliveries worked through

  /** A push of `abc123` to `refs/heads/main` by `alice`. */
  function PushPayload(): Json
  {
    Obj(map[
      "ref" := Str("refs/heads/main"),
      "after" := Str("abc123"),
      "sender" := Obj(map["login" := Str("alice")])])
  }

  lemma PushToMainSteps(now: string)
    ensures Initial(PushPayload(), now) == Ok(Event(Str(""), Str("alice"), Unknown, Str(""), Str(""), now, Str("")))
    ensures UpdatePush(PushPayload(), Event(Str(""), Str("alice"), Unknown, Str(""), Str(""), now, Str("")))
         == Ok(Event(Str("abc123"), Str("alice"), Push, Str(""), Str("main"), now, Str("")))
  {
    assert !Occurs(HeadsPrefix, "main");
    RemoveAllPrefixOnly(HeadsPrefix, "main");
    assert HeadsPrefix + "main" == "refs/heads/main";
  }

  /** The push above is stored as a push to `main`. */
  lemma PushToMain(now: string, repr: Json -> string)
    ensures Normalize("push", PushPayload(), now, repr)
         == Ok(Event(Str("abc123"), Str("alice"), Push, Str(""), Str("main"), now, Str("")))
  {
    assert Payload(PushPayload()) == PushPayload();
    PushToMainSteps(now);
  }

  /** Pull request 42 opened by `bob` from `feature` to `main`. */
  function OpenedPayload(): Json
  {
    Obj(map[
      "action" := Str("opened"),
      "sender" := Obj(map["login" := Str("bob")]),
      "pull_request" := Obj(map[
        "id" := Num(42),
        "head" := Obj(map["ref" := Str("feature")]),
        "base" := Obj(map["ref" := Str("main")])])])
  }

  lemma PullRequestOpenedSteps(now: string, repr: Json -> string)
    ensures Initial(OpenedPayload(), now) == Ok(Event(Str(""), Str("bob"), Unknown, Str(""), Str(""), now, Str("")))
    ensures UpdatePullRequest(OpenedPayload(), Event(Str(""), Str("bob"), Unknown, Str(""), Str(""), now, Str("")), repr)
         == Ok(Event(Str("42"), Str("bob"), PullRequest, Str("feature"), Str("main"), now, Str("")))
  {
    assert IntText(42) == "42";
  }

  /** The pull request above is stored with request id `42`. */
  lemma PullRequestOpened(now: string, repr: Json -> string)
    ensures Normalize("pull_request", OpenedPayload(), now, repr)
         == Ok(Event(Str("42"), Str("bob"), PullRequest, Str("feature"), Str("main"), now, Str("")))
  {
    assert Payload(OpenedPayload()) == OpenedPayload();
    PullRequestOpenedSteps(now, repr);
  }

  /** A delivery without a signature header is refused with 401 and adds
      nothing, whatever its body. */
  lemma UnsignedDeliveryRefused(secret: string, delivery: Delivery, now: string,
                                mac: (string, seq<Byte>) -> seq<Byte>, repr: Json -> string)
    requires delivery.signature == None
    ensures HandleWebhook(secret, delivery, now, mac, repr).reply.Status() == 401
    ensures HandleWebhook(secret, delivery, now, mac, repr).stored == None
  {
  }

  /** A delivery whose `sender` is `null` is answered with 500 and adds
      nothing, whatever its type. */
  lemma NullSenderFails(secret: string, delivery: Delivery, now: string,
                        mac: (string, seq<Byte>) -> seq<Byte>, repr: Json -> string)
    requires VerifySignature(secret, delivery.body, delivery.signature, mac) == Ok(true)
    requires delivery.json.Some? && delivery.json.value.Obj?
    requires "sender" in delivery.json.value.fields && delivery.json.value.fields["sender"] == Null
    ensures HandleWebhook(secret, delivery, now, mac, repr).reply.Status() == 500
    ensures HandleWebhook(secret, delivery, now, mac, repr).stored == None
  {
  }
}
