/** The body of the `/webhook` handler once the signature is accepted: the
    `X-GitHub-Event` type and the JSON payload become one event record, whose
    action decides whether it is stored. */
module Normalizer {
  import opened Text
  import opened Json

  /** The `action` tag of an event record. */
  datatype Action = Push | PullRequest | Merge | Unknown
  {
    /** The text stored in the document and sent back as `event_type`. */
    function Name(): (r: string)
      ensures HasNoUpper(r)
    {
      match this
      case Push => "push"
      case PullRequest => "pull_request"
      case Merge => "merge"
      case Unknown => "unknown"
    }
  }

  /** The `event` dict built by the handler. A field holds whatever JSON value
      the payload had there, so most fields are JSON values. */
  datatype Event = Event(
    requestId: Json,
    author: Json,
    action: Action,
    fromBranch: Json,
    toBranch: Json,
    timestamp: string,
    repository: Json)

  const HeadsPrefix := "refs/heads/"

  /** The pull-request actions recorded as `pull_request`. */
  const OpenActions: set<Json> := {Str("opened"), Str("reopened"), Str("synchronize")}

  const EmptyObj := Obj(map[])

  // ---------------------------------------------------------------------------
  // The payload tree, described without Python calls

  /** `request.json or {}`: a falsy document (`null`, `false`, `0`, `""`,
      `[]`, `{}`) is replaced by an empty object. */
  function Payload(body: Json): Json
  {
    if Truthy(body) then body else EmptyObj
  }

  /** `key` is present in `o` with a value that is not an object, so a
      `.get` on what it holds raises. */
  predicate NotObjectAt(o: Json, key: string)
    requires o.Obj?
  {
    key in o.fields && !o.fields[key].Obj?
  }

  /** `data.outer.inner`, an absent `outer` counting as `{}` and an absent
      `inner` as `''`. */
  function NestedOr(data: Json, outer: string, inner: string): Json
    requires data.Obj? && !NotObjectAt(data, outer)
  {
    FieldOr(FieldOr(data, outer, EmptyObj), inner, Str(""))
  }

  function PrAction(data: Json): Json
    requires data.Obj?
  {
    FieldOr(data, "action", Str(""))
  }

  function PrObject(data: Json): Json
    requires data.Obj?
  {
    FieldOr(data, "pull_request", EmptyObj)
  }

  /** A pull request that was closed with a truthy `merged` flag. */
  predicate IsMergedPr(data: Json)
  {
    && data.Obj?
    && PrAction(data) == Str("closed")
    && PrObject(data).Obj?
    && Truthy(FieldOr(PrObject(data), "merged", Null))
  }

  /** A pull request that was opened, reopened or synchronized. */
  predicate IsOpenedPr(data: Json)
  {
    data.Obj? && PrAction(data) in OpenActions
  }

  /** The pull request's `head` or `base` is present but not an object. */
  predicate BranchesMalformed(pr: Json)
  {
    !pr.Obj? || NotObjectAt(pr, "head") || NotObjectAt(pr, "base")
  }

  /** The payloads on which the handler raises: a lookup that it performs
      reaches a value that is not an object, or `ref` of a push is not text. */
  predicate Malformed(eventType: string, data: Json)
  {
    || !data.Obj?
    || NotObjectAt(data, "sender")
    || NotObjectAt(data, "repository")
    || (eventType == "push" && !FieldOr(data, "ref", Str("")).Str?)
    || (eventType == "pull_request" && PrAction(data) == Str("closed") && !PrObject(data).Obj?)
    || (eventType == "pull_request" && (IsMergedPr(data) || IsOpenedPr(data))
        && BranchesMalformed(PrObject(data)))
  }

  // ---------------------------------------------------------------------------
  // The handler's computation, step by step as the source performs it

  /** The dict literal: author and repository looked up, everything else a default. */
  function Initial(data: Json, now: string): (r: Result<Event>)
    ensures r.Raised? <==> !data.Obj? || NotObjectAt(data, "sender") || NotObjectAt(data, "repository")
    ensures r.Ok? ==> r.value == Event(Str(""), NestedOr(data, "sender", "login"), Unknown, Str(""), Str(""),
                                       now, NestedOr(data, "repository", "full_name"))
  {
    var sender :- Get(data, "sender", EmptyObj);
    var author :- Get(sender, "login", Str(""));
    var repo := Get(data, "repository", EmptyObj).value;  // `data` is a dict by now
    var repository :- Get(repo, "full_name", Str(""));
    Ok(Event(Str(""), author, Unknown, Str(""), Str(""), now, repository))
  }

  /** The `push` branch's `event.update`. */
  function UpdatePush(data: Json, event: Event): (r: Result<Event>)
    ensures r.Raised? <==> !data.Obj? || !FieldOr(data, "ref", Str("")).Str?
    ensures r.Ok? ==> r.value == event.(requestId := FieldOr(data, "after", Str("")), action := Push,
                                        toBranch := Str(RemoveAll(FieldOr(data, "ref", Str("")).s, HeadsPrefix)))
  {
    var after :- Get(data, "after", Str(""));
    var ref := Get(data, "ref", Str("")).value;  // `data` is a dict by now
    if !ref.Str? then Raised(AttributeError("replace"))
    else Ok(event.(requestId := after, action := Push, toBranch := Str(RemoveAll(ref.s, HeadsPrefix))))
  }

  /** The `event.update` shared by the merge and the opened branches. */
  function UpdatePr(pr: Json, action: Action, event: Event, repr: Json -> string): (r: Result<Event>)
    ensures r.Raised? <==> BranchesMalformed(pr)
    ensures r.Ok? ==> r.value == event.(requestId := Str(PyStr(FieldOr(pr, "id", Str("")), repr)), action := action,
                                        fromBranch := NestedOr(pr, "head", "ref"), toBranch := NestedOr(pr, "base", "ref"))
  {
    var id :- Get(pr, "id", Str(""));
    var head := Get(pr, "head", EmptyObj).value;  // `pr` is a dict by now
    var from :- Get(head, "ref", Str(""));
    var base := Get(pr, "base", EmptyObj).value;
    var to :- Get(base, "ref", Str(""));
    Ok(event.(requestId := Str(PyStr(id, repr)), action := action, fromBranch := from, toBranch := to))
  }

  /** The `pull_request` branch. `pr_data.get('merged')` is evaluated only
      when the action is `closed`. */
  function UpdatePullRequest(data: Json, event: Event, repr: Json -> string): (r: Result<Event>)
    ensures r.Raised? <==>
              || !data.Obj?
              || (PrAction(data) == Str("closed") && !PrObject(data).Obj?)
              || ((IsMergedPr(data) || IsOpenedPr(data)) && BranchesMalformed(PrObject(data)))
    ensures r.Ok? && IsMergedPr(data) ==> UpdatePr(PrObject(data), Merge, event, repr) == r
    ensures r.Ok? && IsOpenedPr(data) ==> UpdatePr(PrObject(data), PullRequest, event, repr) == r
    ensures r.Ok? && !IsMergedPr(data) && !IsOpenedPr(data) ==> r == Ok(event)
  {
    var pr :- Get(data, "pull_request", EmptyObj);
    var action := Get(data, "action", Str("")).value;  // `data` is a dict by now
    var merged :- if action == Str("closed") then Get(pr, "merged", Null) else Ok(Null);
    if action == Str("closed") && Truthy(merged) then UpdatePr(pr, Merge, event, repr)
    else if action in OpenActions then UpdatePr(pr, PullRequest, event, repr)
    else Ok(event)
  }

  /** The normaliser: the event record for a delivery of type `eventType`
      whose JSON body is `body`, received at server time `now`; `Raised`
      where the handler raises and answers 500. */
  function Normalize(eventType: string, body: Json, now: string, repr: Json -> string): (r: Result<Event>)
    ensures r.Raised? <==> Malformed(eventType, Payload(body))
    ensures r.Ok? ==> r.value.timestamp == now
    ensures r.Ok? ==> r.value.author == NestedOr(Payload(body), "sender", "login")
    ensures r.Ok? ==> r.value.repository == NestedOr(Payload(body), "repository", "full_name")
    ensures r.Ok? ==> (r.value.action == Push <==> eventType == "push")
    ensures r.Ok? ==> (r.value.action == Merge <==> eventType == "pull_request" && IsMergedPr(Payload(body)))
    ensures r.Ok? ==> (r.value.action == PullRequest <==> eventType == "pull_request" && IsOpenedPr(Payload(body)))
    ensures r.Ok? && r.value.action == Unknown ==>
              r.value.requestId == r.value.fromBranch == r.value.toBranch == Str("")
  {
    var data := Payload(body);
    var event :- Initial(data, now);
    if eventType == "push" then UpdatePush(data, event)
    else if eventType == "pull_request" then UpdatePullRequest(data, event, repr)
    else Ok(event)
  }

  // ---------------------------------------------------------------------------
  // The cases, field by field

  /** A push records the commit `after` as request id, no source branch, and
      `ref` with every `refs/heads/` removed as target branch. */
  lemma PushFields(body: Json, now: string, repr: Json -> string)
    requires Normalize("push", body, now, repr).Ok?
    ensures var e := Normalize("push", body, now, repr).value;
      && e.action == Push
      && e.requestId == FieldOr(Payload(body), "after", Str(""))
      && e.fromBranch == Str("")
      && e.toBranch == Str(RemoveAll(FieldOr(Payload(body), "ref", Str("")).s, HeadsPrefix))
  {
  }

  /** A push to `refs/heads/<name>` records `<name>` as target branch when
      the name holds no further `refs/heads/`. */
  lemma PushBranchName(body: Json, now: string, repr: Json -> string, name: string)
    requires Payload(body).Obj? && FieldOr(Payload(body), "ref", Str("")) == Str(HeadsPrefix + name)
    requires !Occurs(HeadsPrefix, name)
    requires !Malformed("push", Payload(body))
    ensures Normalize("push", body, now, repr).Ok?
    ensures Normalize("push", body, now, repr).value.toBranch == Str(name)
  {
    RemoveAllPrefixOnly(HeadsPrefix, name);
  }

  /** The scan goes on past `a/` and deletes the second `refs/heads/`. */
  lemma NestedHeadsRest()
    ensures RemoveAll("a/" + HeadsPrefix + "b", HeadsPrefix) == "a/b"
  {
    var rest := "a/" + HeadsPrefix + "b";
    forall i | 0 <= i < 2
      ensures !OccursAt(HeadsPrefix, rest, i)
    {
      assert rest[i] in "a/" && HeadsPrefix[0] == 'r';
      NotOccursAtMismatch(HeadsPrefix, rest, i);
    }
    RemoveAllAfter("a/", HeadsPrefix, "b");
    assert !Occurs(HeadsPrefix, "b");
    RemoveAllAbsent("b", HeadsPrefix);
  }

  /** Every `refs/heads/` goes, not only the leading one:
      `refs/heads/a/refs/heads/b` is recorded as `a/b`. */
  lemma NestedHeadsRemoved()
    ensures RemoveAll("refs/heads/a/refs/heads/b", HeadsPrefix) == "a/b"
  {
    var rest := "a/" + HeadsPrefix + "b";
    assert HeadsPrefix + rest == "refs/heads/a/refs/heads/b";
    RemoveAllLeading(HeadsPrefix, rest);
    NestedHeadsRest();
  }

  /** A merge or an opened pull request records the pull request's `id` as
      text and the `ref`s of its `head` and `base` as source and target. */
  lemma PullRequestFields(body: Json, now: string, repr: Json -> string)
    requires Normalize("pull_request", body, now, repr).Ok?
    requires Normalize("pull_request", body, now, repr).value.action != Unknown
    ensures var data := Payload(body);
      var e := Normalize("pull_request", body, now, repr).value;
      && data.Obj? && PrObject(data).Obj?
      && !NotObjectAt(PrObject(data), "head") && !NotObjectAt(PrObject(data), "base")
      && e.requestId == Str(PyStr(FieldOr(PrObject(data), "id", Str("")), repr))
      && e.fromBranch == NestedOr(PrObject(data), "head", "ref")
      && e.toBranch == NestedOr(PrObject(data), "base", "ref")
  {
  }

  /** Two pull-request events whose numeric ids differ get different
      request ids: `str(id)` loses nothing. */
  lemma PullRequestIdsDistinct(body1: Json, body2: Json, now: string, repr: Json -> string, n1: int, n2: int)
    requires Normalize("pull_request", body1, now, repr).Ok?
    requires Normalize("pull_request", body2, now, repr).Ok?
    requires Normalize("pull_request", body1, now, repr).value.action != Unknown
    requires Normalize("pull_request", body2, now, repr).value.action != Unknown
    requires FieldOr(PrObject(Payload(body1)), "id", Str("")) == Num(n1)
    requires FieldOr(PrObject(Payload(body2)), "id", Str("")) == Num(n2)
    requires n1 != n2
    ensures Normalize("pull_request", body1, now, repr).value.requestId
         != Normalize("pull_request", body2, now, repr).value.requestId
  {
    PullRequestFields(body1, now, repr);
    PullRequestFields(body2, now, repr);
    if IntText(n1) == IntText(n2) {
      IntTextInjective(n1, n2);
    }
  }

  /** A closed pull request that was not merged is not recorded, whatever
      else the payload holds. */
  lemma ClosedUnmergedIsUnknown(body: Json, now: string, repr: Json -> string)
    requires Payload(body).Obj? && PrAction(Payload(body)) == Str("closed")
    requires PrObject(Payload(body)).Obj? && !Truthy(FieldOr(PrObject(Payload(body)), "merged", Null))
    requires !NotObjectAt(Payload(body), "sender") && !NotObjectAt(Payload(body), "repository")
    ensures Normalize("pull_request", body, now, repr).Ok?
    ensures Normalize("pull_request", body, now, repr).value.action == Unknown
  {
  }
}
