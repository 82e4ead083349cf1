/** The documents of the `events` collection: what `insert_one(event)`
    stores, with the `_id` the store assigns. */
module Documents {
  import opened Text
  import opened Json
  import opened Normalizer

  /** A document's `_id`: the 12-byte ObjectId the store assigns, or the
      text it becomes once a reader has applied `str` to it. */
  datatype DocId = ObjectId(bytes: seq<Byte>) | TextId(text: string)

  /** `str(_id)`: an ObjectId prints as its bytes in lower-case hex. */
  function IdText(id: DocId): string
  {
    match id
    case ObjectId(bytes) => Hex(bytes)
    case TextId(text) => text
  }

  /** A stored document. Every document carries a text `timestamp`; the other
      keys are kept in `fields`. */
  datatype Doc = Doc(id: DocId, timestamp: string, fields: map<string, Json>)

  /** The actions a stored record can carry. */
  const RecordedActions: set<Json> := {Str("push"), Str("pull_request"), Str("merge")}

  /** A document as the webhook writes it: an ObjectId, and one of the three
      recorded actions. */
  predicate IsRecorded(d: Doc)
  {
    d.id.ObjectId? && "action" in d.fields && d.fields["action"] in RecordedActions
  }

  /** The document `insert_one(event)` stores under the ObjectId `oid`. */
  function FromEvent(oid: seq<Byte>, e: Event): (d: Doc)
    ensures d.id == ObjectId(oid) && d.timestamp == e.timestamp
    ensures e.action != Unknown ==> IsRecorded(d)
    ensures d.fields.Keys == {"request_id", "author", "action", "from_branch", "to_branch", "repository"}
    ensures && d.fields["request_id"] == e.requestId
            && d.fields["author"] == e.author
            && d.fields["action"] == Str(e.action.Name())
            && d.fields["from_branch"] == e.fromBranch
            && d.fields["to_branch"] == e.toBranch
            && d.fields["repository"] == e.repository
  {
    Doc(ObjectId(oid), e.timestamp,
        map["request_id" := e.requestId, "author" := e.author, "action" := Str(e.action.Name()),
            "from_branch" := e.fromBranch, "to_branch" := e.toBranch, "repository" := e.repository])
  }

  /** `str` keeps distinct ObjectIds distinct, so stringified ids still tell
      documents apart. */
  lemma IdTextInjective(a: DocId, b: DocId)
    requires a.ObjectId? && b.ObjectId? && IdText(a) == IdText(b)
    ensures a == b
  {
    HexInjective(a.bytes, b.bytes);
  }
}
