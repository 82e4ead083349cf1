/** The read side: `find().sort('timestamp', -1)` and the loops of `index`
    and `get_events` that prepare each record for the page or for JSON. */
module ReadSide {
  import opened Text
  import opened Json
  import opened Documents

  // ---------------------------------------------------------------------------
  // find().sort('timestamp', -1)

  /** Newest first: no record's timestamp text sorts before a later one's. */
  predicate NewestFirst(s: seq<Doc>)
  {
    forall i, j :: 0 <= i < j < |s| ==> !Less(s[i].timestamp, s[j].timestamp)
  }

  /** No timestamp in `s` sorts after `t`. */
  predicate NoneNewer(t: string, s: seq<Doc>)
  {
    forall j :: 0 <= j < |s| ==> !Less(t, s[j].timestamp)
  }

  /** Places `d` into a newest-first sequence, before the first record that
      is not newer than it. */
  function InsertByTime(d: Doc, s: seq<Doc>): (r: seq<Doc>)
    ensures |r| == |s| + 1
    ensures multiset(r) == multiset(s) + multiset{d}
  {
    if s == [] then [d]
    else if !Less(d.timestamp, s[0].timestamp) then [d] + s
    else
      assert s == [s[0]] + s[1..];
      [s[0]] + InsertByTime(d, s[1..])
  }

  lemma {:induction false} InsertKeepsNoneNewer(t: string, d: Doc, s: seq<Doc>)
    requires NoneNewer(t, s) && !Less(t, d.timestamp)
    ensures NoneNewer(t, InsertByTime(d, s))
  {
    if s != [] && Less(d.timestamp, s[0].timestamp) {
      InsertKeepsNoneNewer(t, d, s[1..]);
    }
  }

  lemma {:induction false} InsertKeepsNewestFirst(d: Doc, s: seq<Doc>)
    requires NewestFirst(s)
    ensures NewestFirst(InsertByTime(d, s))
  {
    if s == [] {
    } else if !Less(d.timestamp, s[0].timestamp) {
      forall j | 0 <= j < |s|
        ensures !Less(d.timestamp, s[j].timestamp)
      {
        if j > 0 {
          NotLessTransitive(d.timestamp, s[0].timestamp, s[j].timestamp);
        }
      }
    } else {
      var rest := InsertByTime(d, s[1..]);
      InsertKeepsNewestFirst(d, s[1..]);
      LessAsymmetric(d.timestamp, s[0].timestamp);
      InsertKeepsNoneNewer(s[0].timestamp, d, s[1..]);
      assert NoneNewer(s[0].timestamp, rest);
    }
  }

  /** The query's answer: every stored record, newest first (records with
      equal timestamps come in an order the store does not promise). */
  function SortNewestFirst(docs: seq<Doc>): (r: seq<Doc>)
    ensures NewestFirst(r)
    ensures multiset(r) == multiset(docs)
    ensures |r| == |docs|
  {
    if docs == [] then []
    else
      assert docs == [docs[0]] + docs[1..];
      var rest := SortNewestFirst(docs[1..]);
      InsertKeepsNewestFirst(docs[0], rest);
      InsertByTime(docs[0], rest)
  }

  // ---------------------------------------------------------------------------
  // index(): `_id` to text, `action` lower-cased or ''

  /** `event['action'].lower() if event.get('action') else ''`: only a string
      has `lower`, so a truthy action of another type raises. */
  function PageAction(fields: map<string, Json>): (r: Result<Json>)
    ensures r.Ok? ==> r.value.Str? && HasNoUpper(r.value.s)
    ensures r.Raised? <==> "action" in fields && Truthy(fields["action"]) && !fields["action"].Str?
    ensures r.Ok? && "action" in fields && fields["action"].Str? ==> r.value == Str(Lower(fields["action"].s))
    ensures r.Ok? && ("action" !in fields || !Truthy(fields["action"])) ==> r.value == Str("")
  {
    if "action" !in fields || !Truthy(fields["action"]) then Ok(Str(""))
    else if fields["action"].Str? then Ok(Str(Lower(fields["action"].s)))
    else Raised(AttributeError("lower"))
  }

  /** One record as `index` hands it to the template. */
  function ForPage(d: Doc): (r: Result<Doc>)
    ensures r.Raised? <==> PageAction(d.fields).Raised?
    ensures r.Ok? ==> r.value.id == TextId(IdText(d.id)) && r.value.timestamp == d.timestamp
    ensures r.Ok? ==> r.value.fields.Keys == d.fields.Keys + {"action"}
    ensures r.Ok? ==> forall k :: k in d.fields && k != "action" ==> r.value.fields[k] == d.fields[k]
    ensures r.Ok? ==> r.value.fields["action"] == PageAction(d.fields).value
  {
    var action :- PageAction(d.fields);
    Ok(Doc(TextId(IdText(d.id)), d.timestamp, d.fields["action" := action]))
  }

  /** The records `index` renders, or the exception that makes it render
      the page with no records. */
  function PageView(s: seq<Doc>): (r: Result<seq<Doc>>)
    ensures r.Ok? <==> forall k :: 0 <= k < |s| ==> ForPage(s[k]).Ok?
    ensures r.Ok? ==> |r.value| == |s| && forall k :: 0 <= k < |s| ==> r.value[k] == ForPage(s[k]).value
  {
    if forall k :: 0 <= k < |s| ==> ForPage(s[k]).Ok? then
      Ok(seq(|s|, k requires 0 <= k < |s| => ForPage(s[k]).value))
    else
      Raised(AttributeError("lower"))
  }

  /** The loop of `index`, in place over the fetched records: it leaves
      them as `index` renders them, or answers false when an exception was
      raised (the records are then discarded). */
  method PrepareForPage(a: array<Doc>) returns (ok: bool)
    modifies a
    ensures PageView(old(a[..])) == if ok then Ok(a[..]) else Raised(AttributeError("lower"))
  {
    var i := 0;
    while i < a.Length
      invariant 0 <= i <= a.Length
      invariant forall k :: 0 <= k < i ==> ForPage(old(a[k])).Ok? && a[k] == ForPage(old(a[k])).value
      invariant forall k :: i <= k < a.Length ==> a[k] == old(a[k])
    {
      var r := ForPage(a[i]);
      if r.Raised? {
        assert !ForPage(old(a[..])[i]).Ok?;
        return false;
      }
      a[i] := r.value;
      i := i + 1;
    }
    assert a[..] == PageView(old(a[..])).value;
    return true;
  }

  /** `index` from the fetched records on: they are copied into a buffer
      and prepared there. */
  method RenderPage(fetched: seq<Doc>) returns (page: Result<seq<Doc>>)
    ensures page == PageView(fetched)
  {
    var a := new Doc[|fetched|](k requires 0 <= k < |fetched| => fetched[k]);
    assert a[..] == fetched;
    var ok := PrepareForPage(a);
    page := if ok then Ok(a[..]) else Raised(AttributeError("lower"));
  }

  /** Preparing a record twice is preparing it once. */
  lemma ForPageIdempotent(d: Doc)
    requires ForPage(d).Ok?
    ensures ForPage(ForPage(d).value) == ForPage(d)
  {
    var p := ForPage(d).value;
    var action := p.fields["action"];
    LowerOfLower(action.s);
    assert p.fields["action" := action] == p.fields;
  }

  /** Records the webhook wrote never make `index` raise, and keep their
      action text: it is already lower case. */
  lemma PageViewOfRecorded(s: seq<Doc>)
    requires forall k :: 0 <= k < |s| ==> IsRecorded(s[k])
    ensures PageView(s).Ok?
    ensures forall k :: 0 <= k < |s| ==> PageView(s).value[k].fields == s[k].fields
  {
    forall k | 0 <= k < |s|
      ensures ForPage(s[k]).Ok? && ForPage(s[k]).value.fields == s[k].fields
    {
      var action := s[k].fields["action"];
      LowerOfLower(action.s);
      assert s[k].fields["action" := Str(Lower(action.s))] == s[k].fields;
    }
  }

  /** A reordering of records the webhook wrote holds only such records. */
  lemma ReorderedRecorded(s: seq<Doc>, t: seq<Doc>)
    requires multiset(t) == multiset(s)
    requires forall k :: 0 <= k < |s| ==> IsRecorded(s[k])
    ensures forall k :: 0 <= k < |t| ==> IsRecorded(t[k])
  {
    forall k | 0 <= k < |t|
      ensures IsRecorded(t[k])
    {
      assert t[k] in multiset(s);
      var j :| 0 <= j < |s| && s[j] == t[k];
    }
  }

  /** Any reordering of records the webhook wrote, the newest-first answer
      among them, never makes `index` raise. */
  lemma ReorderedPageOfRecorded(s: seq<Doc>, t: seq<Doc>)
    requires multiset(t) == multiset(s)
    requires forall k :: 0 <= k < |s| ==> IsRecorded(s[k])
    ensures PageView(t).Ok?
  {
    ReorderedRecorded(s, t);
    PageViewOfRecorded(t);
  }

  // ---------------------------------------------------------------------------
  // get_events(): `_id` to text

  /** One record as `get_events` returns it. */
  function ForApi(d: Doc): Doc
  {
    d.(id := TextId(IdText(d.id)))
  }

  /** The loop of `get_events`, in place over the fetched records. */
  method StringifyIds(a: array<Doc>)
    modifies a
    ensures forall k :: 0 <= k < a.Length ==> a[k] == ForApi(old(a[k]))
  {
    for i := 0 to a.Length
      invariant forall k :: 0 <= k < i ==> a[k] == ForApi(old(a[k]))
      invariant forall k :: i <= k < a.Length ==> a[k] == old(a[k])
    {
      a[i] := ForApi(a[i]);
    }
  }

  /** `get_events` from the fetched records on. */
  method ApiView(fetched: seq<Doc>) returns (events: seq<Doc>)
    ensures |events| == |fetched|
    ensures forall k :: 0 <= k < |events| ==> events[k] == ForApi(fetched[k])
  {
    var a := new Doc[|fetched|](k requires 0 <= k < |fetched| => fetched[k]);
    StringifyIds(a);
    events := a[..];
  }

  /** Stringifying keeps distinct ObjectIds distinct, and is a no-op the
      second time. */
  lemma ForApiKeepsIds(d1: Doc, d2: Doc)
    requires d1.id.ObjectId? && d2.id.ObjectId? && d1.id != d2.id
    ensures ForApi(d1).id != ForApi(d2).id
    ensures ForApi(ForApi(d1)) == ForApi(d1)
  {
    if ForApi(d1).id == ForApi(d2).id {
      IdTextInjective(d1.id, d2.id);
    }
  }
}
