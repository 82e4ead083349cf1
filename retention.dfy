/** `clean_old_events`: `delete_many({'timestamp': {'$lt': cutoff}})`. The
    store compares the timestamps as TEXT: stored timestamps are written in
    Indian Standard Time (`+05:30`) while the cutoff is written in UTC, so the
    comparison is not one of instants. */
module Retention {
  import opened Text
  import opened Json
  import opened Documents

  /** The purge filter: the stored timestamp text sorts before the cutoff text. */
  predicate Expired(d: Doc, cutoff: string)
  {
    Less(d.timestamp, cutoff)
  }

  /** What a purge leaves of one document. */
  function Kept(d: Doc, cutoff: string): seq<Doc>
  {
    if Expired(d, cutoff) then [] else [d]
  }

  /** The documents that survive a purge, in store order. */
  function Retained(docs: seq<Doc>, cutoff: string): (r: seq<Doc>)
    ensures |r| <= |docs|
    ensures forall d :: d in r <==> d in docs && !Expired(d, cutoff)
  {
    if docs == [] then []
    else Kept(docs[0], cutoff) + Retained(docs[1..], cutoff)
  }

  /** The documents a purge deletes, in store order. */
  function Removed(docs: seq<Doc>, cutoff: string): (r: seq<Doc>)
    ensures forall d :: d in r <==> d in docs && Expired(d, cutoff)
  {
    if docs == [] then []
    else (if Expired(docs[0], cutoff) then [docs[0]] else []) + Removed(docs[1..], cutoff)
  }

  /** A purge keeps a collection the webhook alone wrote as such. */
  lemma {:induction false} RetainedRecorded(docs: seq<Doc>, cutoff: string)
    requires forall k :: 0 <= k < |docs| ==> IsRecorded(docs[k])
    ensures forall k :: 0 <= k < |Retained(docs, cutoff)| ==> IsRecorded(Retained(docs, cutoff)[k])
  {
    if docs != [] {
      RetainedRecorded(docs[1..], cutoff);
    }
  }

  /** Purging distributes over concatenation: survivors keep their order. */
  lemma {:induction false} RetainedAppend(a: seq<Doc>, b: seq<Doc>, cutoff: string)
    ensures Retained(a + b, cutoff) == Retained(a, cutoff) + Retained(b, cutoff)
  {
    if a == [] {
      assert a + b == b;
    } else {
      var ab := a + b;
      assert ab[0] == a[0] && ab[1..] == a[1..] + b;
      RetainedAppend(a[1..], b, cutoff);
      assert Retained(ab, cutoff) == Kept(a[0], cutoff) + (Retained(a[1..], cutoff) + Retained(b, cutoff));
    }
  }

  /** One more document examined: the purge of a prefix grows by what is
      kept of it. */
  lemma RetainedStep(docs: seq<Doc>, i: nat, cutoff: string)
    requires i < |docs|
    ensures Retained(docs[..i + 1], cutoff) == Retained(docs[..i], cutoff) + Kept(docs[i], cutoff)
  {
    assert docs[..i + 1] == docs[..i] + [docs[i]];
    RetainedAppend(docs[..i], [docs[i]], cutoff);
    assert [docs[i]][1..] == [];
  }

  /** A purge loses nothing but the expired documents. */
  lemma {:induction false} RetainedAndRemoved(docs: seq<Doc>, cutoff: string)
    ensures multiset(Retained(docs, cutoff)) + multiset(Removed(docs, cutoff)) == multiset(docs)
  {
    if docs != [] {
      var d, rest := docs[0], docs[1..];
      RetainedAndRemoved(rest, cutoff);
      assert docs == [d] + rest;
      assert multiset(docs) == multiset{d} + multiset(rest);
      if Expired(d, cutoff) {
        assert Retained(docs, cutoff) == Retained(rest, cutoff);
        assert Removed(docs, cutoff) == [d] + Removed(rest, cutoff);
      } else {
        assert Retained(docs, cutoff) == [d] + Retained(rest, cutoff);
        assert Removed(docs, cutoff) == Removed(rest, cutoff);
      }
    }
  }

  /** Documents none of which is expired all survive. */
  lemma {:induction false} RetainedNoneExpired(docs: seq<Doc>, cutoff: string)
    requires forall i :: 0 <= i < |docs| ==> !Expired(docs[i], cutoff)
    ensures Retained(docs, cutoff) == docs
  {
    if docs != [] {
      RetainedNoneExpired(docs[1..], cutoff);
    }
  }

  /** A second purge with the same cutoff deletes nothing. */
  lemma RetainedIdempotent(docs: seq<Doc>, cutoff: string)
    ensures Retained(Retained(docs, cutoff), cutoff) == Retained(docs, cutoff)
  {
    var r := Retained(docs, cutoff);
    assert forall i :: 0 <= i < |r| ==> r[i] in r;
    RetainedNoneExpired(r, cutoff);
  }

  /** Purging at a cutoff and then at a later one is purging at the later one. */
  lemma {:induction false} RetainedLaterCutoff(docs: seq<Doc>, early: string, late: string)
    requires !Less(late, early)
    ensures Retained(Retained(docs, early), late) == Retained(docs, late)
  {
    if docs != [] {
      var d := docs[0];
      RetainedLaterCutoff(docs[1..], early, late);
      if Expired(d, early) {
        LessTotal(early, late);
        if early != late {
          LessTransitive(d.timestamp, early, late);
        }
        assert Retained(docs, early) == Retained(docs[1..], early);
        assert Retained(docs, late) == Retained(docs[1..], late);
      } else {
        RetainedAppend([d], Retained(docs[1..], early), late);
      }
    }
  }

  /** The comparison is on text, not on instants: a record stored at
      02:00 IST on 2 April 2021 (20:30 UTC on 1 April) survives the purge of
      21:00 UTC on 2 April 2021, although it is then 24.5 hours old. */
  lemma ZonesNotReconciled(id: DocId, fields: map<string, Json>)
    ensures !Expired(Doc(id, "2021-04-02T02:00:00+05:30", fields), "2021-04-01T21:00:00+00:00")
  {
    var stored, cutoff := "2021-04-02T02:00:00+05:30", "2021-04-01T21:00:00+00:00";
    assert stored[..9] == cutoff[..9];
    LessDecidedAt(cutoff, stored, 9);
    LessAsymmetric(cutoff, stored);
  }
}
