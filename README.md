# GitHub events monitor: the webhook pipeline, in Dafny

`app.py` is a Flask service. GitHub posts push and pull-request notifications
to `/webhook`. The service checks their HMAC-SHA1 signature and turns each
authentic delivery into a small event record: `request_id`, `author`, `action`,
`from_branch`, `to_branch`, `timestamp` and `repository`. It stores the record in
a MongoDB collection when its action is recognised. `/` and `/events` first
delete the records older than a cutoff, then return the rest, newest first,
after a per-record cleanup.

This project models that pipeline:

- `signature.dfy` (module `Signature`): `verify_github_signature`, including
  `hmac.compare_digest`, which raises on non-ASCII text.
- `normalizer.dfy` (module `Normalizer`): the body of `webhook()` that builds the
  event from the `X-GitHub-Event` type and the JSON payload. Each `d.get(k, default)`
  raises when `d` is not a dict, for instance a JSON `null`.
- `retention.dfy` (module `Retention`): `clean_old_events`, a filter on the
  timestamp TEXT compared with the cutoff text.
- `readside.dfy` (module `ReadSide`): `find().sort('timestamp', -1)`, the
  in-place loop of `index` (stringify `_id`, lower-case `action` or set it to
  `''`) and the loop of `get_events` (stringify `_id`).
- `app.dfy` (module `App`): the handler `webhook()` as a function from a
  delivery to a reply and an optional stored event. The collection is the class
  `EventStore` with a `seq` field; its methods are the three routes.
- `json.dfy` and `text.dfy` (modules `Json` and `Text`): the Python values and
  string operations these rely on. These are a JSON tree, truthiness,
  `dict.get`, `str()`, `str.lower`, string `<`, `str.replace(p, '')`,
  `str(int)` and `hexdigest()`.

An exception becomes `Result.Raised`; the handler answers it with a 500 and
stores nothing. The clock, the HMAC-SHA1 function, the ObjectId the store
assigns and Python's `repr` of a list or dict are parameters.

Some things the code does that are easy to miss:

- `author` is `sender.login` for every event type, defaulting to `''`.
- `to_branch` of a push is `ref` with EVERY occurrence of `refs/heads/` removed,
  not only a leading one (`Text.RemoveAll`). `refs/heads/a/refs/heads/b` becomes `a/b`.
- The handler answers 500 when a value it looks up in is present but is not an
  object: `sender` or `repository`, or, for a pull request, the `pull_request`
  object when the action is `closed` or opened/reopened/synchronize, and its
  `head` or `base` when the event is recorded. A push whose `ref` is not text
  also gives 500, and so does a body that is not JSON. Values the handler never
  reads do not matter. The exact set of such payloads is `Normalizer.Malformed`.
- `pull_request.merged` is read only when the action is `closed`. A pull request
  whose action is neither `closed` nor opened/reopened/synchronize is never
  inspected, so a `null` pull request does not raise then.
- Stored timestamps are IST text (`+05:30`), but the purge cutoff is UTC text,
  and the store compares them as text. `Retention.ZonesNotReconciled` exhibits
  a record that is 24.5 hours old and survives. No claim about a 24-hour
  horizon is made.

## Model

| member | source | states |
|---|---|---|
| `Signature.VerifySignature` | app.py:49-69 | Fails closed: an empty secret, an absent header or an empty header gives false. Otherwise it is true exactly when the header is `sha1=` followed by the hex HMAC of the body, and it raises exactly when the header holds a non-ASCII character. |
| `Signature.CompareDigest` | app.py:69 | Raises TypeError exactly when either text has a non-ASCII character; otherwise true iff the two texts are equal. |
| `Signature.ExpectedSignature` | app.py:63-67 | The expected header is ASCII text: `sha1=` followed by two hex digits per byte of the HMAC. |
| `Signature.ExpectedSignatureDeterminesDigest` | app.py:63-67 | Two equal expected signatures come from the same HMAC digest. |
| `Normalizer.Normalize` | app.py:134-182 | Raises exactly on the payloads in `Malformed`. The timestamp is always the server's `now`. `author` and `repository` are `sender.login` and `repository.full_name` with defaults. The action is push iff the type is `push`. It is merge iff a `pull_request` was closed with a truthy `merged`, and pull_request iff the action is opened, reopened or synchronize. An unknown event keeps empty id and branches. |
| `Normalizer.Payload` | app.py:134 | Definition, no contract: `request.json or {}`, a falsy body replaced by an empty object. |
| `Normalizer.Malformed` | app.py:139-174 | Definition, no contract: the payloads on which the handler raises, i.e. a lookup reaches a non-object or a push `ref` is not text. |
| `Normalizer.Initial` | app.py:139-147 | Raises exactly when the payload, `sender` or `repository` is not an object; otherwise the record has `sender.login` and `repository.full_name` (with defaults), the server time, action unknown and empty id and branches. |
| `Normalizer.UpdatePush` | app.py:150-155 | Raises exactly when the payload is not an object or `ref` is not text; otherwise sets `after` as id, action push and `ref` with every `refs/heads/` removed as target branch. |
| `Normalizer.UpdatePr` | app.py:162-175 | Raises exactly when the pull request, its `head` or its `base` is not an object; otherwise sets `str(id)`, the action, `head.ref` and `base.ref`. |
| `Normalizer.UpdatePullRequest` | app.py:156-176 | Raises exactly on a non-object payload, a closed action with a non-object pull request, or a merged/opened pull request with malformed branches. A merged pull request gets the merge update, an opened one the pull_request update, and any other leaves the record unchanged. |
| `Normalizer.Action.Name` | app.py:142 | Action names contain no upper-case letter. |
| `Normalizer.PushFields` | app.py:149-155 | A push records `after` (default `''`) as request id, `''` as source branch, and `ref` with every `refs/heads/` removed as target branch. |
| `Normalizer.PushBranchName` | app.py:153 | A push to `refs/heads/<name>` is accepted and records `<name>` when the name holds no further `refs/heads/`. |
| `Normalizer.PullRequestFields` | app.py:161-176 | A merge or an opened pull request has an object `pull_request` and records `str(id)`, `head.ref` and `base.ref`. |
| `Normalizer.PullRequestIdsDistinct` | app.py:171 | Two recorded pull requests with different numeric ids get different request ids. |
| `Normalizer.ClosedUnmergedIsUnknown` | app.py:161-169 | A closed pull request with a falsy `merged` succeeds with action unknown. |
| `App.HandleWebhook` | app.py:128-185 | 401 iff the signature check says false. A 200 only follows a true check. 500 iff the check raised, or the body is not JSON, or the payload is malformed. A 200 names the action of the event `Normalize` makes of the payload. Exactly that normalised event is stored, and it is stored iff its action is not `unknown`; it carries the server time. |
| `App.Reply.Status` | app.py:132-185 | Definition, no contract: 401 for a refused signature, 200 for an accepted delivery, 500 for an exception. |
| `App.Inserted` | app.py:178-180 | A delivery adds at most one document, and adds one exactly when an event is stored. |
| `App.EventStore.constructor` | app.py:39-43 | A fresh deployment: the collection starts empty, so every document in it was written by the webhook. |
| `App.EventStore.Webhook` | app.py:115-185 | The reply is that of `HandleWebhook`. The collection grows by exactly the inserted document. A collection only the webhook wrote stays so. |
| `App.EventStore.Purge` | app.py:81-88 | The collection becomes exactly `Retained` of the old one, and a collection only the webhook wrote stays so. |
| `App.EventStore.Index` | app.py:98-111 | Purges. The page is the purged records newest first, each prepared by `ForPage`, or the error raised. It never fails on a collection only the webhook wrote, and that collection stays so. |
| `App.EventStore.GetEvents` | app.py:195-200 | Purges, then returns every remaining record newest first with its `_id` as text. A collection only the webhook wrote stays so. |
| `App.PushToMain` | app.py:149-155 | Push of `abc123` to `refs/heads/main` by `alice`: the record has action push, target branch `main` and request id `abc123`. |
| `App.PullRequestOpened` | app.py:169-176 | Pull request 42 opened by `bob` from `feature` to `main` gives the record with request id `42`. |
| `App.UnsignedDeliveryRefused` | app.py:130-132 | No signature header: 401 and nothing stored, whatever the body. |
| `App.NullSenderFails` | app.py:141 | An authentic delivery with `"sender": null` gets 500 and stores nothing. |
| `Documents.FromEvent` | app.py:139-147 | The stored document has the ObjectId, the timestamp, and exactly the keys `request_id`, `author`, `action`, `from_branch`, `to_branch` and `repository`, holding the event's values and the action's name. A recognised event gives a document that `IsRecorded` accepts. |
| `Documents.IdText` | app.py:107 | Definition, no contract: `str(_id)`, the hex text of an ObjectId; `IdTextInjective` states that it loses nothing. |
| `Documents.IdTextInjective` | app.py:107 | `str` of distinct ObjectIds differ. |
| `Retention.Retained` | app.py:85-88 | A document survives iff it is in the collection and its timestamp text is not less than the cutoff text. |
| `Retention.Expired` | app.py:86-88 | Definition, no contract: the `delete_many` filter, timestamp text `$lt` the cutoff text. |
| `Retention.Removed` | app.py:86-88 | The deleted documents are exactly those whose timestamp text is less than the cutoff. |
| `Retention.RetainedAppend` | app.py:86-88 | The purge distributes over concatenation, so survivors keep their order. |
| `Retention.RetainedAndRemoved` | app.py:86-88 | Survivors and deleted documents together are the old collection, as a multiset. |
| `Retention.RetainedNoneExpired` | app.py:86-88 | A collection with no expired document is left unchanged. |
| `Retention.RetainedIdempotent` | app.py:86-88 | A second purge with the same cutoff changes nothing. |
| `Retention.RetainedLaterCutoff` | app.py:85-88 | Purging at one cutoff and then at a later one is purging at the later one. |
| `Retention.RetainedRecorded` | app.py:86-88 | A purge keeps a collection that only the webhook wrote that way. |
| `Retention.ZonesNotReconciled` | app.py:78-88 | An IST timestamp of an instant 24.5 hours before the purge is not less than the UTC cutoff text, so it survives. |
| `ReadSide.SortNewestFirst` | app.py:103 | The query returns a permutation of the collection with no timestamp text less than a later one's. |
| `ReadSide.InsertByTime` | app.py:103 | Inserting into the answer adds exactly one document. |
| `ReadSide.InsertKeepsNoneNewer` | app.py:103 | Inserting a document no newer than a bound keeps every timestamp at most that bound. |
| `ReadSide.InsertKeepsNewestFirst` | app.py:103 | Inserting keeps an answer newest first. |
| `ReadSide.PageAction` | app.py:109 | The action becomes its lower-case text, or `''` when it is missing or falsy. It raises exactly when it is truthy and not a string. The result has no upper-case letter. |
| `ReadSide.ForPage` | app.py:106-109 | Raises exactly when `PageAction` does. Otherwise `_id` becomes its text, the timestamp and every other field are unchanged, and `action` holds what `PageAction` gives. |
| `ReadSide.PageView` | app.py:103-111 | The records are rendered iff every record can be prepared, and then each is its own `ForPage`. |
| `ReadSide.PrepareForPage` | app.py:106-109 | The in-place loop answers true exactly when `PageView` of the buffer's old contents succeeds, and then leaves the buffer holding that view. |
| `ReadSide.RenderPage` | app.py:103-109 | Copying the fetched records into a buffer and preparing them there gives `PageView` of the fetched records. |
| `ReadSide.ReorderedPageOfRecorded` | app.py:103-109 | Any reordering of records the webhook wrote, the newest-first answer among them, is rendered without an exception. |
| `ReadSide.ForPageIdempotent` | app.py:106-109 | Preparing a prepared record changes nothing. |
| `ReadSide.PageViewOfRecorded` | app.py:109 | Records the webhook wrote never make `index` raise, and keep their fields, action included. |
| `ReadSide.StringifyIds` | app.py:198-199 | The loop of `get_events` leaves each record with its `_id` as text and nothing else changed. |
| `ReadSide.ApiView` | app.py:197-199 | The records `get_events` returns are the fetched ones, in order, each with its `_id` as text. |
| `ReadSide.ForApi` | app.py:199 | Definition, no contract: the record with its `_id` as text; `ForApiKeepsIds` states its properties. |
| `ReadSide.ForApiKeepsIds` | app.py:199 | Stringified distinct ObjectIds stay distinct, and stringifying twice is stringifying once. |
| `Json.Get` | app.py:141 | `d.get(k, default)` succeeds iff `d` is an object. It then gives the value under `k`, or `default` when `k` is absent. Otherwise it raises AttributeError. |
| `Json.Truthy` | app.py:109 | Definition, no contract: Python's `bool()` on a JSON value. |
| `Json.PyStr` | app.py:171 | Python's `str()` on a JSON value, the text of a list or dict supplied as `repr`. |
| `Json.PyStrOfNum` | app.py:171 | `str` of a number is never `None`, `True` or `False`, and distinct numbers print differently. |
| `Text.Lower` | app.py:109 | Same length, every upper-case ASCII letter replaced by its lower-case letter, every other character kept. |
| `Text.LowerIdempotent` | app.py:109 | Lower-casing twice is lower-casing once. |
| `Text.LowerOfLower` | app.py:109 | Text without an upper-case letter is unchanged by lower-casing. |
| `Text.Less` | app.py:87 | Definition, no contract: code-point-wise string order, a proper prefix first, as `$lt` and the timestamp sort compare text. |
| `Text.LessIrreflexive` | app.py:87 | No text is less than itself. |
| `Text.LessTransitive` | app.py:87 | String `<` is transitive. |
| `Text.LessTotal` | app.py:103 | Two texts are equal or one is less than the other. |
| `Text.LessDecidedAt` | app.py:87 | Texts equal up to a position are ordered by their characters there. |
| `Text.LessAsymmetric` | app.py:87 | `a < b` excludes `b < a`. |
| `Text.NotLessTransitive` | app.py:103 | "Not less than" is transitive. |
| `Text.RemoveAll` | app.py:153 | `str.replace(p, '')` never lengthens its input. |
| `Text.RemoveAllAbsent` | app.py:153 | Text with no occurrence of the pattern is unchanged. |
| `Text.RemoveAllLeading` | app.py:153 | A leading occurrence is removed and the rest is scanned on. |
| `Text.RemoveAllAfter` | app.py:153 | An occurrence after a stretch in which none starts is deleted too, so every `refs/heads/` goes, not only a leading one. |
| `Normalizer.NestedHeadsRemoved` | app.py:153 | `refs/heads/a/refs/heads/b` becomes `a/b`. |
| `Text.RemoveAllPrefixOnly` | app.py:153 | `refs/heads/<name>` becomes `<name>` when the name holds no `refs/heads/`. |
| `Text.NatText` | app.py:163 | `str` of a natural number is a non-empty string of digits with no leading zero. |
| `Text.IntText` | app.py:163 | `str(n)` starts with a digit iff `n` is not negative. |
| `Text.NatTextRoundTrip` | app.py:163 | Reading the digits back gives the number. |
| `Text.NatTextInjective` | app.py:171 | Distinct naturals have distinct decimal texts. |
| `Text.IntTextInjective` | app.py:171 | Distinct ints have distinct `str`. |
| `Text.Hex` | app.py:67 | `hexdigest()` gives two lower-case hex digits per byte. |
| `Text.HexRoundTrip` | app.py:67 | Reading the hex back gives the bytes. |
| `Text.HexInjective` | app.py:107 | Distinct byte strings have distinct hex text. |
| `Text.HexIsAscii` | app.py:69 | Hex text is ASCII, so `compare_digest` never refuses the expected signature. |

## Left out

- Flask routing, `request`, `jsonify` and `render_template` (app.py:90-113, 187-205) are left out. The routes are the methods of `EventStore`. A page is a `Result` of records; the JSON reply is a `Reply`.
- The MongoDB driver is left out. The collection is a sequence of documents. Connection failures and failed inserts or queries, which the source answers with 500 or an error page, are not modelled.
- The HMAC-SHA1 computation is the parameter `mac`. The timing guarantee of `hmac.compare_digest` is not a functional property and is not modelled.
- `get_current_time`, pytz and `datetime.now` (app.py:71-79, 85) are left out. The current time text and the purge cutoff text are parameters.
- Environment and dotenv configuration (app.py:26-37) are left out. The secret is a parameter.
- The ObjectId generated on insertion is the parameter `oid`. Its uniqueness is the store's concern and is not assumed.
- Python's text for `str()` of a JSON list or object is the parameter `repr`.
- JSON numbers are integers. Floats, and their `str` and truthiness, are not modelled.
- Text.Lower: lower-cases the ASCII letters only; Python's Unicode case mapping of other letters is not modelled.
- Concurrency is not modelled. Flask serves requests on threads (app.py:205), and `index` and `get_events` make two store calls, `delete_many` and then `find`, between which an insertion or another purge can land. Each route here is one atomic step on the collection, so the contracts of `EventStore.Index` and `EventStore.GetEvents` describe requests that do not overlap.
- The text of the error in a 500 reply (`str(e)`) is not modelled; only the kind of exception is kept.
- The sort order among records with equal timestamps is unspecified by the store; `ReadSide.SortNewestFirst` fixes one.
- Every document is assumed to have a text `timestamp`, since the only writer always sets one. MongoDB's cross-type comparison and sort order for other values is not modelled.
- Whether Flask raises or returns `None` for a body that is not JSON depends on the Flask version. The model treats it as raising, which gives a 500.
- The human-readable message formatter and the `pusher.name` author fallback are not in app.py; they are not part of this model.
