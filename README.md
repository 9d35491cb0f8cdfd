# sqs-fanout: the dependency manager and the resource descriptors, in Dafny

Before an SNS message is published, sqs-fanout makes sure that the message's
dependencies exist: some SNS topics, some SQS queues and some subscriptions
from a topic to a queue. This project models the two parts of the library
that do that work.

- **Descriptors** (`resources.dfy`, module `Resources`). The class hierarchy
  `Resource` / `SNSResource` / `SQSResource` / `TopicSubscriptionResource`
  becomes one closed datatype `Resource`. `Blank` stands for the base class.
  The module holds each descriptor's canonical key (its `toString`) and
  `generateARN`. It also models `ensureAndCreate`. `EnsureAndCreate` is a
  method that builds the attribute map step by step and then records the
  client calls it makes, in order: `GetAccountID`, `CreateTopic`,
  `CreateQueue` and `Subscribe`. `Ensure` is the function that specifies it.
  The queue access policy is a `PolicyDocument` record, not JSON text. A
  filter policy is kept as its already-serialised JSON text.
- **Dependency manager** (`dependency_manager.dfy`, module `Dependencies`).
  The class `DependencyManager` keeps the source's three records
  (`dependencyProcessing`, `dependencySatisfactionPromises`,
  `dependencySatisfiedCache`) as maps. `Request` is
  `satisfySNSPublishDependencies` up to its return. It derives or takes the
  identifier, then answers from the cache, joins the run in flight, or starts
  a fresh run. `Finish` is one call of `satisfyDependencies` from start to
  end. It runs every resource's creation in list order. If the run returns,
  `Finish` resolves every waiting promise, empties the list and caches the
  identifier. A `DeferredPromise` is a token (`Handle`). A ghost set
  `resolved` records the tokens that have been resolved.

Proved about the manager:

- Single flight is an invariant. A ghost log `started` of the identifiers
  whose runs were started never repeats an identifier. It holds exactly the
  keys of `dependencyProcessing`, and no code path removes a key from that
  record.
- Each waiting token was handed out, is unresolved and waits in one list only.
- A successful `Finish` resolves exactly the tokens waiting at that moment.

The outside world is an input `Provider`. It gives the account ID that
`getAccountID` returns (`None` means the lookup throws) and the set of SDK
requests that throw.

**After a failure the code never settles the waiters.** An exception in
`ensureAndCreate` skips `src/DependencyManager.ts:68-76`. Nothing rejects the
waiting promises, the identifier is never cached, and
`dependencyProcessing[id]` stays `true`. If the host survives the unhandled
rejection of the run (see "## Left out"), every later request for that
identifier only adds another promise that never settles. The model follows the
code: `Finish` ensures `Failed(id)`, and `Request` keeps a failed identifier
failed.

**Canonical keys are not injective.** The queue key leaves out the policy
type. A `.` inside a name can make two different topics share a key
(`DottedTopicNamesCollide`). With dot-free names, a topic key determines the
topic (`TopicKeyInjective`) and a queue key determines the queue's name and
region (`QueueKeyIgnoresPolicy`). Subscription keys collide even with dot-free
names, through a ',' in a queue's region or in the filter policy's text
(`SubscriptionKeysCollide`). Keys of different variants never clash
(`KeysSeparateVariants`).

## Model

| member | source | states |
|---|---|---|
| `Resources.GenerateARN` | src/Resources.ts:4-6 | The ARN is "arn:aws:", the three-letter service name, then region, account ID and resource name, each after a ':'; its length is 14 plus theirs. |
| `Resources.ARNInjective` | src/Resources.ts:4-6 | An ARN determines its service, region, account ID and resource name, provided the region and account contain no ':'. |
| `Resources.TopicKey` | src/Resources.ts:33-35 | A topic key is "sns." followed by the topic name, '.', and the region. |
| `Resources.QueueKey` | src/Resources.ts:60-62 | A queue key is "sqs." followed by the queue name, '.', and the region; the policy type takes no part. |
| `Resources.FilterText` | src/Resources.ts:112 | The filter policy's text in a subscription key: a given policy is kept as its own text, a null policy reads "null". |
| `Resources.Key` | src/Resources.ts:13-15 | The key of every descriptor starts with three characters that name its variant: "Bla", "sns", "sqs" or "sub". |
| `Resources.KeysSeparateVariants` | src/Resources.ts:13-113 | Two descriptors with the same key are the same variant. Topic keys start "sns", queue keys "sqs", subscription keys "sub" and the blank key "Bla". |
| `Resources.TopicKeyInjective` | src/Resources.ts:33-35 | If topic names contain no '.', two topics have the same key exactly when they have the same name and region. |
| `Resources.QueueKeyIgnoresPolicy` | src/Resources.ts:60-62 | If queue names contain no '.', two queues have the same key exactly when they have the same name and region. The policy type has no effect. |
| `Resources.DottedTopicNamesCollide` | src/Resources.ts:33-35 | Two different topics, ("a.b", "c") and ("a", "b.c"), have the same key. |
| `Resources.SubscriptionKeysCollide` | src/Resources.ts:111-113 | For every topic, queue name, region and filter text, a queue whose region ends in "," plus the topic key, with that filter, and the queue without that suffix, with the topic key and "," put in front of the filter, give two different subscriptions with one key. |
| `Resources.EnsureAndCreate` | src/Resources.ts:17-133 | The imperative recipe builds its attributes, makes its calls and reports success exactly as `Ensure`, the specification function, says. |
| `Resources.BlankFails` | src/Resources.ts:17-19 | Creating the base resource always fails and calls nothing. |
| `Resources.TopicCreation` | src/Resources.ts:37-44 | Creating a topic makes exactly one call, `CreateTopic`, with the topic's name. It succeeds exactly when that call does. |
| `Resources.QueueWithoutPolicy` | src/Resources.ts:64-94 | Creating a 'none' queue makes no account lookup and exactly one `CreateQueue`, with the queue's name and empty attributes. |
| `Resources.QueueWithPolicy` | src/Resources.ts:68-94 | Creating an 'all-sns' queue looks the account up exactly once, first. If the lookup fails, nothing else is called. Otherwise one `CreateQueue` follows, with `Policy` as its only attribute. The policy's one statement allows "SQS:*" with Effect "Allow" for principal AWS "arn:aws:iam::<acct>:root" and Service "sns.amazonaws.com", on resource `GenerateARN(Sqs, region, acct, queueName)`. |
| `Resources.SubscriptionCreation` | src/Resources.ts:115-133 | Creating a subscription looks the account up exactly once, first. Then one `Subscribe` follows: TopicArn is the topic's ARN, Endpoint is the queue's ARN (each from its own region and name under that account), and Protocol is "sqs". `FilterPolicy` is present exactly when a filter policy is given, with that policy's text. |
| `Dependencies.DeriveIdentifier` | src/DependencyManager.ts:26-33 | The loop builds `Identifier(rs)`: every key followed by "_", in list order. An empty list gives "". |
| `Dependencies.IdentifierAppend` | src/DependencyManager.ts:30-32 | Adding a resource at the end of the list adds its key and "_" at the end of the identifier. |
| `Dependencies.IdentifierOrderSensitive` | src/DependencyManager.ts:29-32 | Two lists with the same identifier start with descriptors of the same variant, whatever characters the keys hold. |
| `Dependencies.IdentifierDeterminesKeys` | src/DependencyManager.ts:29-32 | When no key contains '_', two lists with the same identifier have the same length and the same key at every position, so any reorder that changes a position's key changes the identifier. |
| `Dependencies.SwappedTopicAndQueueNotCoalesced` | src/DependencyManager.ts:29-32 | Swapping a leading topic and queue changes the identifier, so the two requests are not coalesced. |
| `Dependencies.OrdersIdentifier` | src/DependencyManager.ts:29-32 | An unfolding example: the list [topic, queue, subscription] for "orders" is keyed as topic key, queue key and subscription key, each followed by "_". The subscription key lists the queue before the topic and renders a null filter policy as "null". The literal identifier string is not stated. |
| `Dependencies.RunCreation` | src/DependencyManager.ts:62-66 | The sequential loop's calls and outcome are exactly `Creation(rs, p)`. |
| `Dependencies.CreationSucceeds` | src/DependencyManager.ts:64-66 | A run succeeds exactly when every resource's creation succeeds. In that case it made every resource's calls in list order. |
| `Dependencies.CreationFailsFast` | src/DependencyManager.ts:64-66 | Suppose resource k is the first whose creation fails. Then the run fails after making the calls of resources 0..k, and no calls of any later resource. |
| `Dependencies.OrdersCreation` | src/DependencyManager.ts:62-66 | For "orders" against account "123" with every call accepted, the run makes these calls in order: CreateTopic, lookup, CreateQueue with the policy, lookup, Subscribe with the two ARNs. |
| `Dependencies.DependencyManager.constructor` | src/DependencyManager.ts:10-19 | A new manager has empty records, nothing running, nothing resolved and nothing started. |
| `Dependencies.DependencyManager.Request` | src/DependencyManager.ts:21-60 | See "Request" below the table. |
| `Dependencies.DependencyManager.Finish` | src/DependencyManager.ts:62-77 | See "Finish" below the table. |
| `Dependencies.CoalescedRequests` | src/DependencyManager.ts:21-76 | A fresh manager gets several requests filed under one identifier before any run finishes. See "CoalescedRequests" below the table. |
| `Dependencies.Decide` | src/DependencyManager.ts:35-45 | The decision the class uses, with own-key membership: a cache hit exactly when the cache holds the identifier; joining exactly when it is not cached but processing; a fresh run exactly when it is neither. |
| `Dependencies.DecideAsWritten` | src/DependencyManager.ts:35-45 | The decision as the code evaluates it: a cache hit exactly when the cache holds the identifier or it names an Object.prototype member; joining exactly when neither holds and it is processing; a fresh run otherwise. |
| `Dependencies.PrototypeIdentifierHitsEmptyCache` | src/DependencyManager.ts:35 | As written, with JavaScript's `in`, a new manager reports the explicit identifier "toString" as already satisfied. |
| `Dependencies.EmptyManagerStartsFresh` | src/DependencyManager.ts:35-45 | With own-key membership, a new manager starts a fresh run for every identifier. |
| `Dependencies.DecideAgreesOnDerivedIdentifiers` | src/DependencyManager.ts:26-38 | For a derived identifier, the as-written decision equals the own-key decision, so only explicit identifiers hit the prototype problem. |
| `Dependencies.DerivedIdentifierNotPrototypeKey` | src/DependencyManager.ts:29-32 | A derived identifier is never the name of an Object.prototype member. |
| `Dependencies.StartKeepsSingleFlight` | src/DependencyManager.ts:45-55 | Starting a run for an identifier that is not yet processing keeps the started-run log free of repeats. The log stays equal to the processed identifiers. |

The contracts of `Request`, `Finish` and `CoalescedRequests` are too long for
the table:

- **Request.** The identifier is the explicit one if given, else
  `Identifier(dependencies)`. `getDependencies` is called at most once. With
  an explicit identifier it is called only when a fresh run starts.
  - Cache hit: the result is `Resolved` and no field changes.
  - In flight: exactly one fresh token is appended to the end of that
    identifier's list, and nothing else changes.
  - Fresh: `processing[id]` becomes true, the list becomes `[token]` and one
    run starts on this request's list.
  - No token is resolved. A failed identifier stays failed.
- **Finish.** The calls and outcome are those of `Creation`, run on the list
  the first request gave.
  - On success: exactly the tokens waiting at that moment are resolved
    (including those added after the run began), the list becomes `[]`, and
    `cache[id]` becomes true.
  - On failure: no token is resolved, the list and the cache do not change,
    and the identifier is left failed.
  - In both cases `processing` does not change. Only this identifier's
    entries change.
- **CoalescedRequests.** Exactly one run starts, on the first request's list.
  Later requests call `getDependencies` only when they carry no explicit
  identifier. Every request gets a distinct token. When the run succeeds, the
  resolved tokens are exactly the tokens of all the requests; when it fails,
  no token is resolved.

## Findings

| source | as written | input that shows it | evidently intended | confidence | as-written member | corrected member |
|---|---|---|---|---|---|---|
| src/DependencyManager.ts:35 | `dependencyIdentifier in this.dependencySatisfiedCache` on a `{}` literal is also true for inherited Object.prototype names | an explicit `dependencyIdentifier` of "toString" (or "constructor", "valueOf", …) on a new manager: the request resolves at once and nothing is ever created | only identifiers whose run succeeded count as satisfied | not executed; follows from JavaScript's `in` semantics | `Dependencies.PrototypeIdentifierHitsEmptyCache` | `Dependencies.EmptyManagerStartsFresh` |

The class `DependencyManager` uses the corrected decision, `Decide`, which
tests only keys the record itself holds. `DecideAsWritten` is the code's
decision. `DecideAgreesOnDerivedIdentifiers` shows that the two differ only
for explicit identifiers.

## Left out

- Real asynchrony and scheduling. `Request` and `Finish` are atomic steps.
  `Finish` runs a whole creation run in one step. The run reads and writes no
  manager state, so a request that arrives during the run's awaits is modelled
  as arriving before `Finish`. Calls from runs for different identifiers are
  not interleaved into one global trace. Each `Finish` returns the trace of
  its own run.
- The rejected promise of a failed run. `src/DependencyManager.ts:55` neither
  awaits nor catches the promise that `satisfyDependencies` returns, so a
  throw at line 65 becomes an unhandled rejection, which ends a Node.js
  process by default. `Failed(id)`, an identifier stuck in processing,
  describes a host on which unhandled rejections are not fatal.
- `Request` on an empty resource list: `satisfyDependencies` with no resource
  reaches no `await`, so in the code lines 69-76 run inside the call at line
  55 and the identifier is cached before `Request` returns. The model keeps
  the identifier running until a separate `Finish`, so it also allows a
  request that joins in flight, which the code never reaches. Everything
  proved holds for this larger set of behaviours.
- src/Client.ts is not part of this model: `publish`, and the STS call behind
  `getAccountID`. The account ID is an oracle value in `Provider`, the same on
  every lookup. An STS lookup that fails and then succeeds on a retry is not
  modelled.
- src/DeferredPromise.ts: a promise is a token. The code never calls `reject`,
  so rejection is not modelled.
- Exceptions carry no message or value here: a failed run is only `ok ==
  false`.
- `JSON.stringify`. The queue policy is a record. The filter policy is its
  serialised text, and a null policy renders as "null". An `undefined` filter
  policy, which would print as "undefined" in the key, is not modelled.
- The `console.log` and `console.error` calls.
- Idempotency of the AWS services. It is assumed, and the calls are
  uninterpreted events.
