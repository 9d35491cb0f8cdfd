/** Resource descriptors (a topic, a queue, a subscription binding), their
    canonical keys, the ARN builder, and the creation recipe of each
    descriptor written as a trace of provider calls. */
module Resources {
  import opened Wrappers

  // ---------------------------------------------------------------------------
  // ARNs
  // ---------------------------------------------------------------------------

  /** The two services an ARN can name. */
  datatype Service = Sqs | Sns {
    function Name(): (s: string)
      ensures |s| == 3
    {
      match this
      case Sqs => "sqs"
      case Sns => "sns"
    }
  }

  /** generateARN: "arn:aws:", the service, then region, account and
      resource name, each after a ':'. */
  function GenerateARN(service: Service, region: string, accountID: string, resourceName: string): (arn: string)
    ensures |arn| == 14 + |region| + |accountID| + |resourceName|
    ensures arn[..8] == "arn:aws:" && arn[8..11] == service.Name() && arn[11] == ':'
    ensures arn[12..] == region + [':'] + (accountID + [':'] + resourceName)
  {
    "arn:aws:" + service.Name() + ":" + region + ":" + accountID + ":" + resourceName
  }

  /** Two strings joined by a separator that the left parts never contain
      split back into the same parts. */
  lemma SeparatorSplit(a: string, b: string, c: string, d: string, sep: char)
    requires sep !in a && sep !in c
    requires a + [sep] + b == c + [sep] + d
    ensures a == c && b == d
  {
    var s := a + [sep] + b;
    FirstSeparator(a, b, sep);
    FirstSeparator(c, d, sep);
    assert |a| == |c|;
    assert a == s[..|a|];
    assert c == (c + [sep] + d)[..|c|];
    assert b == s[|a| + 1..];
    assert d == (c + [sep] + d)[|c| + 1..];
  }

  /** In a + [sep] + b, the first sep sits at index |a|. */
  lemma FirstSeparator(a: string, b: string, sep: char)
    requires sep !in a
    ensures (a + [sep] + b)[|a|] == sep
    ensures forall i :: 0 <= i < |a| ==> (a + [sep] + b)[i] != sep
  {
    forall i | 0 <= i < |a| ensures (a + [sep] + b)[i] != sep {
      assert (a + [sep] + b)[i] == a[i];
    }
  }

  /** An ARN determines its service, region, account and resource name,
      provided region and account contain no ':' (the resource name may). */
  lemma ARNInjective(s1: Service, r1: string, a1: string, n1: string,
                     s2: Service, r2: string, a2: string, n2: string)
    requires ':' !in r1 && ':' !in a1 && ':' !in r2 && ':' !in a2
    requires GenerateARN(s1, r1, a1, n1) == GenerateARN(s2, r2, a2, n2)
    ensures s1 == s2 && r1 == r2 && a1 == a2 && n1 == n2
  {
    var x1, x2 := GenerateARN(s1, r1, a1, n1), GenerateARN(s2, r2, a2, n2);
    var t1 := r1 + [':'] + (a1 + [':'] + n1);
    var t2 := r2 + [':'] + (a2 + [':'] + n2);
    assert x1 == "arn:aws:" + s1.Name() + ":" + t1;
    assert x2 == "arn:aws:" + s2.Name() + ":" + t2;
    assert x1[8..11] == s1.Name() && x2[8..11] == s2.Name();
    assert t1 == x1[12..] && t2 == x2[12..];
    SeparatorSplit(r1, a1 + [':'] + n1, r2, a2 + [':'] + n2, ':');
    SeparatorSplit(a1, n1, a2, n2, ':');
  }

  // ---------------------------------------------------------------------------
  // Descriptors and canonical keys
  // ---------------------------------------------------------------------------

  /** The queue policy choice: 'none' or 'all-sns'. */
  datatype PolicyType = NoPolicy | AllSns

  /** SNSResource */
  datatype Topic = Topic(topicName: string, region: string)

  /** SQSResource */
  datatype Queue = Queue(queueName: string, region: string, policyType: PolicyType)

  /** The closed set of descriptors. `Blank` is the base class `Resource`,
      which has no creation behaviour. A subscription's filter policy is kept
      as its serialised JSON text; `None` is a null filter policy. */
  datatype Resource =
    | Blank
    | SNS(topic: Topic)
    | SQS(queue: Queue)
    | Subscription(sns: Topic, sqs: Queue, filterPolicy: Option<string>)

  /** SNSResource's toString: "sns." + name + "." + region. */
  function TopicKey(t: Topic): (k: string)
    ensures |k| >= 4 && k[..4] == "sns." && k[4..] == t.topicName + ['.'] + t.region
  {
    "sns." + t.topicName + "." + t.region
  }

  /** SQSResource's toString: "sqs." + name + "." + region; the policy type
      takes no part. */
  function QueueKey(q: Queue): (k: string)
    ensures |k| >= 4 && k[..4] == "sqs." && k[4..] == q.queueName + ['.'] + q.region
  {
    "sqs." + q.queueName + "." + q.region
  }

  /** The serialised filter policy: a given policy is kept as its own text,
      a null policy serialises as "null". */
  function FilterText(filterPolicy: Option<string>): (text: string)
    ensures filterPolicy.Some? ==> text == filterPolicy.value
    ensures filterPolicy.None? ==> text == "null"
  {
    match filterPolicy
    case None => "null"
    case Some(json) => json
  }

  /** The first three characters of a key name its variant. */
  function KeyTag(r: Resource): (tag: string)
  {
    match r
    case Blank => "Bla"
    case SNS(_) => "sns"
    case SQS(_) => "sqs"
    case Subscription(_, _, _) => "sub"
  }

  /** The canonical key of a descriptor (its toString). Its first three
      characters name the descriptor's variant. */
  function Key(r: Resource): (k: string)
    ensures |k| >= 3 && k[..3] == KeyTag(r)
  {
    match r
    case Blank => "Blank Resource"
    case SNS(t) =>
      LiteralPrefix(TopicKey(t)[..4], TopicKey(t)[4..]);
      TopicKey(t)
    case SQS(q) =>
      LiteralPrefix(QueueKey(q)[..4], QueueKey(q)[4..]);
      QueueKey(q)
    case Subscription(t, q, f) =>
      var body := QueueKey(q) + "," + TopicKey(t) + "," + FilterText(f) + "]";
      LiteralPrefix("subscription[", body);
      "subscription[" + body
  }

  lemma LiteralPrefix(lit: string, rest: string)
    requires |lit| >= 3
    ensures (lit + rest)[..3] == lit[..3]
  {
  }

  /** Descriptors of different variants never share a key. */
  lemma KeysSeparateVariants(r1: Resource, r2: Resource)
    requires Key(r1) == Key(r2)
    ensures r1.Blank? == r2.Blank? && r1.SNS? == r2.SNS? && r1.SQS? == r2.SQS?
    ensures r1.Subscription? == r2.Subscription?
  {
  }

  /** Without a '.' in the topic names, equal topic keys mean equal topics. */
  lemma TopicKeyInjective(t1: Topic, t2: Topic)
    requires '.' !in t1.topicName && '.' !in t2.topicName
    ensures TopicKey(t1) == TopicKey(t2) <==> t1 == t2
  {
    if TopicKey(t1) == TopicKey(t2) {
      SeparatorSplit(t1.topicName, t1.region, t2.topicName, t2.region, '.');
    }
  }

  /** Without a '.' in the queue names, queue keys are equal exactly when
      name and region are: the policy type never enters the key. */
  lemma QueueKeyIgnoresPolicy(q1: Queue, q2: Queue)
    requires '.' !in q1.queueName && '.' !in q2.queueName
    ensures QueueKey(q1) == QueueKey(q2) <==> q1.queueName == q2.queueName && q1.region == q2.region
  {
    if QueueKey(q1) == QueueKey(q2) {
      SeparatorSplit(q1.queueName, q1.region, q2.queueName, q2.region, '.');
    }
  }

  /** Keys are not injective once a name contains a '.': these two distinct
      topics share the key "sns.a.b.c". */
  lemma DottedTopicNamesCollide()
    ensures Topic("a.b", "c") != Topic("a", "b.c")
    ensures TopicKey(Topic("a.b", "c")) == TopicKey(Topic("a", "b.c"))
  {
  }

  /** Subscription keys collide even without a '.' in any name: a ',' lets the
      topic's key move from the end of the queue's region to the start of the
      filter policy's text. */
  lemma SubscriptionKeysCollide(t: Topic, queueName: string, region: string, policyType: PolicyType, filter: string)
    ensures var q1, q2 := Queue(queueName, region + "," + TopicKey(t), policyType), Queue(queueName, region, policyType);
      && Subscription(t, q1, Some(filter)) != Subscription(t, q2, Some(TopicKey(t) + "," + filter))
      && Key(Subscription(t, q1, Some(filter))) == Key(Subscription(t, q2, Some(TopicKey(t) + "," + filter)))
  {
    var q1, q2 := Queue(queueName, region + "," + TopicKey(t), policyType), Queue(queueName, region, policyType);
    assert |q1.region| > |q2.region|;
    assert QueueKey(q1) == QueueKey(q2) + "," + TopicKey(t);
  }

  // ---------------------------------------------------------------------------
  // Creation recipes as traces of provider calls
  // ---------------------------------------------------------------------------

  /** One statement of an access-policy document. */
  datatype Statement = Statement(
    sid: string,
    effect: string,
    principalAWS: string,
    principalService: string,
    action: string,
    resource: string)

  /** An access-policy document, kept as a record rather than JSON text. */
  datatype PolicyDocument = PolicyDocument(version: string, id: string, statement: seq<Statement>)

  /** A call into the client: the memoised account lookup or one SDK request. */
  datatype Effect =
    | GetAccountID
    | CreateTopic(name: string)
    | CreateQueue(queueName: string, queueAttributes: map<string, PolicyDocument>)
    | Subscribe(topicArn: string, protocol: string, endpoint: string, subscriptionAttributes: map<string, string>)

  /** What the outside world answers: the account ID that getAccountID
      returns (None: it throws), and the SDK requests that throw. */
  datatype Provider = Provider(accountID: Option<string>, rejects: set<Effect>)

  /** The calls made, in order, and whether the whole step returned normally. */
  datatype Attempt = Attempt(effects: seq<Effect>, ok: bool)

  /** The policy an 'all-sns' queue is created with: the SNS service and the
      account root may do anything to this queue. */
  function QueuePolicy(region: string, accountID: string, queueName: string): (doc: PolicyDocument)
  {
    PolicyDocument("2012-10-17", "Policy1645582105705", [
      Statement("Stmt1645582011402", "Allow", "arn:aws:iam::" + accountID + ":root",
                "sns.amazonaws.com", "SQS:*", GenerateARN(Sqs, region, accountID, queueName))])
  }

  /** The attributes a subscription is created with. */
  function SubscriptionAttributes(filterPolicy: Option<string>): (attributes: map<string, string>)
  {
    match filterPolicy
    case None => map[]
    case Some(json) => map["FilterPolicy" := json]
  }

  /** The Subscribe request for a subscription under a resolved account. */
  function SubscribeCall(t: Topic, q: Queue, f: Option<string>, accountID: string): (request: Effect)
  {
    Subscribe(GenerateARN(Sns, t.region, accountID, t.topicName), "sqs",
              GenerateARN(Sqs, q.region, accountID, q.queueName), SubscriptionAttributes(f))
  }

  /** An awaited SDK request: recorded, then it returns or throws. */
  function Call(e: Effect, p: Provider): (a: Attempt)
  {
    Attempt([e], e !in p.rejects)
  }

  /** What ensureAndCreate of a descriptor does against a provider. */
  function Ensure(r: Resource, p: Provider): (a: Attempt)
  {
    match r
    case Blank => Attempt([], false)
    case SNS(t) => Call(CreateTopic(t.topicName), p)
    case SQS(q) =>
      if q.policyType == NoPolicy then Call(CreateQueue(q.queueName, map[]), p)
      else if p.accountID.None? then Attempt([GetAccountID], false)
      else
        var c := CreateQueue(q.queueName, map["Policy" := QueuePolicy(q.region, p.accountID.value, q.queueName)]);
        Attempt([GetAccountID, c], c !in p.rejects)
    case Subscription(t, q, f) =>
      if p.accountID.None? then Attempt([GetAccountID], false)
      else
        var c := SubscribeCall(t, q, f, p.accountID.value);
        Attempt([GetAccountID, c], c !in p.rejects)
  }

  /** ensureAndCreate: builds the attribute map step by step, then issues the
      awaited calls in order. */
  method EnsureAndCreate(r: Resource, p: Provider) returns (effects: seq<Effect>, ok: bool)
    ensures Attempt(effects, ok) == Ensure(r, p)
  {
    effects := [];
    match r
    case Blank =>
      // the base class throws before any call
      ok := false;
    case SNS(t) =>
      var request := CreateTopic(t.topicName);
      effects := effects + [request];
      ok := request !in p.rejects;
    case SQS(q) =>
      var attributes: map<string, PolicyDocument> := map[];
      ok := true;
      if q.policyType == AllSns {
        effects := effects + [GetAccountID];
        match p.accountID
        case None =>
          ok := false;
        case Some(accountID) =>
          attributes := attributes["Policy" := QueuePolicy(q.region, accountID, q.queueName)];
      }
      if ok {
        var request := CreateQueue(q.queueName, attributes);
        effects := effects + [request];
        ok := request !in p.rejects;
      }
    case Subscription(t, q, f) =>
      var attributes: map<string, string> := map[];
      if f.Some? {
        attributes := attributes["FilterPolicy" := f.value];
      }
      effects := effects + [GetAccountID];
      match p.accountID
      case None =>
        ok := false;
      case Some(accountID) =>
        var topicArn := GenerateARN(Sns, t.region, accountID, t.topicName);
        var queueArn := GenerateARN(Sqs, q.region, accountID, q.queueName);
        var request := Subscribe(topicArn, "sqs", queueArn, attributes);
        effects := effects + [request];
        ok := request !in p.rejects;
  }

  // ---------------------------------------------------------------------------
  // What each recipe promises
  // ---------------------------------------------------------------------------

  /** The number of account lookups in a trace. */
  function Lookups(effects: seq<Effect>): (n: nat)
  {
    if effects == [] then 0
    else (if effects[0] == GetAccountID then 1 else 0) + Lookups(effects[1..])
  }

  /** The base descriptor always fails and makes no call at all. */
  lemma BlankFails(p: Provider)
    ensures Ensure(Blank, p) == Attempt([], false)
  {
  }

  /** A topic is created by exactly one CreateTopic under its own name, and
      nothing else is asked of the client. */
  lemma TopicCreation(t: Topic, p: Provider)
    ensures Ensure(SNS(t), p).effects == [CreateTopic(t.topicName)]
    ensures Ensure(SNS(t), p).ok <==> CreateTopic(t.topicName) !in p.rejects
  {
  }

  /** A 'none' queue needs no account lookup and is created with no attributes. */
  lemma QueueWithoutPolicy(q: Queue, p: Provider)
    requires q.policyType == NoPolicy
    ensures Ensure(SQS(q), p).effects == [CreateQueue(q.queueName, map[])]
    ensures Lookups(Ensure(SQS(q), p).effects) == 0
  {
  }

  /** A lookup followed by one request, or a lookup alone, holds one lookup. */
  lemma OneLookup(c: Effect)
    requires !c.GetAccountID?
    ensures Lookups([GetAccountID]) == 1 && Lookups([GetAccountID, c]) == 1
  {
    assert [GetAccountID][1..] == [];
    assert [GetAccountID, c][1..] == [c];
    assert [c][1..] == [];
  }

  /** An 'all-sns' queue looks the account up once, then is created with the
      single attribute Policy: one statement allowing the SNS service and the
      account root every SQS action on this very queue. */
  lemma QueueWithPolicy(q: Queue, p: Provider)
    requires q.policyType == AllSns
    ensures Ensure(SQS(q), p).effects[0] == GetAccountID
    ensures Lookups(Ensure(SQS(q), p).effects) == 1
    ensures p.accountID.None? ==> Ensure(SQS(q), p) == Attempt([GetAccountID], false)
    ensures p.accountID.Some? ==>
      var a, acct := Ensure(SQS(q), p), p.accountID.value;
      && |a.effects| == 2 && a.effects[1].CreateQueue?
      && a.effects[1].queueName == q.queueName
      && a.effects[1].queueAttributes.Keys == {"Policy"}
      && (a.ok <==> a.effects[1] !in p.rejects)
    ensures p.accountID.Some? ==>
      var doc, acct := Ensure(SQS(q), p).effects[1].queueAttributes["Policy"], p.accountID.value;
      && |doc.statement| == 1
      && doc.statement[0].resource == GenerateARN(Sqs, q.region, acct, q.queueName)
      && doc.statement[0].principalAWS == "arn:aws:iam::" + acct + ":root"
      && doc.statement[0].principalService == "sns.amazonaws.com"
      && doc.statement[0].action == "SQS:*"
      && doc.statement[0].effect == "Allow"
  {
    var a := Ensure(SQS(q), p);
    match p.accountID
    case None =>
      assert a == Attempt([GetAccountID], false);
      OneLookup(CreateTopic(""));
    case Some(acct) =>
      var c := CreateQueue(q.queueName, map["Policy" := QueuePolicy(q.region, acct, q.queueName)]);
      assert a == Attempt([GetAccountID, c], c !in p.rejects);
      OneLookup(c);
  }

  /** A subscription looks the account up exactly once, then subscribes the
      queue's ARN as an 'sqs' endpoint of the topic's ARN, both built from the
      descriptors' own regions and names under that one account; the
      FilterPolicy attribute is present exactly when a filter policy is. */
  lemma SubscriptionCreation(t: Topic, q: Queue, f: Option<string>, p: Provider)
    ensures Ensure(Subscription(t, q, f), p).effects[0] == GetAccountID
    ensures Lookups(Ensure(Subscription(t, q, f), p).effects) == 1
    ensures p.accountID.None? ==> Ensure(Subscription(t, q, f), p) == Attempt([GetAccountID], false)
    ensures p.accountID.Some? ==>
      var a, acct := Ensure(Subscription(t, q, f), p), p.accountID.value;
      && |a.effects| == 2 && a.effects[1].Subscribe?
      && a.effects[1].topicArn == GenerateARN(Sns, t.region, acct, t.topicName)
      && a.effects[1].endpoint == GenerateARN(Sqs, q.region, acct, q.queueName)
      && a.effects[1].protocol == "sqs"
      && (a.ok <==> a.effects[1] !in p.rejects)
    ensures p.accountID.Some? ==>
      var attributes := Ensure(Subscription(t, q, f), p).effects[1].subscriptionAttributes;
      && ("FilterPolicy" in attributes <==> f.Some?)
      && (f.Some? ==> attributes == map["FilterPolicy" := f.value])
      && (f.None? ==> attributes == map[])
  {
    var a := Ensure(Subscription(t, q, f), p);
    match p.accountID
    case None =>
      assert a == Attempt([GetAccountID], false);
      OneLookup(CreateTopic(""));
    case Some(acct) =>
      var c := SubscribeCall(t, q, f, acct);
      assert a == Attempt([GetAccountID, c], c !in p.rejects);
      OneLookup(c);
  }
}
