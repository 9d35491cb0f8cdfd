/** The dependency manager: it derives an identifier from a resource list,
    coalesces concurrent requests for one identifier onto a single creation
    run ("single flight"), runs the resources' creation recipes strictly in
    list order, and caches identifiers whose run succeeded. */
module Dependencies {
  import opened Wrappers
  import opened Resources

  // ---------------------------------------------------------------------------
  // Identifier derivation
  // ---------------------------------------------------------------------------

  /** The identifier of a resource list: every key followed by "_", in list order. */
  function Identifier(rs: seq<Resource>): (id: string)
    ensures id == "" <==> rs == []
  {
    if rs == [] then "" else Key(rs[0]) + "_" + Identifier(rs[1..])
  }

  lemma {:induction false} IdentifierAppend(rs: seq<Resource>, r: Resource)
    ensures Identifier(rs + [r]) == Identifier(rs) + Key(r) + "_"
  {
    if rs == [] {
      assert rs + [r] == [r];
      assert [r][1..] == [];
    } else {
      assert (rs + [r])[0] == rs[0];
      assert (rs + [r])[1..] == rs[1..] + [r];
      IdentifierAppend(rs[1..], r);
    }
  }

  /** The loop that accumulates the identifier in satisfySNSPublishDependencies. */
  method DeriveIdentifier(rs: seq<Resource>) returns (id: string)
    ensures id == Identifier(rs)
  {
    id := "";
    for i := 0 to |rs|
      invariant id == Identifier(rs[..i])
    {
      assert rs[..i + 1] == rs[..i] + [rs[i]];
      IdentifierAppend(rs[..i], rs[i]);
      id := id + Key(rs[i]) + "_";
    }
    assert rs[..|rs|] == rs;
  }

  /** A non-empty list's identifier starts with the tag of its first key. */
  lemma IdentifierStartsWithHeadTag(rs: seq<Resource>)
    requires rs != []
    ensures |Identifier(rs)| >= 3 && Identifier(rs)[..3] == KeyTag(rs[0])
  {
    LiteralPrefix(Key(rs[0]), "_" + Identifier(rs[1..]));
    assert Identifier(rs) == Key(rs[0]) + ("_" + Identifier(rs[1..]));
  }

  /** Derivation is order-sensitive: lists whose first descriptors are of
      different variants never share an identifier. */
  lemma IdentifierOrderSensitive(s: seq<Resource>, t: seq<Resource>)
    requires s != [] && t != []
    requires Identifier(s) == Identifier(t)
    ensures s[0].Blank? == t[0].Blank? && s[0].SNS? == t[0].SNS? && s[0].SQS? == t[0].SQS?
    ensures s[0].Subscription? == t[0].Subscription?
  {
    IdentifierStartsWithHeadTag(s);
    IdentifierStartsWithHeadTag(t);
  }

  /** More generally, when no key contains '_', the identifier determines the
      key of every position: lists filed under one identifier have the same
      length and, position by position, the same keys. */
  lemma {:induction false} IdentifierDeterminesKeys(s: seq<Resource>, t: seq<Resource>)
    requires forall i :: 0 <= i < |s| ==> '_' !in Key(s[i])
    requires forall i :: 0 <= i < |t| ==> '_' !in Key(t[i])
    requires Identifier(s) == Identifier(t)
    ensures |s| == |t|
    ensures forall i :: 0 <= i < |s| ==> Key(s[i]) == Key(t[i])
  {
    if s != [] && t != [] {
      assert Identifier(s) == Key(s[0]) + ['_'] + Identifier(s[1..]);
      assert Identifier(t) == Key(t[0]) + ['_'] + Identifier(t[1..]);
      SeparatorSplit(Key(s[0]), Identifier(s[1..]), Key(t[0]), Identifier(t[1..]), '_');
      assert forall i :: 0 <= i < |s| - 1 ==> s[1..][i] == s[i + 1];
      assert forall i :: 0 <= i < |t| - 1 ==> t[1..][i] == t[i + 1];
      IdentifierDeterminesKeys(s[1..], t[1..]);
      forall i | 0 <= i < |s| ensures Key(s[i]) == Key(t[i]) {
        if i > 0 {
          assert s[i] == s[1..][i - 1] && t[i] == t[1..][i - 1];
        }
      }
    }
  }

  /** Listing a topic and a queue in the other order gives another identifier,
      so the two requests are not coalesced. */
  lemma SwappedTopicAndQueueNotCoalesced(t: Topic, q: Queue, rest: seq<Resource>)
    ensures Identifier([SNS(t), SQS(q)] + rest) != Identifier([SQS(q), SNS(t)] + rest)
  {
    IdentifierStartsWithHeadTag([SNS(t), SQS(q)] + rest);
    IdentifierStartsWithHeadTag([SQS(q), SNS(t)] + rest);
  }

  // ---------------------------------------------------------------------------
  // The creation run of satisfyDependencies
  // ---------------------------------------------------------------------------

  /** Each resource's creation attempt, in list order. */
  function Attempts(rs: seq<Resource>, p: Provider): (steps: seq<Attempt>)
    ensures |steps| == |rs|
    ensures forall i :: 0 <= i < |rs| ==> steps[i] == Ensure(rs[i], p)
  {
    seq(|rs|, i requires 0 <= i < |rs| => Ensure(rs[i], p))
  }

  /** Running attempts one after the other, stopping at the first that throws. */
  function Run(steps: seq<Attempt>): (a: Attempt)
  {
    if steps == [] then Attempt([], true)
    else if !steps[0].ok then steps[0]
    else
      var rest := Run(steps[1..]);
      Attempt(steps[0].effects + rest.effects, rest.ok)
  }

  /** Every attempt's calls, in order, as if none threw. */
  function AllEffects(steps: seq<Attempt>): (effects: seq<Effect>)
  {
    if steps == [] then [] else steps[0].effects + AllEffects(steps[1..])
  }

  /** Creating a list: each resource in list order, stopping at the first that throws. */
  function Creation(rs: seq<Resource>, p: Provider): (a: Attempt)
  {
    Run(Attempts(rs, p))
  }

  lemma {:induction false} AllEffectsAppend(steps: seq<Attempt>, a: Attempt)
    ensures AllEffects(steps + [a]) == AllEffects(steps) + a.effects
  {
    if steps == [] {
      assert steps + [a] == [a];
      assert [a][1..] == [];
    } else {
      assert (steps + [a])[0] == steps[0];
      assert (steps + [a])[1..] == steps[1..] + [a];
      AllEffectsAppend(steps[1..], a);
    }
  }

  lemma {:induction false} RunSucceeds(steps: seq<Attempt>)
    ensures Run(steps).ok <==> (forall i :: 0 <= i < |steps| ==> steps[i].ok)
    ensures Run(steps).ok ==> Run(steps).effects == AllEffects(steps)
  {
    if steps != [] {
      RunSucceeds(steps[1..]);
      assert forall i :: 1 <= i < |steps| ==> steps[1..][i - 1] == steps[i];
    }
  }

  lemma {:induction false} RunFailsFast(steps: seq<Attempt>, k: nat)
    requires k < |steps|
    requires forall i :: 0 <= i < k ==> steps[i].ok
    requires !steps[k].ok
    ensures Run(steps) == Attempt(AllEffects(steps[..k]) + steps[k].effects, false)
  {
    if k == 0 {
      assert steps[..0] == [];
    } else {
      assert forall i :: 0 <= i < k - 1 ==> steps[1..][i] == steps[i + 1];
      RunFailsFast(steps[1..], k - 1);
      assert steps[..k][0] == steps[0];
      assert steps[..k][1..] == steps[1..][..k - 1];
    }
  }

  /** A run succeeds exactly when every resource's creation does, and then it
      made every resource's calls, resource after resource, in list order. */
  lemma CreationSucceeds(rs: seq<Resource>, p: Provider)
    ensures Creation(rs, p).ok <==> (forall i :: 0 <= i < |rs| ==> Ensure(rs[i], p).ok)
    ensures Creation(rs, p).ok ==> Creation(rs, p).effects == AllEffects(Attempts(rs, p))
  {
    RunSucceeds(Attempts(rs, p));
  }

  /** Fail-fast: when resource k is the first to throw, the run made the calls
      of resources 0..k and none of any resource after k. */
  lemma CreationFailsFast(rs: seq<Resource>, k: nat, p: Provider)
    requires k < |rs|
    requires forall i :: 0 <= i < k ==> Ensure(rs[i], p).ok
    requires !Ensure(rs[k], p).ok
    ensures Creation(rs, p) == Attempt(AllEffects(Attempts(rs[..k], p)) + Ensure(rs[k], p).effects, false)
  {
    var steps := Attempts(rs, p);
    RunFailsFast(steps, k);
    assert steps[..k] == Attempts(rs[..k], p);
  }

  /** The sequential loop of satisfyDependencies: await each ensureAndCreate in
      turn; the first throw ends the run. */
  method RunCreation(rs: seq<Resource>, p: Provider) returns (effects: seq<Effect>, ok: bool)
    ensures Attempt(effects, ok) == Creation(rs, p)
  {
    ghost var steps := Attempts(rs, p);
    effects, ok := [], true;
    var i := 0;
    while i < |rs| && ok
      invariant 0 <= i <= |rs|
      invariant ok ==> (forall j :: 0 <= j < i ==> steps[j].ok) && effects == AllEffects(steps[..i])
      invariant !ok ==> Attempt(effects, ok) == Run(steps)
    {
      var step, stepOk := EnsureAndCreate(rs[i], p);
      assert steps[..i + 1] == steps[..i] + [steps[i]];
      AllEffectsAppend(steps[..i], steps[i]);
      if !stepOk {
        RunFailsFast(steps, i);
      }
      effects, ok := effects + step, stepOk;
      i := i + 1;
    }
    if ok {
      assert steps[..i] == steps;
      RunSucceeds(steps);
    }
  }

  // ---------------------------------------------------------------------------
  // The coalescing decision
  // ---------------------------------------------------------------------------

  datatype Decision = CacheHit | JoinInFlight | StartFresh

  /** The three-way decision, asking only for keys the records themselves hold. */
  function Decide(cache: map<string, bool>, processing: map<string, bool>, id: string): (d: Decision)
    ensures d == CacheHit <==> id in cache
    ensures d == JoinInFlight <==> id !in cache && id in processing
    ensures d == StartFresh <==> id !in cache && id !in processing
  {
    if id in cache then CacheHit
    else if id in processing then JoinInFlight
    else StartFresh
  }

  /** The names a plain JavaScript object answers `true` for under the `in`
      operator without holding them: the members of Object.prototype. */
  const ObjectPrototypeKeys: set<string> := {
    "constructor", "hasOwnProperty", "isPrototypeOf", "propertyIsEnumerable",
    "toLocaleString", "toString", "valueOf", "__proto__", "__defineGetter__",
    "__defineSetter__", "__lookupGetter__", "__lookupSetter__"
  }

  /** `key in record` on a JavaScript object literal: own keys and inherited ones. */
  predicate InRecordAsWritten(record: map<string, bool>, key: string)
  {
    key in record || key in ObjectPrototypeKeys
  }

  /** The decision as the code evaluates it, with JavaScript's `in`. */
  function DecideAsWritten(cache: map<string, bool>, processing: map<string, bool>, id: string): (d: Decision)
    ensures d == CacheHit <==> id in cache || id in ObjectPrototypeKeys
    ensures d == JoinInFlight <==> id !in cache && id !in ObjectPrototypeKeys && id in processing
    ensures d == StartFresh <==> id !in cache && id !in processing && id !in ObjectPrototypeKeys
  {
    if InRecordAsWritten(cache, id) then CacheHit
    else if InRecordAsWritten(processing, id) then JoinInFlight
    else StartFresh
  }

  /** As written, a brand-new manager reports the explicit identifier
      "toString" as already satisfied, so nothing is ever created for it. */
  lemma PrototypeIdentifierHitsEmptyCache()
    ensures DecideAsWritten(map[], map[], "toString") == CacheHit
  {
  }

  /** With own-key membership, a brand-new manager starts a fresh run for
      every identifier. */
  lemma EmptyManagerStartsFresh(id: string)
    ensures Decide(map[], map[], id) == StartFresh
  {
  }

  /** A derived identifier is never an Object.prototype member: it is empty
      or starts with "Bla", "sns", "sqs" or "sub". */
  lemma DerivedIdentifierNotPrototypeKey(rs: seq<Resource>)
    ensures Identifier(rs) !in ObjectPrototypeKeys
  {
    if rs != [] {
      IdentifierStartsWithHeadTag(rs);
      var id := Identifier(rs);
      var tag := id[..3];
      assert tag in {"Bla", "sns", "sqs", "sub"};
      assert id != "constructor" by { assert "constructor"[..3] == "con"; }
      assert id != "hasOwnProperty" by { assert "hasOwnProperty"[..3] == "has"; }
      assert id != "isPrototypeOf" by { assert "isPrototypeOf"[..3] == "isP"; }
      assert id != "propertyIsEnumerable" by { assert "propertyIsEnumerable"[..3] == "pro"; }
      assert id != "toLocaleString" by { assert "toLocaleString"[..3] == "toL"; }
      assert id != "toString" by { assert "toString"[..3] == "toS"; }
      assert id != "valueOf" by { assert "valueOf"[..3] == "val"; }
      assert id != "__proto__" by { assert "__proto__"[..3] == "__p"; }
      assert id != "__defineGetter__" by { assert "__defineGetter__"[..3] == "__d"; }
      assert id != "__defineSetter__" by { assert "__defineSetter__"[..3] == "__d"; }
      assert id != "__lookupGetter__" by { assert "__lookupGetter__"[..3] == "__l"; }
      assert id != "__lookupSetter__" by { assert "__lookupSetter__"[..3] == "__l"; }
    }
  }

  /** So the two decisions differ only for explicit identifiers. */
  lemma DecideAgreesOnDerivedIdentifiers(cache: map<string, bool>, processing: map<string, bool>, rs: seq<Resource>)
    ensures DecideAsWritten(cache, processing, Identifier(rs)) == Decide(cache, processing, Identifier(rs))
  {
    DerivedIdentifierNotPrototypeKey(rs);
  }

  // ---------------------------------------------------------------------------
  // The manager
  // ---------------------------------------------------------------------------

  /** A DeferredPromise, reduced to an identity token. */
  type Handle = nat

  /** What a request hands back: an already-resolved promise, or a deferred one. */
  datatype Signal = Resolved | Pending(handle: Handle)

  /** An SNSPublish as the manager sees it: the optional explicit identifier
      and the list that getDependencies returns. */
  datatype PublishRequest = PublishRequest(dependencyIdentifier: Option<string>, dependencies: seq<Resource>)

  /** The identifier a request is filed under. */
  function RequestIdentifier(req: PublishRequest): (id: string)
  {
    match req.dependencyIdentifier
    case Some(id) => id
    case None => Identifier(req.dependencies)
  }

  function Elements(hs: seq<Handle>): (elements: set<Handle>)
  {
    set h | h in hs
  }

  /** Bookkeeping the three records and the running table keep in step. */
  ghost predicate RecordsAgree(processing: map<string, bool>, promises: map<string, seq<Handle>>,
                               cache: map<string, bool>, running: map<string, seq<Resource>>)
  {
    && promises.Keys == processing.Keys
    && (forall id :: id in processing ==> processing[id])
    && (forall id :: id in cache ==> cache[id])
    && cache.Keys <= processing.Keys
    && running.Keys <= processing.Keys
    && running.Keys !! cache.Keys
    && (forall id :: id in cache ==> promises[id] == [])
  }

  /** Single flight: a run was started once for each processed identifier and
      never twice for one. */
  ghost predicate SingleFlight(started: seq<string>, processing: map<string, bool>)
  {
    && (forall i, j :: 0 <= i < j < |started| ==> started[i] != started[j])
    && (forall id :: id in processing <==> id in started)
  }

  /** Every waiting promise was handed out and is unresolved; every resolved
      one was handed out. */
  ghost predicate WaitingIssued(promises: map<string, seq<Handle>>, next: Handle, resolved: set<Handle>)
  {
    && (forall id, k :: id in promises && 0 <= k < |promises[id]| ==> promises[id][k] < next && promises[id][k] !in resolved)
    && (forall h :: h in resolved ==> h < next)
  }

  /** A promise waits in one place only. */
  ghost predicate WaitingDistinct(promises: map<string, seq<Handle>>)
  {
    forall id1, k1, id2, k2 ::
      id1 in promises && id2 in promises &&
      0 <= k1 < |promises[id1]| && 0 <= k2 < |promises[id2]| &&
      promises[id1][k1] == promises[id2][k2]
      ==> id1 == id2 && k1 == k2
  }

  lemma JoinKeepsRecords(processing: map<string, bool>, promises: map<string, seq<Handle>>,
                         cache: map<string, bool>, running: map<string, seq<Resource>>, id: string, hs: seq<Handle>)
    requires RecordsAgree(processing, promises, cache, running)
    requires id in processing && id !in cache
    ensures RecordsAgree(processing, promises[id := hs], cache, running)
  {
  }

  lemma StartKeepsRecords(processing: map<string, bool>, promises: map<string, seq<Handle>>,
                          cache: map<string, bool>, running: map<string, seq<Resource>>,
                          id: string, hs: seq<Handle>, rs: seq<Resource>)
    requires RecordsAgree(processing, promises, cache, running)
    requires id !in processing
    ensures RecordsAgree(processing[id := true], promises[id := hs], cache, running[id := rs])
  {
  }

  lemma StartKeepsSingleFlight(started: seq<string>, processing: map<string, bool>, id: string)
    requires SingleFlight(started, processing)
    requires id !in processing
    ensures SingleFlight(started + [id], processing[id := true])
  {
    var s := started + [id];
    forall x ensures x in processing[id := true] <==> x in s {
      assert x in s <==> x in started || x == id;
    }
  }

  lemma FinishKeepsRecords(processing: map<string, bool>, promises: map<string, seq<Handle>>,
                           cache: map<string, bool>, running: map<string, seq<Resource>>, id: string)
    requires RecordsAgree(processing, promises, cache, running)
    requires id in running
    ensures RecordsAgree(processing, promises, cache, running - {id})
    ensures RecordsAgree(processing, promises[id := []], cache[id := true], running - {id})
  {
  }

  lemma JoinKeepsWaiting(promises: map<string, seq<Handle>>, id: string, next: Handle, resolved: set<Handle>)
    requires WaitingIssued(promises, next, resolved) && WaitingDistinct(promises)
    requires id in promises
    ensures var q := promises[id := promises[id] + [next]];
      WaitingIssued(q, next + 1, resolved) && WaitingDistinct(q)
  {
    var q := promises[id := promises[id] + [next]];
    forall id1, k1 | id1 in q && 0 <= k1 < |q[id1]|
      ensures q[id1][k1] == if id1 == id && k1 == |promises[id]| then next else promises[id1][k1]
    {
    }
  }

  lemma StartKeepsWaiting(promises: map<string, seq<Handle>>, id: string, next: Handle, resolved: set<Handle>)
    requires WaitingIssued(promises, next, resolved) && WaitingDistinct(promises)
    ensures var q := promises[id := [next]];
      WaitingIssued(q, next + 1, resolved) && WaitingDistinct(q)
  {
    var q := promises[id := [next]];
    forall id1, k1 | id1 in q && 0 <= k1 < |q[id1]|
      ensures q[id1][k1] == if id1 == id then next else promises[id1][k1]
    {
    }
  }

  lemma ResolveKeepsWaiting(promises: map<string, seq<Handle>>, id: string, next: Handle, resolved: set<Handle>)
    requires WaitingIssued(promises, next, resolved) && WaitingDistinct(promises)
    requires id in promises
    ensures var q := promises[id := []];
      WaitingIssued(q, next, resolved + Elements(promises[id])) && WaitingDistinct(q)
  {
    var q := promises[id := []];
    forall id1, k1 | id1 in q && 0 <= k1 < |q[id1]|
      ensures q[id1][k1] !in Elements(promises[id])
    {
    }
  }

  class DependencyManager {
    var dependencyProcessing: map<string, bool>
    var dependencySatisfactionPromises: map<string, seq<Handle>>
    var dependencySatisfiedCache: map<string, bool>

    /** The satisfyDependencies calls that have started and not yet returned
        or thrown, with the resource list each one works through. */
    var running: map<string, seq<Resource>>
    /** The token the next DeferredPromise gets. */
    var nextHandle: Handle

    /** The deferred promises resolved so far. */
    ghost var resolved: set<Handle>
    /** Every identifier a creation run was started for, in order. */
    ghost var started: seq<string>

    ghost predicate Valid()
      reads this
    {
      && RecordsAgree(dependencyProcessing, dependencySatisfactionPromises, dependencySatisfiedCache, running)
      && SingleFlight(started, dependencyProcessing)
      && WaitingIssued(dependencySatisfactionPromises, nextHandle, resolved)
      && WaitingDistinct(dependencySatisfactionPromises)
    }

    /** A run for the identifier was started, threw, and left the identifier
        processing: no later request can start another one. */
    ghost predicate Failed(id: string)
      reads this
    {
      id in dependencyProcessing && id !in dependencySatisfiedCache && id !in running
    }

    constructor ()
      ensures Valid()
      ensures dependencyProcessing == map[] && dependencySatisfactionPromises == map[]
      ensures dependencySatisfiedCache == map[] && running == map[]
      ensures resolved == {} && started == []
    {
      dependencyProcessing := map[];
      dependencySatisfactionPromises := map[];
      dependencySatisfiedCache := map[];
      running := map[];
      nextHandle := 0;
      resolved := {};
      started := [];
    }

    /** satisfySNSPublishDependencies up to its return: derive the identifier,
        then answer from the cache, join the run in flight, or start one.
        `thunkCalls` counts calls of getDependencies; `startedSequence` says
        whether satisfyDependencies was started. */
    method Request(req: PublishRequest) returns (id: string, sig: Signal, thunkCalls: nat, startedSequence: bool)
      requires Valid()
      modifies this
      ensures Valid()
      ensures id == RequestIdentifier(req)
      ensures thunkCalls <= 1
      ensures req.dependencyIdentifier.None? ==> thunkCalls == 1
      ensures req.dependencyIdentifier.Some? ==> (thunkCalls == 1 <==> startedSequence)
      ensures startedSequence <==> Decide(old(dependencySatisfiedCache), old(dependencyProcessing), id) == StartFresh
      ensures resolved == old(resolved)
      ensures old(Failed(id)) ==> Failed(id) && sig.Pending?
      ensures match Decide(old(dependencySatisfiedCache), old(dependencyProcessing), id)
        case CacheHit =>
          sig == Resolved && unchanged(this)
        case JoinInFlight =>
          && sig == Pending(old(nextHandle)) && nextHandle == old(nextHandle) + 1
          && dependencySatisfactionPromises ==
               old(dependencySatisfactionPromises)[id := old(dependencySatisfactionPromises)[id] + [sig.handle]]
          && dependencyProcessing == old(dependencyProcessing)
          && dependencySatisfiedCache == old(dependencySatisfiedCache)
          && running == old(running) && started == old(started)
        case StartFresh =>
          && sig == Pending(old(nextHandle)) && nextHandle == old(nextHandle) + 1
          && dependencyProcessing == old(dependencyProcessing)[id := true]
          && dependencySatisfactionPromises == old(dependencySatisfactionPromises)[id := [sig.handle]]
          && dependencySatisfiedCache == old(dependencySatisfiedCache)
          && running == old(running)[id := req.dependencies]
          && started == old(started) + [id]
    {
      var dependencies: Option<seq<Resource>> := None;
      thunkCalls := 0;
      startedSequence := false;
      match req.dependencyIdentifier {
        case Some(explicit) =>
          id := explicit;
        case None =>
          dependencies := Some(req.dependencies);
          thunkCalls := thunkCalls + 1;
          id := DeriveIdentifier(req.dependencies);
      }

      if id in dependencySatisfiedCache {
        sig := Resolved;
      } else if id in dependencyProcessing {
        // a run is in flight: just wait for it
        sig := Pending(nextHandle);
        JoinKeepsWaiting(dependencySatisfactionPromises, id, nextHandle, resolved);
        JoinKeepsRecords(dependencyProcessing, dependencySatisfactionPromises, dependencySatisfiedCache, running,
                         id, dependencySatisfactionPromises[id] + [nextHandle]);
        dependencySatisfactionPromises := dependencySatisfactionPromises[id := dependencySatisfactionPromises[id] + [nextHandle]];
        nextHandle := nextHandle + 1;
      } else {
        if dependencies.None? {
          dependencies := Some(req.dependencies);
          thunkCalls := thunkCalls + 1;
        }
        StartKeepsWaiting(dependencySatisfactionPromises, id, nextHandle, resolved);
        StartKeepsRecords(dependencyProcessing, dependencySatisfactionPromises, dependencySatisfiedCache, running,
                          id, [nextHandle], dependencies.value);
        StartKeepsSingleFlight(started, dependencyProcessing, id);
        dependencyProcessing := dependencyProcessing[id := true];
        sig := Pending(nextHandle);
        dependencySatisfactionPromises := dependencySatisfactionPromises[id := [nextHandle]];
        nextHandle := nextHandle + 1;
        running := running[id := dependencies.value];
        started := started + [id];
        startedSequence := true;
      }
    }

    /** satisfyDependencies from start to end: run the creation in list order;
        if it returns, resolve every promise waiting at that moment, empty the
        list, and cache the identifier; if it throws, none of that happens. */
    method Finish(id: string, p: Provider) returns (effects: seq<Effect>, ok: bool)
      requires Valid()
      requires id in running
      modifies this
      ensures Valid()
      ensures Attempt(effects, ok) == Creation(old(running)[id], p)
      ensures running == old(running) - {id}
      ensures dependencyProcessing == old(dependencyProcessing)
      ensures nextHandle == old(nextHandle) && started == old(started)
      ensures ok ==>
        && resolved == old(resolved) + Elements(old(dependencySatisfactionPromises)[id])
        && dependencySatisfactionPromises == old(dependencySatisfactionPromises)[id := []]
        && dependencySatisfiedCache == old(dependencySatisfiedCache)[id := true]
      ensures !ok ==>
        && resolved == old(resolved)
        && dependencySatisfactionPromises == old(dependencySatisfactionPromises)
        && dependencySatisfiedCache == old(dependencySatisfiedCache)
        && Failed(id)
    {
      effects, ok := RunCreation(running[id], p);
      FinishKeepsRecords(dependencyProcessing, dependencySatisfactionPromises, dependencySatisfiedCache, running, id);
      running := running - {id};
      if ok {
        var deferred := dependencySatisfactionPromises[id];
        ghost var nowResolved := resolved;
        for i := 0 to |deferred|
          invariant nowResolved == resolved + Elements(deferred[..i])
        {
          assert deferred[..i + 1] == deferred[..i] + [deferred[i]];
          nowResolved := nowResolved + {deferred[i]};
        }
        assert deferred[..|deferred|] == deferred;
        resolved := nowResolved;
        ResolveKeepsWaiting(dependencySatisfactionPromises, id, nextHandle, old(resolved));
        dependencySatisfactionPromises := dependencySatisfactionPromises[id := []];
        dependencySatisfiedCache := dependencySatisfiedCache[id := true];
      }
    }
  }

  // ---------------------------------------------------------------------------
  // Many publishes under one identifier
  // ---------------------------------------------------------------------------

  /** The number of requests that carry no explicit identifier. */
  function WithoutIdentifier(reqs: seq<PublishRequest>): (n: nat)
  {
    if reqs == [] then 0
    else (if reqs[0].dependencyIdentifier.None? then 1 else 0) + WithoutIdentifier(reqs[1..])
  }

  lemma {:induction false} WithoutIdentifierAppend(reqs: seq<PublishRequest>, r: PublishRequest)
    ensures WithoutIdentifier(reqs + [r]) == WithoutIdentifier(reqs) + (if r.dependencyIdentifier.None? then 1 else 0)
  {
    if reqs == [] {
      assert reqs + [r] == [r];
      assert [r][1..] == [];
    } else {
      assert (reqs + [r])[0] == reqs[0];
      assert (reqs + [r])[1..] == reqs[1..] + [r];
      WithoutIdentifierAppend(reqs[1..], r);
    }
  }

  /** A fresh manager receives `first` and then every request of `later`, all
      filed under one identifier, before the first run finishes; then that run
      finishes. Exactly one run starts, on the first request's list; later
      requests with an explicit identifier never call getDependencies; every
      request gets its own deferred promise; and when the run succeeds, all of
      them are resolved together. */
  method CoalescedRequests(first: PublishRequest, later: seq<PublishRequest>, p: Provider)
    returns (runsStarted: int, laterThunkCalls: nat, waiters: seq<Handle>, effects: seq<Effect>, ok: bool,
             ghost resolvedAfter: set<Handle>)
    requires forall r :: r in later ==> RequestIdentifier(r) == RequestIdentifier(first)
    ensures runsStarted == 1
    ensures laterThunkCalls == WithoutIdentifier(later)
    ensures |waiters| == |later| + 1
    ensures forall i, j :: 0 <= i < j < |waiters| ==> waiters[i] != waiters[j]
    ensures Attempt(effects, ok) == Creation(first.dependencies, p)
    ensures ok ==> resolvedAfter == Elements(waiters)
    ensures !ok ==> resolvedAfter == {}
  {
    var m := new DependencyManager();
    var id, sig, calls, isFresh := m.Request(first);
    runsStarted := 0;
    if isFresh {
      runsStarted := runsStarted + 1;
    }
    laterThunkCalls := 0;
    waiters := [sig.handle];
    for i := 0 to |later|
      invariant m.Valid()
      invariant id == RequestIdentifier(first)
      invariant id in m.running && m.running[id] == first.dependencies
      invariant id !in m.dependencySatisfiedCache && id in m.dependencyProcessing
      invariant m.dependencySatisfactionPromises[id] == waiters && |waiters| == i + 1
      invariant runsStarted == 1
      invariant m.resolved == {}
      invariant laterThunkCalls == WithoutIdentifier(later[..i])
    {
      assert later[i] in later;
      assert Decide(m.dependencySatisfiedCache, m.dependencyProcessing, id) == JoinInFlight;
      ghost var waitingBefore := m.dependencySatisfactionPromises;
      var id', sig', calls', isFresh' := m.Request(later[i]);
      assert id' == id && !isFresh';
      assert m.dependencySatisfactionPromises == waitingBefore[id := waiters + [sig'.handle]];
      assert later[..i + 1] == later[..i] + [later[i]];
      WithoutIdentifierAppend(later[..i], later[i]);
      if isFresh' {
        runsStarted := runsStarted + 1;
      }
      laterThunkCalls := laterThunkCalls + calls';
      waiters := waiters + [sig'.handle];
    }
    assert later[..|later|] == later;
    assert WaitingDistinct(m.dependencySatisfactionPromises);
    forall i, j | 0 <= i < j < |waiters| ensures waiters[i] != waiters[j] {
      assert m.dependencySatisfactionPromises[id][i] == waiters[i];
    }
    effects, ok := m.Finish(id, p);
    resolvedAfter := m.resolved;
  }

  /** The three descriptors of an "orders" pipeline: a topic, an 'all-sns'
      queue and a subscription without filter policy. */
  function OrdersResources(): (rs: seq<Resource>)
  {
    var t := Topic("orders", "us-east-1");
    var q := Queue("orders-q", "us-east-1", AllSns);
    [SNS(t), SQS(q), Subscription(t, q, None)]
  }

  /** The identifier the "orders" list is filed under: the topic key, the
      queue key and the subscription key, each followed by "_"; inside the
      subscription key the queue comes before the topic and the missing filter
      policy reads "null". */
  lemma OrdersIdentifier()
    ensures var t := Topic("orders", "us-east-1");
      var q := Queue("orders-q", "us-east-1", AllSns);
      Identifier(OrdersResources())
        == TopicKey(t) + "_" + QueueKey(q) + "_" + ("subscription[" + QueueKey(q) + "," + TopicKey(t) + "," + "null" + "]") + "_"
  {
    var rs := OrdersResources();
    assert rs[1..][1..][1..] == [];
    assert Identifier(rs) == Key(rs[0]) + "_" + (Key(rs[1]) + "_" + (Key(rs[2]) + "_"));
  }

  /** The two ARNs of the "orders" pipeline under account "123". */
  lemma OrdersARNs()
    ensures GenerateARN(Sns, "us-east-1", "123", "orders") == "arn:aws:sns:us-east-1:123:orders"
    ensures GenerateARN(Sqs, "us-east-1", "123", "orders-q") == "arn:aws:sqs:us-east-1:123:orders-q"
  {
  }

  /** Against account "123" and a provider that accepts every request, the
      "orders" run makes three creation calls in list order, looking the
      account up before the queue and again before the subscription. */
  lemma OrdersCreation()
    ensures Creation(OrdersResources(), Provider(Some("123"), {})) == Attempt([
           CreateTopic("orders"),
           GetAccountID,
           CreateQueue("orders-q", map["Policy" := QueuePolicy("us-east-1", "123", "orders-q")]),
           GetAccountID,
           Subscribe("arn:aws:sns:us-east-1:123:orders", "sqs", "arn:aws:sqs:us-east-1:123:orders-q", map[])], true)
  {
    var rs := OrdersResources();
    var p := Provider(Some("123"), {});
    assert rs[1..][1..][1..] == [];
    OrdersARNs();
    var steps := Attempts(rs, p);
    assert steps == [Ensure(rs[0], p), Ensure(rs[1], p), Ensure(rs[2], p)];
    assert steps[1..][1..][1..] == [];
    assert Run(steps[2..]) == Ensure(rs[2], p);
    assert Run(steps[1..]).effects == Ensure(rs[1], p).effects + Ensure(rs[2], p).effects;
  }
}
