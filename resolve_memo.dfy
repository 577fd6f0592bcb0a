/** The resolution memo of a `MultiMarkdownReference` as a pure state machine:
    the cached results with the element name they were computed for, the
    hit/miss rule of `multiResolve`, and the invalidation rule of the change
    listener. Traces of events are run through it to state what holds across
    several calls. */
module ResolveMemo {
  import opened Wrappers

  type ElementId = nat

  /** A resolve result; its element may be `null`. */
  datatype ResolveResult = ResolveResult(element: Option<ElementId>)

  type Results = seq<ResolveResult>

  /** An unchecked exception thrown by a collaborator. */
  datatype Exception = Thrown

  /** What a call of the resolution strategy gives: results, or an exception. */
  type Computed = Result<Results, Exception>

  /** `resolveResults` and `resolveResultsName`, each `null` = `None`. */
  datatype Memo = Memo(results: Option<Results>, name: Option<string>)

  const Empty := Memo(None, None)

  /** Both fields are set together and cleared together. */
  predicate WellFormed(m: Memo) {
    m.results.None? <==> m.name.None?
  }

  /** The hit rule: results exist and were computed for the element's current
      name, which must be non-null for `equals` to hold. */
  function IsHit(m: Memo, current: Option<string>): (r: bool)
    ensures r <==> m.results.Some? && current.Some? && m.name == current
  {
    m.results.Some? && m.name.Some? && current.Some? && m.name.value == current.value
  }

  /** The key a recomputation stores: the current name, or `""` for `null`. */
  function Key(current: Option<string>): (k: string)
    ensures current.Some? ==> k == current.value
    ensures current.None? ==> k == ""
  {
    if current.Some? then current.value else ""
  }

  /** The memo after `multiResolve` with the element named `current`, where
      `computed` is what the resolution strategy gives now. A miss stores the
      key before it calls the strategy, so a strategy that throws leaves the
      new key beside the old results. */
  function AfterResolve(m: Memo, current: Option<string>, computed: Computed): (r: Memo)
    ensures IsHit(m, current) ==> r == m
    ensures !IsHit(m, current) && computed.Success? ==> r == Memo(Some(computed.value), Some(Key(current)))
    ensures !IsHit(m, current) && computed.Failure? ==> r == Memo(m.results, Some(Key(current)))
    ensures WellFormed(m) && computed.Success? ==> WellFormed(r)
  {
    if IsHit(m, current) then m
    else match computed
      case Success(results) => Memo(Some(results), Some(Key(current)))
      case Failure(_) => Memo(m.results, Some(Key(current)))
  }

  /** What `multiResolve` returns, or the strategy's exception it propagates. */
  function ResolvedValue(m: Memo, current: Option<string>, computed: Computed): (r: Computed)
    ensures IsHit(m, current) ==> r == Success(m.results.value)
    ensures !IsHit(m, current) ==> r == computed
  {
    if IsHit(m, current) then Success(m.results.value) else computed
  }

  /** The listener's test: a name is cached and the notification is the
      wildcard `null` or names it. */
  function NotificationMatches(m: Memo, notified: Option<string>): (r: bool)
    ensures r <==> m.name.Some? && (notified.None? || notified == m.name)
  {
    m.name.Some? && (notified.None? || notified.value == m.name.value)
  }

  /** The memo after `referencesChanged(notified)`. */
  function AfterNotify(m: Memo, notified: Option<string>): (r: Memo)
    ensures NotificationMatches(m, notified) ==> r == Empty
    ensures !NotificationMatches(m, notified) ==> r == m
  {
    if NotificationMatches(m, notified) then Empty else m
  }

  /** One call on the reference: `multiResolve` with the current element name and
      what the strategy would give, a change notification, or an explicit
      `invalidateResolveResults`. */
  datatype Event =
    | Resolve(current: Option<string>, computed: Computed)
    | Notify(notified: Option<string>)
    | Invalidate

  /** The final memo, what each `multiResolve` returned or threw, and how many
      times the strategy ran. */
  datatype Outcome = Outcome(memo: Memo, outputs: seq<Computed>, recomputations: nat)

  function Step(m: Memo, e: Event): Memo {
    match e
    case Resolve(current, computed) => AfterResolve(m, current, computed)
    case Notify(notified) => AfterNotify(m, notified)
    case Invalidate => Empty
  }

  function Run(m: Memo, events: seq<Event>): Outcome
    decreases |events|
  {
    if events == [] then Outcome(m, [], 0)
    else
      var rest := Run(Step(m, events[0]), events[1..]);
      match events[0]
      case Resolve(current, computed) =>
        Outcome(rest.memo, [ResolvedValue(m, current, computed)] + rest.outputs,
                (if IsHit(m, current) then 0 else 1) + rest.recomputations)
      case _ => rest
  }

  /** The strategy returns, rather than throws, in every `multiResolve` of a trace. */
  predicate NeverThrows(events: seq<Event>) {
    forall i :: 0 <= i < |events| && events[i].Resolve? ==> events[i].computed.Success?
  }

  /** An event that leaves a memo hit for `name` alone: a `multiResolve` under
      the same name, or a notification about a different, non-null name. */
  predicate Unrelated(e: Event, name: string) {
    match e
    case Resolve(current, _) => current == Some(name)
    case Notify(notified) => notified.Some? && notified.value != name
    case Invalidate => false
  }

  // ---------------------------------------------------------------------
  // Properties

  /** As long as the strategy never throws, every operation keeps the two
      fields set or cleared together. */
  lemma {:induction false} RunKeepsWellFormed(m: Memo, events: seq<Event>)
    requires WellFormed(m)
    requires NeverThrows(events)
    ensures WellFormed(Run(m, events).memo)
    decreases |events|
  {
    if events != [] {
      var tail := events[1..];
      assert forall i :: 0 <= i < |tail| ==> tail[i] == events[i + 1];
      RunKeepsWellFormed(Step(m, events[0]), tail);
    }
  }

  /** A strategy that throws on a miss leaves the new key without fresh
      results: from an empty memo the fields are no longer set together. */
  lemma ThrowLeavesKeyWithoutResults(name: string)
    ensures AfterResolve(Empty, Some(name), Failure(Thrown)) == Memo(None, Some(name))
    ensures !WellFormed(AfterResolve(Empty, Some(name), Failure(Thrown)))
    ensures !IsHit(AfterResolve(Empty, Some(name), Failure(Thrown)), Some(name))
  {
  }

  /** A strategy that throws after a rename leaves the old results under the
      new name, so the next `multiResolve` under that name hits and returns
      results computed for the old name, without running the strategy. */
  lemma StaleHitAfterThrow(cached: Results, oldName: string, newName: string, later: Computed)
    requires oldName != newName
    ensures var m := AfterResolve(Memo(Some(cached), Some(oldName)), Some(newName), Failure(Thrown));
      && m == Memo(Some(cached), Some(newName))
      && IsHit(m, Some(newName))
      && ResolvedValue(m, Some(newName), later) == Success(cached)
  {
  }

  /** A `multiResolve` that recomputes leaves a memo the next `multiResolve`
      under the same non-null name hits, returning the same results. */
  lemma RecomputedMemoHits(m: Memo, name: string, computed: Results, later: Computed)
    ensures var m' := AfterResolve(m, Some(name), Success(computed));
      IsHit(m', Some(name)) && ResolvedValue(m', Some(name), later) == ResolvedValue(m, Some(name), Success(computed))
  {
  }

  /** With a `null` element name every `multiResolve` recomputes: the stored
      key is `""`, never equal to `null`. */
  lemma NullNameAlwaysRecomputes(m: Memo, computed: Computed)
    ensures !IsHit(m, None)
    ensures AfterResolve(m, None, computed).name == Some("")
    ensures !IsHit(AfterResolve(m, None, computed), None)
  {
  }

  /** A notification for the cached name, or the wildcard, forces the next
      `multiResolve` to recompute; one for another name does not. */
  lemma NotificationInvalidatesOnlyMatchingName(m: Memo, name: string, other: string)
    requires IsHit(m, Some(name)) && other != name
    ensures !IsHit(AfterNotify(m, Some(name)), Some(name))
    ensures !IsHit(AfterNotify(m, None), Some(name))
    ensures AfterNotify(m, Some(other)) == m
  {
  }

  /** Invalidating twice is the same as invalidating once. */
  lemma InvalidateIdempotent(m: Memo, events: seq<Event>)
    ensures Run(m, [Invalidate, Invalidate] + events) == Run(m, [Invalidate] + events)
  {
  }

  /** Referential stability: from a memo hit for `name`, any run of `multiResolve`
      calls under `name` and notifications about other names keeps the memo,
      returns the cached results every time and never runs the strategy. */
  lemma {:induction false} UnrelatedEventsKeepMemo(m: Memo, name: string, events: seq<Event>)
    requires IsHit(m, Some(name))
    requires forall i :: 0 <= i < |events| ==> Unrelated(events[i], name)
    ensures Run(m, events).memo == m
    ensures Run(m, events).recomputations == 0
    ensures |Run(m, events).outputs| <= |events|
    ensures forall i :: 0 <= i < |Run(m, events).outputs| ==> Run(m, events).outputs[i] == Success(m.results.value)
    decreases |events|
  {
    if events != [] {
      assert Unrelated(events[0], name);
      assert Step(m, events[0]) == m;
      var tail := events[1..];
      assert forall i :: 0 <= i < |tail| ==> tail[i] == events[i + 1];
      UnrelatedEventsKeepMemo(m, name, tail);
    }
  }

  /** At most one fresh computation per observed name: any number of
      `multiResolve` calls under one non-null name, with nothing in between,
      run a strategy that returns at most once, and all return the same results. */
  lemma {:induction false} AtMostOneRecomputationPerName(m: Memo, name: string, events: seq<Event>)
    requires forall i :: 0 <= i < |events| ==> events[i].Resolve? && events[i].current == Some(name)
    requires NeverThrows(events)
    ensures Run(m, events).recomputations <= 1
    ensures forall i, j :: 0 <= i < j < |Run(m, events).outputs| ==>
      Run(m, events).outputs[i] == Run(m, events).outputs[j]
  {
    if events != [] {
      assert events[0].computed.Success?;
      var m' := Step(m, events[0]);
      var tail := events[1..];
      assert IsHit(m', Some(name));
      assert forall i :: 0 <= i < |tail| ==> tail[i] == events[i + 1];
      assert forall i :: 0 <= i < |tail| ==> Unrelated(tail[i], name);
      UnrelatedEventsKeepMemo(m', name, tail);
      var first := ResolvedValue(m, Some(name), events[0].computed);
      assert first == Success(m'.results.value);
      var outs := Run(m, events).outputs;
      assert outs == [first] + Run(m', tail).outputs;
      forall i | 0 <= i < |outs| ensures outs[i] == first {
        if i > 0 {
          assert outs[i] == Run(m', tail).outputs[i - 1];
        }
      }
    }
  }
}
