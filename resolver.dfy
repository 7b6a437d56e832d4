/** `execute`: prepare and send one aggregation per option, then count the
    completions. The callback is called once with the documents when every
    option's aggregation has completed, or once with the first error; a
    completion arriving after an error is ignored. */
module Resolver {
  import opened Common
  import opened OptionFormat
  import opened BatchGrouping
  import opened Aggregation
  import opened RowScatter

  /** What an aggregation delivers to its callback. */
  datatype StoreOutcome = StoreFailed(error: Error) | Rows(rows: seq<Row>)

  /** A call of `execute`'s callback: `cb(err)` or `cb(null, docs)`. */
  datatype Signal = Failed(error: Error) | Done

  /** The counter state of one `execute` call. */
  datatype Counter = Counter(resolvedCount: nat, error: bool, signals: seq<Signal>)

  /** One aggregation callback, on the counter alone. */
  function Step(c: Counter, outcome: StoreOutcome, total: nat): Counter {
    if c.error then c
    else
      var n := c.resolvedCount + 1;
      match outcome
      case StoreFailed(e) => Counter(n, true, c.signals + [Failed(e)])
      case Rows(_) => Counter(n, false, c.signals + if n == total then [Done] else [])
  }

  /** The counter after the callbacks `outcomes`, in arrival order. */
  function Run(outcomes: seq<StoreOutcome>, total: nat): Counter {
    if outcomes == [] then Counter(0, false, [])
    else Step(Run(outcomes[..|outcomes| - 1], total), outcomes[|outcomes| - 1], total)
  }

  /** The error of the first failed aggregation, in arrival order. */
  function FirstFailure(outcomes: seq<StoreOutcome>): Option<Error> {
    if outcomes == [] then None
    else
      var earlier := FirstFailure(outcomes[..|outcomes| - 1]);
      if earlier.Some? then earlier
      else if outcomes[|outcomes| - 1].StoreFailed? then Some(outcomes[|outcomes| - 1].error)
      else None
  }

  /** Whatever the arrival order, the callback fires at most once: with the
      first error if any aggregation failed, otherwise with the documents
      exactly when all `total` aggregations have completed. */
  lemma {:induction false} RunSpec(outcomes: seq<StoreOutcome>, total: nat)
    requires |outcomes| <= total
    ensures Run(outcomes, total).error <==> FirstFailure(outcomes).Some?
    ensures !Run(outcomes, total).error ==> Run(outcomes, total).resolvedCount == |outcomes|
    ensures Run(outcomes, total).signals ==
      if FirstFailure(outcomes).Some? then [Failed(FirstFailure(outcomes).value)]
      else if |outcomes| == total && total > 0 then [Done]
      else []
  {
    if outcomes != [] {
      RunSpec(outcomes[..|outcomes| - 1], total);
    }
  }

  /** One more completion while fewer than `total` have arrived: the
      counter takes one `Step`, and the callback has still fired at most
      once. */
  lemma CounterStep(history: seq<StoreOutcome>, outcome: StoreOutcome, total: nat)
    requires |history| < total
    ensures Run(history + [outcome], total) == Step(Run(history, total), outcome, total)
    ensures |Run(history + [outcome], total).signals| <= 1
  {
    assert (history + [outcome])[..|history|] == history;
    RunSpec(history + [outcome], total);
  }

  /** When a later option threw, fewer aggregations than options were sent:
      the documents are never delivered. */
  lemma AbortedNeverDone(outcomes: seq<StoreOutcome>, total: nat)
    requires |outcomes| < total
    ensures Done !in Run(outcomes, total).signals
  {
    RunSpec(outcomes, total);
  }

  /** The body of `execute`'s loop up to sending the aggregation: the
      checks, the grouping loop over the batch, and the stages. It runs the
      grouping as the loop `Group` over the array, where `PlanField`, its
      specification, takes the bucket map as the function `Grouping`. */
  method Prepare(model: ModelInfo, registry: Registry, docs: array<Doc>, option: Arg)
    returns (r: Result<FieldPlan>)
    ensures r == PlanField(model, registry, docs[..], option)
  {
    var config := Configure(model, registry, option);
    if config.Err? {
      return Err(config.error);
    }
    var c := config.value;
    var buckets, order := Group(docs, c.path);
    var stages := BuildPipeline(c, registry, docs[..], order);
    if stages.Err? {
      return Err(stages.error);
    }
    return Ok(FieldPlan(c, Keys(docs[..], c.path), buckets, stages.value));
  }

  /** Every option of `opts` was prepared into the plan at its position. */
  ghost predicate Planned(model: ModelInfo, registry: Registry, batch: seq<Doc>, opts: seq<Arg>, plans: seq<FieldPlan>) {
    |plans| == |opts| && forall k :: 0 <= k < |opts| ==> PlanField(model, registry, batch, opts[k]) == Ok(plans[k])
  }

  /** One more prepared option keeps `Planned`. */
  lemma PlansExtend(model: ModelInfo, registry: Registry, batch: seq<Doc>, opts: seq<Arg>, i: nat, plans: seq<FieldPlan>, plan: FieldPlan)
    requires i < |opts| && Planned(model, registry, batch, opts[..i], plans)
    requires PlanField(model, registry, batch, opts[i]) == Ok(plan)
    ensures Planned(model, registry, batch, opts[..i + 1], plans + [plan])
  {
    assert opts[..i + 1] == opts[..i] + [opts[i]];
  }

  /** The loop over the options of `execute`: each option is prepared and
      its aggregation sent; the first preparation that throws ends the loop,
      and the aggregations sent before it stay in flight. */
  method Launch(model: ModelInfo, registry: Registry, docs: array<Doc>, options: Arg)
    returns (opts: seq<Arg>, plans: seq<FieldPlan>, thrown: Option<Error>)
    ensures opts == FormatOptions(options)
    ensures |plans| <= |opts|
    ensures thrown.None? ==> |plans| == |opts|
    ensures thrown.Some? ==> |plans| < |opts| && PlanField(model, registry, docs[..], opts[|plans|]) == Err(thrown.value)
    ensures forall i :: 0 <= i < |plans| ==> PlanField(model, registry, docs[..], opts[i]) == Ok(plans[i])
  {
    opts := FormatOptions(options);
    plans, thrown := [], None;
    var i := 0;
    while i < |opts|
      invariant 0 <= i <= |opts| && |plans| == i
      invariant Planned(model, registry, docs[..], opts[..i], plans)
    {
      var prepared := Prepare(model, registry, docs, opts[i]);
      if prepared.Err? {
        thrown := Some(prepared.error);
        assert opts[..i] == opts[..|plans|];
        return;
      }
      PlansExtend(model, registry, docs[..], opts, i, plans, prepared.value);
      plans := plans + [prepared.value];
      i := i + 1;
    }
  }

  /** A set of distinct positions below `n` has fewer than `n` elements
      when one position below `n` is missing from it. */
  lemma {:induction false} BoundedSetSize(s: set<nat>, n: nat, k: nat)
    requires forall x :: x in s ==> x < n
    requires k < n && k !in s
    ensures |s| < n
    decreases n
  {
    if n > 1 {
      var top := n - 1;
      if top in s {
        if k == top {
          assert false;
        } else {
          BoundedSetSize(s - {top}, n - 1, k);
        }
      } else if k == top {
        if s != {} {
          var x :| x in s;
          BoundedSetSize(s - {x}, n - 1, x);
        }
      } else {
        BoundedSetSize(s, n - 1, k);
      }
    } else {
      assert s == {};
    }
  }

  /** The empty array is the one argument that formats to no options. For
      it, `Execute` returns a counter with `total == 0` and no plans, so
      `Drive` admits only the empty sequence of completions, and its
      `total > 0` guard leaves the callback unfired: the counter in that
      state has fired nothing. */
  lemma EmptyOptionsNeverSettle(options: Arg)
    ensures FormatOptions(options) == [] <==> options == List([])
    ensures options == List([]) ==> Run([], |FormatOptions(options)|).signals == []
  {
  }

  /** The batch after one successful aggregation of `plan`: every
      document's field gets its first matching row, or `null`. */
  function ApplyRows(ds: seq<Doc>, plan: FieldPlan, rows: seq<Row>): (r: seq<Doc>)
    requires |plan.keys| == |ds|
    ensures |r| == |ds|
  {
    seq(|ds|, i requires 0 <= i < |ds| => ds[i].Set(plan.config.path, Resolved(rows, plan.keys[i])))
  }

  /** A batch whose every document got its field written by `Scatter` is
      the batch `ApplyRows` gives. */
  lemma ScatteredBatch(before: seq<Doc>, after: seq<Doc>, plan: FieldPlan, rows: seq<Row>)
    requires |plan.keys| == |before| == |after|
    requires forall i :: 0 <= i < |after| ==>
      after[i] == before[i].Set(plan.config.path, Resolved(rows, plan.keys[i]))
    ensures after == ApplyRows(before, plan, rows)
  {
  }

  /** Each plan was prepared for a batch of `n` documents, and each
      completion names one of the plans. */
  ghost predicate Fits(n: nat, plans: seq<FieldPlan>, events: seq<(nat, StoreOutcome)>) {
    && (forall k :: 0 <= k < |plans| ==> |plans[k].keys| == n)
    && (forall a :: 0 <= a < |events| ==> events[a].0 < |plans|)
  }

  /** The batch after the completions `events`, in arrival order: each
      successful aggregation of a plan for this batch that arrives before
      the first failure writes its rows into the batch; every later
      completion changes nothing. */
  ghost function Applied(ds: seq<Doc>, plans: seq<FieldPlan>, events: seq<(nat, StoreOutcome)>): (r: seq<Doc>)
    ensures |r| == |ds|
  {
    if events == [] then ds
    else
      var earlier := events[..|events| - 1];
      var prev := Applied(ds, plans, earlier);
      var (k, o) := events[|events| - 1];
      if FirstFailure(Outcomes(earlier)).None? && o.Rows? && k < |plans| && |plans[k].keys| == |prev|
      then ApplyRows(prev, plans[k], o.rows)
      else prev
  }

  /** One more completion: it writes its rows exactly when it succeeded
      and no earlier completion failed. */
  lemma AppliedStep(ds: seq<Doc>, plans: seq<FieldPlan>, events: seq<(nat, StoreOutcome)>, j: nat, total: nat)
    requires Fits(|ds|, plans, events) && j < |events| && j <= total
    ensures Outcomes(events[..j + 1]) == Outcomes(events[..j]) + [events[j].1]
    ensures Applied(ds, plans, events[..j + 1]) ==
      if !Run(Outcomes(events[..j]), total).error && events[j].1.Rows?
      then ApplyRows(Applied(ds, plans, events[..j]), plans[events[j].0], events[j].1.rows)
      else Applied(ds, plans, events[..j])
  {
    assert events[..j + 1][..j] == events[..j];
    RunSpec(Outcomes(events[..j]), total);
  }

  /** When no aggregation failed, each requested field holds the first
      matching row of its aggregation, or `null`, unless a later completion
      wrote the same path. */
  lemma {:induction false} AppliedField(ds: seq<Doc>, plans: seq<FieldPlan>, events: seq<(nat, StoreOutcome)>, a: nat, i: nat)
    requires Fits(|ds|, plans, events)
    requires FirstFailure(Outcomes(events)).None?
    requires a < |events| && i < |ds|
    requires forall b :: a < b < |events| ==> plans[events[b].0].config.path != plans[events[a].0].config.path
    ensures events[a].1.Rows?
    ensures Applied(ds, plans, events)[i].Get(plans[events[a].0].config.path) ==
      Resolved(events[a].1.rows, plans[events[a].0].keys[i])
  {
    var n := |events|;
    var earlier := events[..n - 1];
    assert Outcomes(events)[..n - 1] == Outcomes(earlier);
    assert FirstFailure(Outcomes(earlier)).None? && events[n - 1].1.Rows?;
    if a < n - 1 {
      AppliedField(ds, plans, earlier, a, i);
    }
  }

  /** A path that no completion's plan names keeps its value. */
  lemma {:induction false} AppliedUntouched(ds: seq<Doc>, plans: seq<FieldPlan>, events: seq<(nat, StoreOutcome)>, p: string, i: nat)
    requires Fits(|ds|, plans, events) && i < |ds|
    requires forall b :: 0 <= b < |events| ==> plans[events[b].0].config.path != p
    ensures Applied(ds, plans, events)[i].Get(p) == ds[i].Get(p)
  {
    if events != [] {
      AppliedUntouched(ds, plans, events[..|events| - 1], p, i);
    }
  }

  /** The state of one `execute` call: the batch, the prepared options, the
      number of options, and the completion counter. */
  class Resolution {
    const docs: array<Doc>
    const plans: seq<FieldPlan>
    const total: nat           // options.length
    var resolvedCount: nat
    var error: bool
    var signals: seq<Signal>   // calls of cb so far
    ghost var seen: set<nat>   // options whose aggregation has completed
    ghost var history: seq<StoreOutcome>

    function State(): Counter
      reads this
    {
      Counter(resolvedCount, error, signals)
    }

    ghost predicate Valid()
      reads this
    {
      && |plans| <= total
      && (forall k :: 0 <= k < |plans| ==>
            |plans[k].keys| == docs.Length && plans[k].buckets == Grouping(plans[k].keys))
      && (forall k :: k in seen ==> k < |plans|)
      && |history| == |seen| <= |plans|
      && State() == Run(history, total)
    }

    constructor (docs: array<Doc>, plans: seq<FieldPlan>, total: nat)
      requires |plans| <= total
      requires forall k :: 0 <= k < |plans| ==>
        |plans[k].keys| == docs.Length && plans[k].buckets == Grouping(plans[k].keys)
      ensures Valid() && seen == {} && signals == []
      ensures this.docs == docs && this.plans == plans && this.total == total
    {
      this.docs, this.plans, this.total := docs, plans, total;
      resolvedCount, error, signals := 0, false, [];
      seen, history := {}, [];
    }

    /** The aggregation callback of option `k`. */
    method Complete(k: nat, outcome: StoreOutcome)
      requires Valid() && k < |plans| && k !in seen
      modifies this, docs
      ensures Valid() && seen == old(seen) + {k} && history == old(history) + [outcome]
      ensures State() == Step(old(State()), outcome, total)
      ensures |signals| <= 1
      ensures !old(error) && outcome.Rows? ==> forall i :: 0 <= i < docs.Length ==>
        docs[i] == old(docs[i]).Set(plans[k].config.path, Resolved(outcome.rows, plans[k].keys[i]))
      ensures docs[..] ==
        if !old(error) && outcome.Rows? then ApplyRows(old(docs[..]), plans[k], outcome.rows)
        else old(docs[..])
    {
      ghost var before := docs[..];
      BoundedSetSize(seen, |plans|, k);
      CounterStep(history, outcome, total);
      ghost var next := Step(State(), outcome, total);
      seen, history := seen + {k}, history + [outcome];
      assert |seen| == |history| <= |plans|;
      assert Run(history, total) == next && |next.signals| <= 1;
      var proceed := Tally(outcome);
      if proceed {
        var plan := plans[k];
        assert |plan.keys| == docs.Length && plan.buckets == Grouping(plan.keys);
        Scatter(docs, plan.config.path, plan.buckets, plan.keys, outcome.rows);
        ScatteredBatch(before, docs[..], plan, outcome.rows);
        if resolvedCount == total {
          signals := signals + [Done];
        }
      }
    }

    /** The start of the aggregation callback: ignored after an error;
        otherwise counted, and a failure sets the flag and fires `cb(err)`.
        Returns whether the rows are to be scattered. */
    method Tally(outcome: StoreOutcome) returns (proceed: bool)
      modifies this
      ensures proceed <==> !old(error) && outcome.Rows?
      ensures resolvedCount == if old(error) then old(resolvedCount) else old(resolvedCount) + 1
      ensures error == (old(error) || outcome.StoreFailed?)
      ensures signals == if !old(error) && outcome.StoreFailed? then old(signals) + [Failed(outcome.error)] else old(signals)
      ensures seen == old(seen) && history == old(history)
    {
      if error {
        return false;
      }
      resolvedCount := resolvedCount + 1;
      if outcome.StoreFailed? {
        error := true;
        signals := signals + [Failed(outcome.error)];
        return false;
      }
      return true;
    }

    /** The completions arriving one by one in the order `events` gives. */
    method Drive(events: seq<(nat, StoreOutcome)>)
      requires Valid() && seen == {}
      requires forall a :: 0 <= a < |events| ==> events[a].0 < |plans|
      requires forall a, b :: 0 <= a < b < |events| ==> events[a].0 != events[b].0
      modifies this, docs
      ensures Valid()
      ensures history == Outcomes(events)
      ensures docs[..] == Applied(old(docs[..]), plans, events)
      ensures signals ==
        if FirstFailure(history).Some? then [Failed(FirstFailure(history).value)]
        else if |events| == total && total > 0 then [Done]
        else []
    {
      var j := 0;
      while j < |events|
        invariant 0 <= j <= |events|
        invariant Valid()
        invariant forall a :: j <= a < |events| ==> events[a].0 !in seen
        invariant history == Outcomes(events[..j])
        invariant docs[..] == Applied(old(docs[..]), plans, events[..j])
      {
        AppliedStep(old(docs[..]), plans, events, j, total);
        Complete(events[j].0, events[j].1);
        j := j + 1;
      }
      assert events[..|events|] == events;
      RunSpec(history, total);
    }
  }

  function Outcomes(events: seq<(nat, StoreOutcome)>): (r: seq<StoreOutcome>)
    ensures |r| == |events|
  {
    if events == [] then [] else Outcomes(events[..|events| - 1]) + [events[|events| - 1].1]
  }

  /** `execute(model, docs, options, lean, cb)`: the options are prepared and
      sent; the returned counter receives their completions. When a
      preparation throws, the aggregations sent before it still complete
      onto the batch, but `total` can no longer be reached. */
  method Execute(model: ModelInfo, registry: Registry, docs: array<Doc>, options: Arg)
    returns (res: Resolution, thrown: Option<Error>)
    ensures fresh(res) && res.Valid() && res.docs == docs && res.seen == {} && res.signals == []
    ensures res.total == |FormatOptions(options)|
    ensures thrown.None? <==> |res.plans| == res.total
    ensures forall i :: 0 <= i < |res.plans| ==>
      PlanField(model, registry, docs[..], FormatOptions(options)[i]) == Ok(res.plans[i])
    ensures thrown.Some? ==>
      PlanField(model, registry, docs[..], FormatOptions(options)[|res.plans|]) == Err(thrown.value)
  {
    var opts, plans;
    opts, plans, thrown := Launch(model, registry, docs, options);
    forall k | 0 <= k < |plans|
      ensures |plans[k].keys| == docs.Length && plans[k].buckets == Grouping(plans[k].keys)
    {
      PlanFieldGroups(model, registry, docs[..], opts[k]);
    }
    res := new Resolution(docs, plans, |opts|);
  }

}
