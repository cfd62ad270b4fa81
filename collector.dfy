/** `ReqImpl.ExceptionCollectorImpl`: gathers the failures reported on the
    event loop into one primary throwable with the later ones attached to it
    as suppressed, and hands the primary to `await` through `rethrow`. */
module Collector {
  import opened Base

  /** `WebsocketErrorHandler.onError`, given a throwable or `None` for null:
      true lets the failure be recorded. */
  type ErrorPolicy = Option<Throwable> -> bool

  /** The collector's fields. `suppressed[p]` is the list of suppressed
      throwables this collector attached to `p` with `addSuppressed`. */
  datatype Record = Record(
    thrown: Option<Throwable>,
    lastThrown: Option<Throwable>,
    seen: set<Throwable>,
    suppressed: map<Throwable, seq<Throwable>>)

  function Initial(): Record {
    Record(None, None, {}, map[])
  }

  function SuppressedOf(r: Record, p: Throwable): seq<Throwable> {
    if p in r.suppressed then r.suppressed[p] else []
  }

  /** Recording `t` with no error policy in the way. */
  function Recorded(r: Record, t: Throwable): (r': Record)
    // an already seen failure leaves no trace
    ensures t in r.seen ==> r' == r
    // otherwise it is seen from now on
    ensures t !in r.seen ==> r'.seen == r.seen + {t}
    // the first recorded failure becomes the primary ...
    ensures t !in r.seen && r.thrown.None? ==> r'.thrown == Some(t) && r'.suppressed == r.suppressed
    // ... which is never overwritten: a later one is appended to its suppressed list
    ensures r.thrown.Some? ==> r'.thrown == r.thrown
    ensures t !in r.seen && r.thrown.Some? ==>
              r'.suppressed == r.suppressed[r.thrown.value := SuppressedOf(r, r.thrown.value) + [t]]
    ensures r'.lastThrown == r.lastThrown
  {
    if t in r.seen then r
    else if r.thrown.Some? then
      r.(seen := r.seen + {t},
         suppressed := r.suppressed[r.thrown.value := SuppressedOf(r, r.thrown.value) + [t]])
    else
      r.(seen := r.seen + {t}, thrown := Some(t))
  }

  /** The error policy refuses the failure. It is asked about the current
      primary `thrown` (`None` before the first failure), not about the
      failure being reported. */
  predicate Vetoes(policy: Option<ErrorPolicy>, r: Record) {
    policy.Some? && !policy.value(r.thrown)
  }

  /** `onException(t, ctx)`. */
  function AfterException(r: Record, policy: Option<ErrorPolicy>, t: Throwable): (r': Record)
    // a refused failure leaves no trace; an accepted one is recorded
    ensures Vetoes(policy, r) ==> r' == r
    ensures !Vetoes(policy, r) ==> r' == Recorded(r, t)
  {
    if Vetoes(policy, r) then r else Recorded(r, t)
  }

  /** `rethrow()`: reports the primary (None: nothing is thrown) and clears it. */
  function AfterRethrow(r: Record): (res: (Record, Option<Throwable>))
    ensures res.1 == r.thrown
    ensures res.0.thrown.None? && res.0.lastThrown == r.thrown
    ensures res.0.seen == r.seen && res.0.suppressed == r.suppressed
  {
    (r.(lastThrown := r.thrown, thrown := None), r.thrown)
  }

  /** The throwable `onDisconnect` listeners receive: `thrown`, else `lastThrown`. */
  function DisconnectCause(r: Record): (c: Option<Throwable>)
    ensures r.thrown.Some? ==> c == r.thrown
    ensures r.thrown.None? ==> c == r.lastThrown
  {
    if r.thrown.Some? then r.thrown else r.lastThrown
  }

  // ---------------------------------------------------------------------------
  // What the collector keeps true: every recorded throwable is in `seen`, and
  // no throwable is recorded twice, neither as a primary nor as a suppressed one.

  predicate NoDuplicates(s: seq<Throwable>) {
    forall i, j :: 0 <= i < j < |s| ==> s[i] != s[j]
  }

  /** `x` is not attached as suppressed to anything. */
  ghost predicate NotSuppressed(r: Record, x: Throwable) {
    forall q :: q in r.suppressed ==> x !in r.suppressed[q]
  }

  ghost predicate Invariant(r: Record) {
    && (r.thrown.Some? ==> r.thrown.value in r.seen && NotSuppressed(r, r.thrown.value))
    && (r.lastThrown.Some? ==> r.lastThrown.value in r.seen)
    && (forall p :: p in r.suppressed ==> p in r.seen && NotSuppressed(r, p))
    && (forall p :: p in r.suppressed ==> NoDuplicates(r.suppressed[p]))
    && (forall p, x :: p in r.suppressed && x in r.suppressed[p] ==> x in r.seen)
    && (forall p, q, x :: p in r.suppressed && q in r.suppressed && p != q && x in r.suppressed[p] ==>
          x !in r.suppressed[q])
  }

  lemma InitialInvariant()
    ensures Invariant(Initial())
  {
  }

  lemma AppendFresh(s: seq<Throwable>, t: Throwable)
    requires NoDuplicates(s) && t !in s
    ensures NoDuplicates(s + [t])
  {
  }

  lemma RecordedInvariant(r: Record, t: Throwable)
    requires Invariant(r)
    ensures Invariant(Recorded(r, t))
  {
    if t !in r.seen && r.thrown.Some? {
      var p := r.thrown.value;
      var r' := Recorded(r, t);
      assert t !in SuppressedOf(r, p);
      AppendFresh(SuppressedOf(r, p), t);
      forall q | q in r'.suppressed
        ensures t !in r'.suppressed[q] || q == p
      {
        if q != p {
          assert r'.suppressed[q] == r.suppressed[q];
        }
      }
    }
  }

  lemma AfterExceptionInvariant(r: Record, policy: Option<ErrorPolicy>, t: Throwable)
    requires Invariant(r)
    ensures Invariant(AfterException(r, policy, t))
  {
    RecordedInvariant(r, t);
  }

  lemma AfterRethrowInvariant(r: Record)
    requires Invariant(r)
    ensures Invariant(AfterRethrow(r).0)
  {
  }

  // ---------------------------------------------------------------------------
  // Runs: the collector sees a sequence of reported failures and rethrow calls.

  datatype Event = Reported(t: Throwable, policy: Option<ErrorPolicy>) | Rethrown

  function Step(r: Record, e: Event): Record {
    match e
    case Reported(t, policy) => AfterException(r, policy, t)
    case Rethrown => AfterRethrow(r).0
  }

  function Run(r: Record, events: seq<Event>): Record
    decreases |events|
  {
    if events == [] then r
    else Step(Run(r, events[..|events| - 1]), events[|events| - 1])
  }

  /** No run breaks the invariant. */
  lemma {:induction false} RunInvariant(r: Record, events: seq<Event>)
    requires Invariant(r)
    ensures Invariant(Run(r, events))
  {
    if events != [] {
      var prefix := events[..|events| - 1];
      RunInvariant(r, prefix);
      match events[|events| - 1]
      case Reported(t, policy) => AfterExceptionInvariant(Run(r, prefix), policy, t);
      case Rethrown => AfterRethrowInvariant(Run(r, prefix));
    }
  }

  /** `seen` is never cleared, not even by `rethrow`. */
  lemma {:induction false} SeenOnlyGrows(r: Record, events: seq<Event>)
    ensures r.seen <= Run(r, events).seen
  {
    if events != [] {
      SeenOnlyGrows(r, events[..|events| - 1]);
    }
  }

  /** A failure already seen is ignored, however much later it is reported
      again: the same failure reported along two paths is recorded once. */
  lemma {:induction false} SeenFailureIgnored(r: Record, events: seq<Event>, t: Throwable, policy: Option<ErrorPolicy>)
    requires t in r.seen
    ensures AfterException(Run(r, events), policy, t) == Run(r, events)
  {
    SeenOnlyGrows(r, events);
  }

  /** Reporting the same failure twice in a row is the same as reporting it once. */
  lemma ReportTwice(r: Record, policy: Option<ErrorPolicy>, t: Throwable)
    ensures AfterException(AfterException(r, policy, t), policy, t) == AfterException(r, policy, t)
  {
  }

  predicate NoRethrow(events: seq<Event>) {
    forall i :: 0 <= i < |events| ==> events[i].Reported?
  }

  /** Until the next `rethrow`, the primary stays what it is. */
  lemma {:induction false} PrimaryKeptUntilRethrow(r: Record, events: seq<Event>)
    requires r.thrown.Some? && NoRethrow(events)
    ensures Run(r, events).thrown == r.thrown
  {
    if events != [] {
      PrimaryKeptUntilRethrow(r, events[..|events| - 1]);
    }
  }

  /** Between two `rethrow`s the suppressed lists only grow at their end. */
  lemma {:induction false} SuppressedOnlyGrows(r: Record, events: seq<Event>, p: Throwable)
    ensures SuppressedOf(r, p) <= SuppressedOf(Run(r, events), p)
  {
    if events != [] {
      SuppressedOnlyGrows(r, events[..|events| - 1], p);
    }
  }

  /** One more distinct failure, after the failures `front` were recorded. */
  lemma ReportFreshStep(before: Record, front: seq<Throwable>, t: Throwable)
    requires |front| > 0 && t !in front
    requires before.thrown == Some(front[0]) && SuppressedOf(before, front[0]) == front[1..]
    requires before.seen == set x | x in front
    ensures Recorded(before, t).thrown == Some(front[0])
    ensures SuppressedOf(Recorded(before, t), front[0]) == (front + [t])[1..]
    ensures Recorded(before, t).seen == set x | x in front + [t]
  {
    assert (front + [t])[1..] == front[1..] + [t];
  }

  lemma RunSnoc(r: Record, events: seq<Event>, e: Event)
    ensures Run(r, events + [e]) == Step(Run(r, events), e)
  {
    assert (events + [e])[..|events|] == events;
  }

  lemma ReportsSnoc(ts: seq<Throwable>, t: Throwable, policy: Option<ErrorPolicy>)
    ensures Reports(ts + [t], policy) == Reports(ts, policy) + [Reported(t, policy)]
  {
  }

  /** The inductive step of `ReportsWithoutPolicy`: one more distinct failure. */
  lemma ReportsWithoutPolicyStep(front: seq<Throwable>, t: Throwable)
    requires |front| > 0 && t !in front
    requires Run(Initial(), Reports(front, None)).thrown == Some(front[0])
    requires SuppressedOf(Run(Initial(), Reports(front, None)), front[0]) == front[1..]
    requires Run(Initial(), Reports(front, None)).seen == set x | x in front
    ensures Run(Initial(), Reports(front + [t], None)).thrown == Some(front[0])
    ensures SuppressedOf(Run(Initial(), Reports(front + [t], None)), front[0]) == (front + [t])[1..]
    ensures Run(Initial(), Reports(front + [t], None)).seen == set x | x in front + [t]
  {
    ReportsSnoc(front, t, None);
    RunSnoc(Initial(), Reports(front, None), Reported(t, None));
    ReportFreshStep(Run(Initial(), Reports(front, None)), front, t);
  }

  lemma NoDuplicatesFront(ts: seq<Throwable>)
    requires |ts| > 0 && NoDuplicates(ts)
    ensures NoDuplicates(ts[..|ts| - 1]) && ts[|ts| - 1] !in ts[..|ts| - 1]
  {
  }

  /** Reports with no error policy, starting empty: the first failure is the
      primary and every later distinct one is suppressed on it, in order. */
  lemma {:induction false} ReportsWithoutPolicy(ts: seq<Throwable>)
    requires |ts| > 0 && NoDuplicates(ts)
    ensures Run(Initial(), Reports(ts, None)).thrown == Some(ts[0])
    ensures SuppressedOf(Run(Initial(), Reports(ts, None)), ts[0]) == ts[1..]
    ensures Run(Initial(), Reports(ts, None)).seen == set x | x in ts
    decreases |ts|
  {
    var n := |ts|;
    if n > 1 {
      var front, t := ts[..n - 1], ts[n - 1];
      assert ts == front + [t];
      NoDuplicatesFront(ts);
      ReportsWithoutPolicy(front);
      ReportsWithoutPolicyStep(front, t);
    } else {
      assert Reports(ts, None)[..0] == [];
      assert ts == [ts[0]];
    }
  }

  /** Each of `ts` reported in turn under the same error policy. */
  function Reports(ts: seq<Throwable>, policy: Option<ErrorPolicy>): (es: seq<Event>)
    ensures |es| == |ts|
    ensures forall i :: 0 <= i < |ts| ==> es[i] == Reported(ts[i], policy)
  {
    if ts == [] then [] else [Reported(ts[0], policy)] + Reports(ts[1..], policy)
  }

  /** Since the policy is asked about the primary, which is null until a
      failure is recorded, a policy that refuses null keeps every failure
      out: nothing is ever recorded and `await` reports nothing. */
  lemma {:induction false} PolicyRefusingNullRecordsNothing(ts: seq<Throwable>, p: ErrorPolicy)
    requires !p(None)
    ensures Run(Initial(), Reports(ts, Some(p))) == Initial()
    decreases |ts|
  {
    if ts != [] {
      var front := ts[..|ts| - 1];
      assert Reports(ts, Some(p))[..|ts| - 1] == Reports(front, Some(p));
      PolicyRefusingNullRecordsNothing(front, p);
    }
  }

  /** `await` calls `rethrow` twice: the second throws nothing, and afterwards
      both `thrown` and `lastThrown` are null. */
  lemma RethrowTwice(r: Record)
    ensures AfterRethrow(AfterRethrow(r).0).1.None?
    ensures AfterRethrow(AfterRethrow(r).0).0 == r.(thrown := None, lastThrown := None)
  {
  }

  /** The collector object. The error policy is `ReqImpl.onError`, which the
      collector reads; the model keeps it here. */
  class ExceptionCollector {
    var lastThrown: Option<Throwable>
    var thrown: Option<Throwable>
    var seen: set<Throwable>
    var suppressed: map<Throwable, seq<Throwable>>
    var onError: Option<ErrorPolicy>

    ghost function State(): Record
      reads this
    {
      Record(thrown, lastThrown, seen, suppressed)
    }

    ghost predicate Valid()
      reads this
    {
      Invariant(State())
    }

    constructor ()
      ensures Valid() && State() == Initial() && onError == None
    {
      lastThrown, thrown, seen, suppressed, onError := None, None, {}, map[], None;
    }

    /** `withErrorHandler(policy)`; `None` stands for null, which leaves no policy. */
    method SetPolicy(policy: Option<ErrorPolicy>)
      modifies this
      ensures State() == old(State()) && onError == policy
    {
      onError := policy;
    }

    method OnException(t: Throwable)
      requires Valid()
      modifies this
      ensures Valid() && onError == old(onError)
      ensures State() == AfterException(old(State()), old(onError), t)
    {
      AfterExceptionInvariant(State(), onError, t);
      if onError.Some? {
        if !onError.value(thrown) {
          return;
        }
      }
      if t in seen {
        return;
      }
      seen := seen + {t};
      if thrown.Some? {
        var p := thrown.value;
        var prior := if p in suppressed then suppressed[p] else [];
        suppressed := suppressed[p := prior + [t]];
      } else {
        thrown := Some(t);
      }
    }

    method Rethrow() returns (raised: Option<Throwable>)
      requires Valid()
      modifies this
      ensures Valid() && onError == old(onError)
      ensures (State(), raised) == AfterRethrow(old(State()))
    {
      lastThrown := thrown;
      thrown := None;
      raised := lastThrown;
    }
  }
}
