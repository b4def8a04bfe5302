/** The registry as seen by the validation pass: a lookup is a kind of entity
    and an identifier, and the registry either answers it or raises. Every
    `Exception` raised (not found, unauthorised, transport error, a failing
    token fetch) is collapsed to one answer, so the registry is modelled as
    a total oracle `resolves` from lookups to booleans.

    `CheckAll` is the loop shared by every group of the configuration: try
    each lookup in order, give up on the first one that fails.
 */
module Registry {

  /** The four registry fetch operations the configuration uses. */
  datatype Kind = Dataset | Person | Organisation | WorkflowTemplate

  /** One attempted fetch: which operation, and the identifier passed to it. */
  datatype Lookup = Lookup(kind: Kind, id: string)

  /** The answer of a validation pass: the boolean the source returns, the
      lookups it attempted in order, and how many times it invoked the
      credential factory. */
  datatype Verdict = Verdict(ok: bool, trace: seq<Lookup>, authCalls: nat)

  /** The lookups for a list of identifiers that all go to the same fetch operation. */
  function Lookups(kind: Kind, ids: seq<string>): (ls: seq<Lookup>)
    ensures |ls| == |ids|
    ensures forall i :: 0 <= i < |ls| ==> ls[i] == Lookup(kind, ids[i])
  {
    if ids == [] then [] else [Lookup(kind, ids[0])] + Lookups(kind, ids[1..])
  }

  /** What it means for a verdict to be the short-circuiting run of `plan`
      against `resolves`: the trace is a prefix of the plan, every lookup
      before the last one succeeded, a failing verdict ends on the lookup
      that failed, a passing verdict covered the whole plan, and the
      credential factory was invoked once per attempted lookup. */
  predicate IsShortCircuitRun(resolves: Lookup -> bool, plan: seq<Lookup>, v: Verdict)
  {
    && v.authCalls == |v.trace|
    && v.trace <= plan
    && (forall i :: 0 <= i < |v.trace| - 1 ==> resolves(v.trace[i]))
    && (v.ok ==> v.trace == plan && forall i :: 0 <= i < |plan| ==> resolves(plan[i]))
    && (!v.ok ==> |v.trace| > 0 && !resolves(v.trace[|v.trace| - 1]))
  }

  /** Runs the lookups of `plan` in order, each with freshly requested
      credentials, and gives up with `false` at the first lookup that fails;
      passes when none failed. That this is a short-circuiting run is
      `CheckAllIsShortCircuitRun`. */
  function CheckAll(resolves: Lookup -> bool, plan: seq<Lookup>): (v: Verdict)
    ensures v.authCalls == |v.trace| <= |plan|
    ensures v.ok ==> v.trace == plan
  {
    if plan == [] then Verdict(true, [], 0)
    else if !resolves(plan[0]) then Verdict(false, [plan[0]], 1)
    else
      var rest := CheckAll(resolves, plan[1..]);
      Verdict(rest.ok, [plan[0]] + rest.trace, rest.authCalls + 1)
  }

  /** The loop is a short-circuiting run of its plan, and passes exactly when
      every planned lookup resolves. */
  lemma {:induction false} CheckAllIsShortCircuitRun(resolves: Lookup -> bool, plan: seq<Lookup>)
    ensures IsShortCircuitRun(resolves, plan, CheckAll(resolves, plan))
    ensures CheckAll(resolves, plan).ok <==> forall i :: 0 <= i < |plan| ==> resolves(plan[i])
  {
    if plan != [] && resolves(plan[0]) {
      CheckAllIsShortCircuitRun(resolves, plan[1..]);
      assert forall i :: 1 <= i < |plan| ==> plan[i] == plan[1..][i - 1];
    }
  }

  /** Sequential composition with early return: the second check only
      contributes when the first one passed. */
  function AndThen(first: Verdict, second: Verdict): (v: Verdict)
    ensures v.ok == (first.ok && second.ok)
    ensures !first.ok ==> v == first
  {
    if !first.ok then first
    else Verdict(second.ok, first.trace + second.trace, first.authCalls + second.authCalls)
  }

  /** Any verdict satisfying the predicate is the one `CheckAll` computes. */
  lemma {:induction false} ShortCircuitRunIsCheckAll(resolves: Lookup -> bool, plan: seq<Lookup>, v: Verdict)
    requires IsShortCircuitRun(resolves, plan, v)
    ensures v == CheckAll(resolves, plan)
  {
    if plan != [] && resolves(plan[0]) {
      assert v.trace != [] && v.trace[0] == plan[0];
      var tail := Verdict(v.ok, v.trace[1..], v.authCalls - 1);
      assert v.trace == [plan[0]] + tail.trace;
      assert forall i :: 0 <= i < |tail.trace| - 1 ==> tail.trace[i] == v.trace[i + 1];
      assert IsShortCircuitRun(resolves, plan[1..], tail);
      ShortCircuitRunIsCheckAll(resolves, plan[1..], tail);
    }
  }

  /** `CheckAll` is exactly the short-circuiting run: a verdict is the
      result of `CheckAll` if and only if it satisfies the predicate. In
      particular the predicate admits only one verdict per plan. */
  lemma CheckAllCharacterised(resolves: Lookup -> bool, plan: seq<Lookup>, v: Verdict)
    ensures v == CheckAll(resolves, plan) <==> IsShortCircuitRun(resolves, plan, v)
  {
    CheckAllIsShortCircuitRun(resolves, plan);
    if IsShortCircuitRun(resolves, plan, v) {
      ShortCircuitRunIsCheckAll(resolves, plan, v);
    }
  }

  /** Reading a run position by position: each attempted lookup is the
      planned lookup at that position, and a non-empty plan is never left
      untried. */
  lemma RunFollowsPlan(resolves: Lookup -> bool, plan: seq<Lookup>, v: Verdict)
    requires IsShortCircuitRun(resolves, plan, v)
    ensures |v.trace| <= |plan|
    ensures plan != [] ==> v.trace != []
    ensures forall i :: 0 <= i < |v.trace| ==> v.trace[i] == plan[i]
  {
  }

  /** Two loops one after the other, each returning early on failure, behave
      as one loop over the concatenated plan. */
  lemma {:induction false} CheckAllAppend(resolves: Lookup -> bool, p: seq<Lookup>, q: seq<Lookup>)
    ensures CheckAll(resolves, p + q) == AndThen(CheckAll(resolves, p), CheckAll(resolves, q))
  {
    if p == [] {
      assert p + q == q;
    } else {
      assert (p + q)[0] == p[0];
      assert (p + q)[1..] == p[1..] + q;
      if resolves(p[0]) {
        CheckAllAppend(resolves, p[1..], q);
        var head, tail, second := CheckAll(resolves, p), CheckAll(resolves, p[1..]), CheckAll(resolves, q);
        assert head.trace == [p[0]] + tail.trace;
        if tail.ok {
          assert ([p[0]] + tail.trace) + second.trace == [p[0]] + (tail.trace + second.trace);
        }
      }
    }
  }

  /** The loop of the source, imperatively: walk the identifiers, fetch each
      with fresh credentials, return `false` on the first failure. */
  method ValidateIds(resolves: Lookup -> bool, kind: Kind, ids: seq<string>)
    returns (ok: bool, trace: seq<Lookup>, authCalls: nat)
    ensures Verdict(ok, trace, authCalls) == CheckAll(resolves, Lookups(kind, ids))
  {
    var plan := Lookups(kind, ids);
    trace := [];
    authCalls := 0;
    var i := 0;
    while i < |ids|
      invariant 0 <= i <= |ids|
      invariant trace == plan[..i] && authCalls == i
      invariant forall j :: 0 <= j < i ==> resolves(plan[j])
    {
      var l := Lookup(kind, ids[i]);
      trace := trace + [l];
      authCalls := authCalls + 1;
      if !resolves(l) {
        assert trace == plan[..i + 1];
        ShortCircuitRunIsCheckAll(resolves, plan, Verdict(false, trace, authCalls));
        return false, trace, authCalls;
      }
      i := i + 1;
    }
    assert trace == plan;
    ok := true;
    ShortCircuitRunIsCheckAll(resolves, plan, Verdict(ok, trace, authCalls));
  }
}
