/**
 * The Prove step: apply the reference workload, wait for its gang to be placed, clean up if it is
 * not. What its error says about the cleanup is what the engine's sticky flag is set from, so it
 * must never be silent about a workload it may have left.
 */
module Provings {
  import opened Wrappers
  import opened Runs
  import opened EngineSpec
  import opened Machine

  const GANG_SIZE := 2

  /**
   * One look at the gang: the members placed and their nodes, if it could be read; and whether the
   * budget is spent after it.
   */
  datatype Poll = Poll(nodes: Option<map<string, string>>, expired: bool)

  datatype Gang = Placed | TimedOut(placed: nat) | Unread

  // ---- waiting for the gang ----

  /** Every member the first n looks found placed, each on the node it was first found on. */
  function Members(polls: seq<Poll>, n: nat): map<string, string>
    requires n <= |polls|
  {
    if n == 0 then map[]
    else if polls[n - 1].nodes.Some? then polls[n - 1].nodes.value + Members(polls, n - 1)
    else Members(polls, n - 1)
  }

  /** What the k-th look decides, if it decides anything. */
  function Verdict(polls: seq<Poll>, k: nat): Option<Gang>
    requires k < |polls|
  {
    var count := |Members(polls, k + 1)|;
    if polls[k].nodes.None? then Some(if polls[k].expired then TimedOut(count) else Unread)
    else if count >= GANG_SIZE then Some(Placed)
    else if polls[k].expired then Some(TimedOut(count))
    else None
  }

  /** The wait ends at the first look that decides. */
  predicate EndsAt(polls: seq<Poll>, k: nat, g: Gang) {
    k < |polls| && Verdict(polls, k) == Some(g) && forall i :: 0 <= i < k ==> Verdict(polls, i).None?
  }

  ghost predicate Ends(polls: seq<Poll>, g: Gang) { exists k: nat :: EndsAt(polls, k, g) }

  lemma EndsOnce(polls: seq<Poll>, g: Gang, g': Gang)
    requires Ends(polls, g) && Ends(polls, g')
    ensures g == g'
  {
    var k :| EndsAt(polls, k, g);
    var k' :| EndsAt(polls, k', g');
    assert k == k';
  }

  /** The members seen by the first n looks, each on the node the first of those looks that saw it had it on. */
  lemma {:induction false} MembersExactly(polls: seq<Poll>, n: nat, m: string)
    requires n <= |polls|
    ensures m in Members(polls, n) <==>
              exists i :: 0 <= i < n && polls[i].nodes.Some? && m in polls[i].nodes.value
    ensures m in Members(polls, n) ==>
              exists i :: 0 <= i < n && polls[i].nodes.Some? && m in polls[i].nodes.value &&
                Members(polls, n)[m] == polls[i].nodes.value[m] &&
                forall j :: 0 <= j < i && polls[j].nodes.Some? ==> m !in polls[j].nodes.value
  {
    if n > 0 {
      MembersExactly(polls, n - 1, m);
      if polls[n - 1].nodes.Some? && m in polls[n - 1].nodes.value {
        assert 0 <= n - 1 < n;
      }
    }
  }

  /** By the k-th look two members have been seen, and no look before it settled anything. */
  predicate GatheredAt(polls: seq<Poll>, k: int) {
    && 0 <= k < |polls| && |Members(polls, k + 1)| >= 2 && polls[k].nodes.Some?
    && forall i :: 0 <= i < k ==> polls[i].nodes.Some? && |Members(polls, i + 1)| < 2 && !polls[i].expired
  }

  /** The gang is placed once two members have been seen, before a look fails or the budget is spent. */
  lemma PlacedExactly(polls: seq<Poll>)
    ensures Ends(polls, Placed) <==> exists k :: GatheredAt(polls, k)
  {
    hide Members;
    if k :| GatheredAt(polls, k) {
      assert EndsAt(polls, k, Placed);
    }
    if Ends(polls, Placed) {
      var k: nat :| EndsAt(polls, k, Placed);
      forall i | 0 <= i < k
        ensures polls[i].nodes.Some? && |Members(polls, i + 1)| < 2 && !polls[i].expired
      {
        assert Verdict(polls, i).None?;
      }
      assert Verdict(polls, k) == Some(Placed);
      assert polls[k].nodes.Some?;
      assert |Members(polls, k + 1)| >= 2;
      assert GatheredAt(polls, k);
    }
  }

  /** A look that fails ends the wait as timed out if the budget is spent, and otherwise as unreadable. */
  lemma FailedLookEnds(polls: seq<Poll>, k: nat)
    requires k < |polls| && polls[k].nodes.None? && forall i :: 0 <= i < k ==> Verdict(polls, i).None?
    ensures Ends(polls, if polls[k].expired then TimedOut(|Members(polls, k + 1)|) else Unread)
  {
    assert EndsAt(polls, k, if polls[k].expired then TimedOut(|Members(polls, k + 1)|) else Unread);
  }

  /** The budget runs out in the end. */
  predicate Budgeted(polls: seq<Poll>) { |polls| > 0 && polls[|polls| - 1].expired }

  /** told lists the members once each. */
  ghost predicate Lists(told: seq<string>, members: map<string, string>) {
    (forall i, j :: 0 <= i < j < |told| ==> told[i] != told[j]) && forall m :: m in told <==> m in members
  }

  lemma ListsOneMore(told: seq<string>, members: map<string, string>, pod: string, node: string)
    requires Lists(told, members) && pod !in members
    ensures Lists(told + [pod], members[pod := node])
  {
  }

  /** Adds to placed the members of found it lacks, announcing each. */
  method Announce(placed: map<string, string>, told: seq<string>, found: map<string, string>)
    returns (all: map<string, string>, now: seq<string>)
    requires Lists(told, placed)
    ensures all == found + placed && Lists(now, all)
  {
    hide Lists;
    all, now := placed, told;
    var left := found.Keys;
    while left != {}
      invariant left <= found.Keys && Lists(now, all)
      invariant all == (map m | m in found && m !in left :: found[m]) + placed
      decreases |left|
    {
      var pod :| pod in left;
      if pod !in all {
        ListsOneMore(now, all, pod, found[pod]);
        all, now := all[pod := found[pod]], now + [pod];
      }
      left := left - {pod};
    }
  }

  /** Polls until every member is placed, the budget is spent or a look fails; announces each member once. */
  method AwaitGang(polls: seq<Poll>) returns (g: Gang, told: seq<string>)
    requires Budgeted(polls)
    ensures exists k: nat :: EndsAt(polls, k, g) && Lists(told, Members(polls, k + 1))
  {
    hide Lists;
    var placed: map<string, string> := map[];
    told := [];
    NoneListed();
    var i := 0;
    while true
      invariant 0 <= i < |polls| && placed == Members(polls, i) && Lists(told, placed)
      invariant forall j :: 0 <= j < i ==> Verdict(polls, j).None?
      decreases |polls| - i
    {
      if polls[i].nodes.None? {
        g := if polls[i].expired then TimedOut(|placed|) else Unread;
        assert EndsAt(polls, i, g);
        return;
      }
      placed, told := Announce(placed, told, polls[i].nodes.value);
      if |placed| >= GANG_SIZE {
        assert EndsAt(polls, i, Placed);
        return Placed, told;
      }
      if polls[i].expired {
        assert EndsAt(polls, i, TimedOut(|placed|));
        return TimedOut(|placed|), told;
      }
      i := i + 1;
    }
  }

  lemma NoneListed()
    ensures Lists([], map[])
  {
  }

  // ---- the step ----

  /** What the cluster answers each call with; landed says whether the create took, whatever it answered. */
  datatype Calls = Calls(ready: bool, ensured: bool, created: bool, landed: bool, gang: seq<Poll>, deleted: bool,
    absent: bool)

  datatype End = Proved(workload: Workload) | Failing(why: Failure)

  /** The create was attempted, so something of this run's may be in the cluster. */
  predicate Attempted(c: Calls) { c.ready && c.ensured }

  method Cleanup(deleted: bool, absent: bool) returns (why: Failure)
    ensures why == Confirmed <==> deleted && absent
    ensures why == Unconfirmed <==> !(deleted && absent)
  {
    if !deleted { return Unconfirmed; }
    if !absent { return Unconfirmed; }
    return Confirmed;
  }

  /**
   * A failure is plain exactly when nothing was created; confirmed exactly when the cleanup saw the
   * workload gone; and unconfirmed in every other case.
   */
  method RunProve(runId: string, c: Calls) returns (end: End)
    requires Budgeted(c.gang)
    ensures end == Proved(WorkloadOf(runId)) <==> Attempted(c) && c.created && Ends(c.gang, Placed)
    ensures end == Failing(Plain) <==> !Attempted(c)
    ensures end == Failing(Confirmed) <==> Attempted(c) && !(c.created && Ends(c.gang, Placed)) && c.deleted && c.absent
    ensures end == Failing(Unconfirmed) <==>
            Attempted(c) && !(c.created && Ends(c.gang, Placed)) && !(c.deleted && c.absent)
  {
    if !c.ready { return Failing(Plain); }
    if !c.ensured { return Failing(Plain); }
    if !c.created {
      var why := Cleanup(c.deleted, c.absent);
      return Failing(why);
    }
    var g, told := AwaitGang(c.gang);
    assert Ends(c.gang, g);
    if Ends(c.gang, Placed) { EndsOnce(c.gang, g, Placed); }
    if g != Placed {
      var why := Cleanup(c.deleted, c.absent);
      return Failing(why);
    }
    return Proved(Workload(PROVE_NAMESPACE, "Job", WorkloadName(runId)));
  }

  // ---- the machine's five calls are this step ----

  /** The step's end, as a function. */
  ghost function EndOf(runId: string, c: Calls): End {
    if !Attempted(c) then Failing(Plain)
    else if c.created && Ends(c.gang, Placed) then Proved(WorkloadOf(runId))
    else Failing(if c.deleted && c.absent then Confirmed else Unconfirmed)
  }

  ghost function Succeeds(c: Calls, call: StepCall): bool {
    match call
    case Whole => false
    case EnsureNamespace => c.ready && c.ensured
    case CreateJob => c.created
    case AwaitGang => Ends(c.gang, Placed)
    case DeleteJob => c.deleted
    case WaitAbsent => c.absent
  }

  /** Where the machine goes from a call answered as c has it. */
  ghost function Answered(c: Calls, i: int, scratch: Run, call: StepCall): Pc {
    match call
    case Whole => Stepping(i, scratch, Whole)
    case EnsureNamespace => if Succeeds(c, call) then Stepping(i, scratch, CreateJob) else MergeFail(i, scratch, Plain)
    case CreateJob => Stepping(i, scratch, if c.created then StepCall.AwaitGang else DeleteJob)
    case AwaitGang => if Succeeds(c, call) then MergeOk(i,
      scratch.(workload := WorkloadOf(scratch.id))) else Stepping(i, scratch, DeleteJob)
    case DeleteJob => if c.deleted then Stepping(i, scratch, WaitAbsent) else MergeFail(i, scratch, Unconfirmed)
    case WaitAbsent => MergeFail(i, scratch, if c.absent then Confirmed else Unconfirmed)
  }

  /** The five calls in order, each answered as c has it, up to the merge. */
  ghost function Walk(c: Calls, pc: Pc, fuel: nat): Pc
    decreases fuel
  {
    if fuel == 0 || !pc.Stepping? ||
      pc.call.Whole? then pc else Walk(c, Answered(c, pc.i, pc.scratch, pc.call), fuel - 1)
  }

  /** One move of a Prove goroutine is one step of the walk; a wait for absence succeeds only once it is absent. */
  lemma MovesAlong(w: Wiring, s: Sys, tid: nat, c: Calls, a: Answer)
    requires tid in s.threads && s.threads[tid].Executing? && s.threads[tid].pc.Stepping? &&
             !s.threads[tid].pc.call.Whole?
    requires a.ok == Succeeds(c, s.threads[tid].pc.call) && a.landed == c.landed
    requires s.threads[tid].pc.call.WaitAbsent? && c.absent ==> s.threads[tid].pc.scratch.id !in s.workloads
    ensures var t, s' := s.threads[tid], Next(w, s, Advance(tid, a));
            && s'.threads == s.threads[tid := Executing(t.epoch, Answered(c, t.pc.i, t.pc.scratch, t.pc.call))]
            && s'.workloads == (if t.pc.call.CreateJob? &&
              c.landed then s.workloads + {t.pc.scratch.id} else s.workloads)
  {
  }

  /** The walk ends at the merge the step's own end calls for. */
  lemma WalkEnds(c: Calls, i: int, scratch: Run)
    ensures Walk(c, Stepping(i, scratch, EnsureNamespace), 5)
            == (match EndOf(scratch.id, c)
                case Proved(workload) => MergeOk(i, scratch.(workload := workload))
                case Failing(why) => MergeFail(i, scratch, why))
  {
  }
}
