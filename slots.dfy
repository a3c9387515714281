/** The per-part activity that Station, Conveyor and Drain run for every part:
    request a slot of the node's resource, hold it for a fixed time, then
    release it and (except for a drain) hand the part on. simpy's Resource is
    not part of this model; a node keeps the number of slots its activities
    hold, and a slot is granted only while that number is below capacity. */
module Slots {

  /** Where one part's activity at a node stands. */
  datatype Phase =
    | Requested                   // waiting for a slot
    | InService(readyAt: real)    // holds a slot until readyAt
    | ForwardedHolding            // handed on inside the `with` block, slot still held
    | ReleasedPending             // slot released, not handed on yet
    | Done                        // finished; no slot held
    | Aborted(afterService: bool) // the activity raised; the `with` block released its slot

  predicate HoldsSlot(p: Phase) {
    p.InService? || p.ForwardedHolding?
  }

  /** The activity got past its timed wait. */
  predicate Served(p: Phase) {
    p.ForwardedHolding? || p.ReleasedPending? || p.Done? || (p.Aborted? && p.afterService)
  }

  /** The newer simulator's activities never hand a part on while holding a slot. */
  predicate ForwardsAfterRelease(p: Phase) {
    !p.ForwardedHolding?
  }

  datatype Job<P> = Job(item: P, phase: Phase)

  /** The number of jobs whose phase satisfies f. */
  function CountIf<P>(jobs: seq<Job<P>>, f: Phase -> bool): (n: nat)
    ensures n <= |jobs|
  {
    if jobs == [] then 0
    else CountIf(jobs[..|jobs| - 1], f) + (if f(jobs[|jobs| - 1].phase) then 1 else 0)
  }

  lemma CountIfAppend<P>(jobs: seq<Job<P>>, j: Job<P>, f: Phase -> bool)
    ensures CountIf(jobs + [j], f) == CountIf(jobs, f) + (if f(j.phase) then 1 else 0)
  {
    assert (jobs + [j])[..|jobs|] == jobs;
  }

  /** Changing one job's phase changes the count by that job's contribution only. */
  lemma {:induction false} CountIfUpdate<P>(jobs: seq<Job<P>>, i: nat, j: Job<P>, f: Phase -> bool)
    requires i < |jobs|
    ensures CountIf(jobs[i := j], f)
            == CountIf(jobs, f) - (if f(jobs[i].phase) then 1 else 0) + (if f(j.phase) then 1 else 0)
  {
    var n := |jobs|;
    if i == n - 1 {
      assert jobs[i := j][..n - 1] == jobs[..n - 1];
    } else {
      CountIfUpdate(jobs[..n - 1], i, j, f);
      assert jobs[i := j][..n - 1] == jobs[..n - 1][i := j];
    }
  }
}
