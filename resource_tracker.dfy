/** The bare-metal resource tracker: an instance claims a whole node, so a
    claim charges the node's full memory and disk, and a release charges
    nothing and refunds nothing. */
module ResourceTracker {
  import opened Wrappers
  import opened BaremetalTypes
  import Driver

  /** The `resources` dictionary the tracker updates in place. */
  class Resources {
    var vcpus: int
    var memoryMb: int
    var localGb: int
    var vcpusUsed: int
    var memoryMbUsed: int
    var localGbUsed: int

    constructor(r: ResourceReport)
      ensures Report() == r
    {
      vcpus := r.vcpus;
      memoryMb := r.memoryMb;
      localGb := r.localGb;
      vcpusUsed := r.vcpusUsed;
      memoryMbUsed := r.memoryMbUsed;
      localGbUsed := r.localGbUsed;
    }

    /** The dictionary's current contents. */
    function Report(): ResourceReport
      reads this
    {
      ResourceReport(vcpus, memoryMb, localGb, vcpusUsed, memoryMbUsed, localGbUsed)
    }
  }

  /** What `apply_instance_to_resources` makes of a report: with a positive
      sign the whole memory and the whole disk are added to their usage;
      otherwise nothing changes. */
  function Applied(r: ResourceReport, sign: int): (a: ResourceReport)
    ensures sign > 0 ==> a.memoryMbUsed == r.memoryMbUsed + r.memoryMb && a.localGbUsed == r.localGbUsed + r.localGb
    ensures sign <= 0 ==> a == r
    ensures a.(memoryMbUsed := r.memoryMbUsed, localGbUsed := r.localGbUsed) == r
  {
    var ratio := if sign > 0 then 1 else 0;
    r.(memoryMbUsed := r.memoryMbUsed + ratio * r.memoryMb,
       localGbUsed := r.localGbUsed + ratio * r.localGb)
  }

  /** `BareMetalResourceTracker.apply_instance_to_resources`. The instance
      is not read. */
  method ApplyInstanceToResources(resources: Resources, instance: Instance, sign: int)
    modifies resources
    ensures resources.Report() == Applied(old(resources.Report()), sign)
  {
    var ratio := if sign > 0 then 1 else 0;
    resources.memoryMbUsed := resources.memoryMbUsed + ratio * resources.memoryMb;
    resources.localGbUsed := resources.localGbUsed + ratio * resources.localGb;
  }

  // ---------------------------------------------------------------------
  // Sequences of claims and releases

  /** The report after applying instances with the given signs, in order. */
  function ApplyAll(r: ResourceReport, signs: seq<int>): ResourceReport
    decreases |signs|
  {
    if signs == [] then r else ApplyAll(Applied(r, signs[0]), signs[1..])
  }

  /** The number of claims (positive signs) among `signs`. */
  function Claims(signs: seq<int>): (k: nat)
    ensures k <= |signs|
  {
    if signs == [] then 0 else (if signs[0] > 0 then 1 else 0) + Claims(signs[1..])
  }

  /** After any mix of claims and releases, memory and disk usage have grown
      by one whole capacity per claim, releases having taken nothing back,
      and the capacities and the cpu figures are what they were. */
  lemma {:induction false} ApplyAllCharges(r: ResourceReport, signs: seq<int>)
    ensures var a := ApplyAll(r, signs);
      && a.memoryMbUsed == r.memoryMbUsed + Claims(signs) * r.memoryMb
      && a.localGbUsed == r.localGbUsed + Claims(signs) * r.localGb
      && a.vcpus == r.vcpus && a.memoryMb == r.memoryMb && a.localGb == r.localGb
      && a.vcpusUsed == r.vcpusUsed
    decreases |signs|
  {
    if signs != [] {
      var r1 := Applied(r, signs[0]);
      ApplyAllCharges(r1, signs[1..]);
      var k := Claims(signs[1..]);
      if signs[0] > 0 {
        OneMoreCapacity(r.memoryMbUsed, r.memoryMb, k);
        OneMoreCapacity(r.localGbUsed, r.localGb, k);
      }
    }
  }

  /** Charging one capacity and then `k` more is charging `k + 1`. */
  lemma OneMoreCapacity(used: int, capacity: int, k: nat)
    ensures (used + capacity) + k * capacity == used + (1 + k) * capacity
  {
  }

  /** A release after a claim leaves the claim's charge in place. */
  lemma ReleaseKeepsCharge(r: ResourceReport, claim: int, release: int)
    requires claim > 0 && release <= 0
    ensures Applied(Applied(r, claim), release) == Applied(r, claim)
    ensures Applied(Applied(r, claim), release).memoryMbUsed == r.memoryMbUsed + r.memoryMb
  {
  }

  /** Claiming a free node's report through the tracker charges the memory
      and disk the driver reports for the node once an instance is bound to
      it; the tracker leaves `vcpus_used` at 0 where the driver reports the
      node's cpus. */
  lemma ClaimMatchesBoundNode(n: Node, uuid: string, sign: int)
    requires n.registrationStatus == "done" && !TruthyString(n.instanceUuid)
    requires uuid != "" && sign > 0
    ensures var bound := Driver.NodeResources(n.(instanceUuid := Some(uuid)));
      var claimed := Applied(Driver.NodeResources(n), sign);
      && claimed.memoryMbUsed == bound.memoryMbUsed
      && claimed.localGbUsed == bound.localGbUsed
      && claimed.vcpusUsed == 0 && bound.vcpusUsed == n.cpus
      && claimed == bound.(vcpusUsed := 0)
  {
  }
}
