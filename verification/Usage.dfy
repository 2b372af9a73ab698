/** What the quotas count: check_user_quota of instances/utils.py and the
    charge of a clone in instances/jobs.py, as sums over VMs and clone jobs. */
module Usages {
  import opened Wrappers

  type Uuid = nat

  /** vCPUs, memory in MiB, disks in GiB. */
  datatype Size = Size(cpus: int, memory: int, disk: int)

  datatype Kind = Cpus | Memory | Disk

  const ZERO := Size(0, 0, 0)

  function Of(a: Size, k: Kind): int {
    match k case Cpus => a.cpus case Memory => a.memory case Disk => a.disk
  }

  function Plus(a: Size, b: Size): Size { Size(a.cpus + b.cpus, a.memory + b.memory, a.disk + b.disk) }

  predicate AtMost(a: Size, b: Size) { a.cpus <= b.cpus && a.memory <= b.memory && a.disk <= b.disk }

  predicate Natural(a: Size) { AtMost(ZERO, a) }

  function Max(a: int, b: int): int { if a >= b then a else b }

  // -- disks --------------------------------------------------------------------------

  /** disk_gib; None: a disk without a size. */
  function DiskGib(disks: seq<Option<nat>>): nat {
    if disks == [] then 0
    else (if disks[0].Some? then disks[0].value / 0x4000_0000 else 0) + DiskGib(disks[1..])
  }

  /** What resize_disk asks for the disks it grows: None leaves a disk as it is. */
  function Grown(disks: seq<Option<nat>>, gib: seq<Option<nat>>): seq<Option<nat>>
    requires |disks| == |gib|
  {
    if disks == [] then []
    else [if gib[0].Some? && disks[0].Some? && gib[0].value * 0x4000_0000 > disks[0].value
          then Some(gib[0].value * 0x4000_0000)
          else disks[0]] + Grown(disks[1..], gib[1..])
  }

  /** What resize_disk asks the quota for: the growth of those disks, in whole GiB. */
  function AskedGib(disks: seq<Option<nat>>, gib: seq<Option<nat>>): int
    requires |disks| == |gib|
  {
    if disks == [] then 0
    else (if gib[0].Some? && disks[0].Some? && gib[0].value * 0x4000_0000 > disks[0].value
          then gib[0].value - disks[0].value / 0x4000_0000 else 0) + AskedGib(disks[1..], gib[1..])
  }

  /** The quota is asked for exactly what the disks grow by. */
  lemma {:induction false} ResizeAsksWhatItAdds(disks: seq<Option<nat>>, gib: seq<Option<nat>>)
    requires |disks| == |gib|
    ensures DiskGib(Grown(disks, gib)) == DiskGib(disks) + AskedGib(disks, gib)
    ensures AskedGib(disks, gib) >= 0
  {
    if disks != [] {
      ResizeAsksWhatItAdds(disks[1..], gib[1..]);
      assert Grown(disks, gib)[1..] == Grown(disks[1..], gib[1..]);
    }
  }

  /** A disk grows to the GiB asked, and none shrinks. */
  lemma {:induction false} GrownAt(disks: seq<Option<nat>>, gib: seq<Option<nat>>, i: nat)
    requires i < |disks| == |gib|
    ensures |Grown(disks, gib)| == |disks|
    ensures Grown(disks, gib)[i] ==
            if gib[i].Some? && disks[i].Some? && disks[i].value < gib[i].value * 1024 * 1024 * 1024
            then Some(gib[i].value * 1024 * 1024 * 1024) else disks[i]
  {
    var rest := Grown(disks[1..], gib[1..]);
    GrownLength(disks[1..], gib[1..]);
    if i > 0 { GrownAt(disks[1..], gib[1..], i - 1); }
  }

  lemma {:induction false} GrownLength(disks: seq<Option<nat>>, gib: seq<Option<nat>>)
    requires |disks| == |gib|
    ensures |Grown(disks, gib)| == |disks|
  {
    if disks != [] { GrownLength(disks[1..], gib[1..]); }
  }

  // -- clones -------------------------------------------------------------------------

  /** What clone_data keeps of a clone: the source when the request was
      planned, and the vCPUs and memory asked. */
  datatype Clone = Clone(source: Size, cpus: nat, memory: nat)

  /** The larger of each, as a resize that fails leaves the source's size. */
  function Charge(c: Clone): Size {
    Size(Max(c.cpus, c.source.cpus), Max(c.memory, c.source.memory), c.source.disk)
  }

  /** The clone of a source that is now of this size, by which resizes worked;
      an amount asked as the source has it is not set again. */
  function Made(c: Clone, now: Size, cpusDone: bool, memoryDone: bool): Size {
    Size(if cpusDone && c.cpus != c.source.cpus then c.cpus else now.cpus,
         if memoryDone && c.memory != c.source.memory then c.memory else now.memory, now.disk)
  }

  /** Of the vCPUs and the memory, the charge is what was asked or what the
      source has, whichever is more; of the disks, what the source has. */
  lemma ChargeIs(c: Clone)
    ensures var a := Charge(c);
            && c.cpus <= a.cpus && c.source.cpus <= a.cpus && a.cpus in {c.cpus, c.source.cpus}
            && c.memory <= a.memory && c.source.memory <= a.memory && a.memory in {c.memory, c.source.memory}
            && a.disk == c.source.disk
  {
  }

  /** A clone never counts more as a VM than as a job, exactly when its source
      did not outgrow the charge before the job held it. */
  lemma CloneNeverGrowsIff(c: Clone, now: Size)
    ensures AtMost(now, Charge(c)) <==>
            forall cpusDone, memoryDone :: AtMost(Made(c, now, cpusDone, memoryDone), Charge(c))
  {
    if forall cpusDone, memoryDone :: AtMost(Made(c, now, cpusDone, memoryDone), Charge(c)) {
      assert AtMost(Made(c, now, false, false), Charge(c));
    }
  }

  /** Nothing holds the source between the plan and the admission: another
      owner resizes it, and the clone takes vCPUs and memory that were not
      charged, unless it was asked for other amounts than the source had. */
  lemma SourceGrowsBeforeAdmission()
    ensures var c := Clone(Size(2, 1024, 10), 2, 1024);
            var now := Size(8, 4096, 10);
            && Charge(c) == Size(2, 1024, 10) && Made(c, now, true, true) == now
            && Made(c.(cpus := 1, memory := 2048), now, true, true) == Size(1, 2048, 10)
            && Made(c.(cpus := 1, memory := 2048), now, false, false) == now
  {
  }

  // -- sums ---------------------------------------------------------------------------

  function At(m: map<Uuid, Size>, u: Uuid, k: Kind): int { if u in m then Of(m[u], k) else 0 }

  /** What the VMs with UUIDs below n have of k together. */
  function Total(n: nat, m: map<Uuid, Size>, k: Kind): int {
    if n == 0 then 0 else Total(n - 1, m, k) + At(m, n - 1, k)
  }

  /** Every VM counted, as a job or as a VM, with no less than it has. */
  predicate Covered(p: map<Uuid, Size>, clones: map<Uuid, Size>, vms: map<Uuid, Size>) {
    forall u | u in p :: (u in clones && AtMost(p[u], clones[u])) || (u in vms && AtMost(p[u], vms[u]))
  }

  predicate Naturals(m: map<Uuid, Size>) { forall u | u in m :: Natural(m[u]) }

  lemma CoveredAt(p: map<Uuid, Size>, clones: map<Uuid, Size>, vms: map<Uuid, Size>, u: Uuid, k: Kind)
    requires Covered(p, clones, vms) && Naturals(clones) && Naturals(vms)
    ensures At(p, u, k) <= At(clones, u, k) + At(vms, u, k)
  {
    if u in clones { assert Natural(clones[u]); }
    if u in vms { assert Natural(vms[u]); }
  }

  lemma {:induction false} CoveredTotal(n: nat, p: map<Uuid, Size>, clones: map<Uuid, Size>, vms: map<Uuid, Size>,
                                        k: Kind)
    requires Covered(p, clones, vms) && Naturals(clones) && Naturals(vms)
    ensures Total(n, p, k) <= Total(n, clones, k) + Total(n, vms, k)
  {
    if n > 0 {
      CoveredTotal(n - 1, p, clones, vms, k);
      CoveredAt(p, clones, vms, n - 1, k);
    }
  }

  /** Counted exactly, when no VM is counted twice. */
  lemma {:induction false} ExactTotal(n: nat, p: map<Uuid, Size>, clones: map<Uuid, Size>, vms: map<Uuid, Size>,
                                      k: Kind)
    requires forall u :: At(p, u, k) == At(clones, u, k) + At(vms, u, k)
    ensures Total(n, p, k) == Total(n, clones, k) + Total(n, vms, k)
  {
    if n > 0 {
      ExactTotal(n - 1, p, clones, vms, k);
      assert At(p, n - 1, k) == At(clones, n - 1, k) + At(vms, n - 1, k);
    }
  }

  lemma {:induction false} TotalSame(n: nat, p: map<Uuid, Size>, q: map<Uuid, Size>, k: Kind)
    requires forall u | 0 <= u < n :: At(p, u, k) == At(q, u, k)
    ensures Total(n, p, k) == Total(n, q, k)
  {
    if n > 0 {
      TotalSame(n - 1, p, q, k);
      assert At(p, n - 1, k) == At(q, n - 1, k);
    }
  }

  /** One VM changed, the total changes by as much. */
  lemma {:induction false} TotalChanged(n: nat, p: map<Uuid, Size>, u: Uuid, size: Size, k: Kind)
    requires u < n
    ensures Total(n, p[u := size], k) == Total(n, p, k) - At(p, u, k) + Of(size, k)
  {
    if u == n - 1 {
      TotalSame(n - 1, p, p[u := size], k);
    } else {
      TotalChanged(n - 1, p, u, size, k);
    }
  }
}
