/** One user's quota: check_user_quota of instances/utils.py, and the changes
    of instances/views.py it guards, against a worker that records clones. */
module Quotas {
  import opened Wrappers
  import opened Sets
  import opened Usages

  /** A VM as it runs and as it starts next, the same while it is shut off. */
  datatype Vm = Vm(active: bool, live: Size, config: Size)

  /** A VM counts the larger of its two definitions, amount by amount. */
  function Counted(vm: Vm): Size {
    Size(Max(vm.live.cpus, vm.config.cpus), Max(vm.live.memory, vm.config.memory), Max(vm.live.disk, vm.config.disk))
  }

  /** Neither what it has nor what it starts with next is more, and one of them is as much. */
  lemma CountedIs(vm: Vm, k: Kind)
    ensures Of(vm.live, k) <= Of(Counted(vm), k) && Of(vm.config, k) <= Of(Counted(vm), k)
    ensures Of(Counted(vm), k) in {Of(vm.live, k), Of(vm.config, k)}
  {
  }

  /** A clone job that is active or uncertain; now: its source when the job took its claim. */
  datatype Job = Job(clone: Clone, now: Size)

  /** A negative limit limits nothing. */
  datatype Limits = Limits(instances: int, cpus: int, memory: int, disk: int)

  function Limit(l: Limits, k: Kind): int {
    match k case Cpus => l.cpus case Memory => l.memory case Disk => l.disk
  }

  datatype Answer = Fine | Unverified | TooMany(total: int) | Exceeded(kind: Kind, total: int)

  /** The sizes of the user's VMs, and of their clones not recorded yet. */
  function Sizes(vms: map<Uuid, Vm>): map<Uuid, Size> {
    map u | u in vms :: Counted(vms[u])
  }

  function Usage(vms: map<Uuid, Vm>, jobs: map<Uuid, Job>): map<Uuid, Size> {
    map u | u in vms.Keys + jobs.Keys :: if u in vms then Counted(vms[u]) else Charge(jobs[u].clone)
  }

  /** What the VMs have as they run, and each pending clone as it comes to be made. */
  function AsRunning(vms: map<Uuid, Vm>, jobs: map<Uuid, Job>, cpusDone: bool, memoryDone: bool): map<Uuid, Size> {
    map u | u in vms.Keys + jobs.Keys ::
      if u in vms then vms[u].live else Made(jobs[u].clone, jobs[u].now, cpusDone, memoryDone)
  }

  /** The same at the VMs' next start. */
  function AtNextStart(vms: map<Uuid, Vm>, jobs: map<Uuid, Job>, cpusDone: bool, memoryDone: bool): map<Uuid, Size> {
    map u | u in vms.Keys + jobs.Keys ::
      if u in vms then vms[u].config else Made(jobs[u].clone, jobs[u].now, cpusDone, memoryDone)
  }

  /** No VM has more than it had, and none is new. */
  predicate NoMore(p: map<Uuid, Size>, q: map<Uuid, Size>) {
    forall u | u in q :: u in p && AtMost(q[u], p[u])
  }

  /** What may happen to the user's VMs beside a request of theirs: the worker
      records a clone and ends its job, a VM shrinks or goes. */
  datatype Event =
    | Records(uuid: Uuid, cpusDone: bool, memoryDone: bool)
    | JobEnds(uuid: Uuid)
    | Shrinks(uuid: Uuid, vm: Vm)
    | Goes(uuid: Uuid)

  predicate JobOk(j: Job) { AtMost(j.now, Charge(j.clone)) && Natural(Charge(j.clone)) && Natural(j.now) }

  predicate VmOk(vm: Vm) { Natural(vm.live) && Natural(vm.config) && (!vm.active ==> vm.live == vm.config) }

  predicate Untouched(vms: map<Uuid, Vm>, vms': map<Uuid, Vm>, mine: set<Uuid>) {
    forall u | u in mine :: (u in vms) == (u in vms') && (u in vms ==> vms[u] == vms'[u])
  }

  /** Every VM of the usage is counted, as one of clones or as one of rows. */
  predicate Seen(used: map<Uuid, Size>, clones: map<Uuid, Size>, rows: set<Uuid>) {
    forall u | u in used :: u in rows || (u in clones && AtMost(used[u], clones[u]))
  }

  /** What was read is no less than what is there. */
  predicate Enough(used: map<Uuid, Size>, read: map<Uuid, Size>) {
    forall u | u in used && u in read :: AtMost(used[u], read[u])
  }

  lemma SeenStays(p: map<Uuid, Size>, q: map<Uuid, Size>, clones: map<Uuid, Size>, rows: set<Uuid>,
                  read: map<Uuid, Size>)
    requires NoMore(p, q)
    ensures Seen(p, clones, rows) ==> Seen(q, clones, rows)
    ensures Enough(p, read) ==> Enough(q, read)
  {
  }

  function Below(rows: set<Uuid>, n: nat): set<Uuid> {
    set u | u in rows && u < n
  }

  /** What the worker does between the queries moves VMs into the rows, and
      none of a job out of them. */
  lemma SeenFollows(vms: map<Uuid, Vm>, jobs: map<Uuid, Job>, vms': map<Uuid, Vm>, jobs': map<Uuid, Job>,
                    clones: map<Uuid, Size>)
    requires NoMore(Usage(vms, jobs), Usage(vms', jobs')) && jobs'.Keys <= jobs.Keys
    requires forall u | u in jobs' && u in vms :: u in vms'
    ensures Seen(Usage(vms, jobs), clones, vms.Keys) ==> Seen(Usage(vms', jobs'), clones, vms'.Keys)
  {
  }

  lemma AllRead(used: map<Uuid, Size>, clones: map<Uuid, Size>, rows: set<Uuid>, read: map<Uuid, Size>)
    requires Seen(used, clones, rows) && Enough(used, read) && rows <= read.Keys
    ensures Covered(used, clones, read)
  {
  }

  /** A size just read, kept with those read before. */
  lemma ReadOne(used: map<Uuid, Size>, read: map<Uuid, Size>, rows: set<Uuid>, u: Uuid, size: Size)
    requires Enough(used, read) && Naturals(read) && read.Keys == Below(rows, u) && u in rows
    requires Natural(size) && (u in used ==> used[u] == size)
    ensures Enough(used, read[u := size]) && Naturals(read[u := size]) && read[u := size].Keys == Below(rows, u + 1)
  {
  }

  lemma AllReadQuiet(vms: map<Uuid, Vm>, unreadable: set<Uuid>, read: map<Uuid, Size>)
    requires read.Keys == vms.Keys && forall w | w in read :: w !in unreadable && w in vms && read[w] == Counted(vms[w])
    ensures read == Sizes(vms) && vms.Keys !! unreadable
  {
  }

  /** An increase: a change that adds nothing cannot exceed a quota. */
  predicate Adds(instances: int, amount: Size) {
    instances > 0 || amount.cpus > 0 || amount.memory > 0 || amount.disk > 0
  }

  /** Each limited total, with what is asked, is within its limit. */
  ghost predicate Fits(l: Limits, instances: int, amount: Size, n: nat, used: map<Uuid, Size>) {
    && (l.instances >= 0 ==> instances + |used.Keys| <= l.instances)
    && FitsAll(l, amount, n, used)
  }

  ghost predicate FitsAll(l: Limits, amount: Size, n: nat, used: map<Uuid, Size>) {
    forall k :: FitsOne(l, amount, n, used, k)
  }

  predicate FitsOne(l: Limits, amount: Size, n: nat, used: map<Uuid, Size>, k: Kind) {
    Limit(l, k) >= 0 ==> Of(amount, k) + Total(n, used, k) <= Limit(l, k)
  }

  /** Every limited total is within its limit. */
  ghost predicate Within(l: Limits, n: nat, used: map<Uuid, Size>) { Fits(l, 0, ZERO, n, used) }

  /** What fitted fits when less is used. */
  lemma FitsShrinks(l: Limits, instances: int, amount: Size, n: nat, p: map<Uuid, Size>, q: map<Uuid, Size>)
    requires Fits(l, instances, amount, n, p) && NoMore(p, q) && Naturals(p)
    ensures Fits(l, instances, amount, n, q)
  {
    FewerKeys(p, q);
    forall k ensures FitsOne(l, amount, n, q, k) {
      CoveredTotal(n, q, map[], p, k);
      Nothing(n, k);
      assert FitsOne(l, amount, n, p, k);
    }
  }

  /** The limits hold for the VMs as they run and as they start next,
      whichever of the pending clones' resizes work. */
  ghost predicate RoomFor(l: Limits, instances: int, amount: Size, n: nat, vms: map<Uuid, Vm>, jobs: map<Uuid, Job>) {
    && (l.instances >= 0 ==> instances + |vms.Keys + jobs.Keys| <= l.instances)
    && forall k, c, m :: RoomOf(l, amount, n, AsRunning(vms, jobs, c, m), k)
                         && RoomOf(l, amount, n, AtNextStart(vms, jobs, c, m), k)
  }

  predicate RoomOf(l: Limits, amount: Size, n: nat, used: map<Uuid, Size>, k: Kind) {
    match k
    case Cpus => l.cpus >= 0 ==> amount.cpus + Total(n, used, Cpus) <= l.cpus
    case Memory => l.memory >= 0 ==> amount.memory + Total(n, used, Memory) <= l.memory
    case Disk => l.disk >= 0 ==> amount.disk + Total(n, used, Disk) <= l.disk
  }

  /** What fits has room. */
  lemma FitsHasRoom(l: Limits, instances: int, amount: Size, n: nat, vms: map<Uuid, Vm>, jobs: map<Uuid, Job>)
    requires Fits(l, instances, amount, n, Usage(vms, jobs))
    requires (forall u | u in vms :: VmOk(vms[u])) && (forall u | u in jobs :: JobOk(jobs[u]))
    ensures RoomFor(l, instances, amount, n, vms, jobs)
  {
    var p := Usage(vms, jobs);
    assert p.Keys == vms.Keys + jobs.Keys;
    forall k, c, m ensures RoomOf(l, amount, n, AsRunning(vms, jobs, c, m), k)
                           && RoomOf(l, amount, n, AtNextStart(vms, jobs, c, m), k)
    {
      UsageCovers(vms, jobs, c, m);
      LessHasRoom(l, amount, n, p, AsRunning(vms, jobs, c, m), k);
      LessHasRoom(l, amount, n, p, AtNextStart(vms, jobs, c, m), k);
    }
  }

  lemma LessHasRoom(l: Limits, amount: Size, n: nat, p: map<Uuid, Size>, q: map<Uuid, Size>, k: Kind)
    requires FitsOne(l, amount, n, p, k) && NoMore(p, q) && Naturals(p)
    ensures RoomOf(l, amount, n, q, k)
  {
    CoveredTotal(n, q, map[], p, k);
    Nothing(n, k);
  }

  lemma UsageCovers(vms: map<Uuid, Vm>, jobs: map<Uuid, Job>, c: bool, m: bool)
    requires (forall u | u in vms :: VmOk(vms[u])) && (forall u | u in jobs :: JobOk(jobs[u]))
    ensures NoMore(Usage(vms, jobs), AsRunning(vms, jobs, c, m))
    ensures NoMore(Usage(vms, jobs), AtNextStart(vms, jobs, c, m))
    ensures Naturals(Usage(vms, jobs))
  {
    forall u | u in jobs && u !in vms ensures AtMost(Made(jobs[u].clone, jobs[u].now, c, m), Charge(jobs[u].clone)) {
      CloneNeverGrowsIff(jobs[u].clone, jobs[u].now);
    }
  }

  lemma {:induction false} Nothing(n: nat, k: Kind)
    ensures Total(n, map[], k) == 0
  {
    if n > 0 { Nothing(n - 1, k); }
  }

  /** A change that adds no more than was asked leaves the totals within. */
  lemma AskedFits(l: Limits, instances: int, amount: Size, n: nat, p: map<Uuid, Size>, u: Uuid, size: Size)
    requires u < n && Fits(l, instances, amount, n, p)
    requires instances == if u in p then 0 else 1
    requires forall k :: Of(size, k) <= At(p, u, k) + Of(amount, k)
    ensures Within(l, n, p[u := size])
  {
    var q := p[u := size];
    assert q.Keys == p.Keys + {u};
    forall k ensures FitsOne(l, ZERO, n, q, k) {
      TotalChanged(n, p, u, size, k);
      assert FitsOne(l, amount, n, p, k);
    }
  }

  lemma WithVm(vms: map<Uuid, Vm>, jobs: map<Uuid, Job>, u: Uuid, vm: Vm)
    ensures Usage(vms[u := vm], jobs) == Usage(vms, jobs)[u := Counted(vm)]
  {
  }

  lemma WithJob(vms: map<Uuid, Vm>, jobs: map<Uuid, Job>, u: Uuid, job: Job)
    requires u !in vms
    ensures Usage(vms, jobs[u := job]) == Usage(vms, jobs)[u := Charge(job.clone)]
  {
  }

  /** So with one VM of the table, or one job. */
  lemma VmFits(l: Limits, instances: int, amount: Size, n: nat, vms: map<Uuid, Vm>, jobs: map<Uuid, Job>, u: Uuid,
               vm: Vm)
    requires u < n && Fits(l, instances, amount, n, Usage(vms, jobs))
    requires if instances == 0 then u in vms else instances == 1 && u !in vms && u !in jobs
    requires forall k :: Of(Counted(vm), k) <= At(Usage(vms, jobs), u, k) + Of(amount, k)
    ensures Within(l, n, Usage(vms[u := vm], jobs))
  {
    var p := Usage(vms, jobs);
    assert u in p <==> instances == 0;
    AskedFits(l, instances, amount, n, p, u, Counted(vm));
    WithVm(vms, jobs, u, vm);
  }

  lemma JobFits(l: Limits, n: nat, vms: map<Uuid, Vm>, jobs: map<Uuid, Job>, u: Uuid, job: Job)
    requires u < n && Fits(l, 1, Charge(job.clone), n, Usage(vms, jobs)) && u !in vms && u !in jobs
    ensures Within(l, n, Usage(vms, jobs[u := job]))
  {
    var p := Usage(vms, jobs);
    assert u !in p;
    AskedFits(l, 1, Charge(job.clone), n, p, u, Charge(job.clone));
    WithJob(vms, jobs, u, job);
  }

  lemma SmallerVm(vms: map<Uuid, Vm>, jobs: map<Uuid, Job>, u: Uuid, vm: Vm)
    requires u in vms && AtMost(Counted(vm), Counted(vms[u]))
    ensures NoMore(Usage(vms, jobs), Usage(vms[u := vm], jobs))
  {
  }

  function Only(k: Kind, amount: int): Size {
    match k case Cpus => Size(amount, 0, 0) case Memory => Size(0, amount, 0) case Disk => Size(0, 0, amount)
  }

  /** A VM with amount more of k, running and at its next start. */
  function Resized(vm: Vm, k: Kind, amount: int): Vm {
    Vm(vm.active, Plus(vm.live, Only(k, amount)), Plus(vm.config, Only(k, amount)))
  }

  lemma ResizedCounts(vm: Vm, k: Kind, amount: int)
    requires VmOk(vm) && Of(vm.live, k) + amount >= 0 && (vm.active ==> amount >= 0)
    ensures VmOk(Resized(vm, k, amount))
    ensures forall j :: Of(Counted(Resized(vm, k, amount)), j) == Of(Counted(vm), j) + Of(Only(k, amount), j)
  {
  }

  /** The loops that add up sizes. */
  method AddUp(into: Size, n: nat, sizes: map<Uuid, Size>) returns (total: Size)
    ensures forall k :: Of(total, k) == Of(into, k) + Total(n, sizes, k)
  {
    total := into;
    for u := 0 to n
      invariant forall k :: Of(total, k) == Of(into, k) + Total(u, sizes, k)
    {
      if u in sizes {
        total := Plus(total, sizes[u]);
      }
    }
  }

  lemma CountCovers(used: map<Uuid, Size>, vms: map<Uuid, Vm>, clones: map<Uuid, Size>)
    requires Seen(used, clones, vms.Keys)
    ensures |used.Keys| <= |vms| + |clones|
  {
    CoveredIsSmaller(used.Keys, vms.Keys, clones.Keys);
  }

  lemma FewerKeys(p: map<Uuid, Size>, q: map<Uuid, Size>)
    requires NoMore(p, q)
    ensures |q.Keys| <= |p.Keys|
  {
    SubsetIsSmaller(q.Keys, p.Keys);
  }

  /** The pending clones and the VMs are the usage, each once. */
  predicate Exactly(vms: map<Uuid, Vm>, jobs: map<Uuid, Job>, clones: map<Uuid, Size>) {
    clones.Keys == jobs.Keys - vms.Keys && forall u | u in clones :: clones[u] == Charge(jobs[u].clone)
  }

  lemma ExactlyAt(vms: map<Uuid, Vm>, jobs: map<Uuid, Job>, clones: map<Uuid, Size>, u: Uuid, k: Kind)
    requires Exactly(vms, jobs, clones)
    ensures At(Usage(vms, jobs), u, k) == At(clones, u, k) + At(Sizes(vms), u, k)
  {
    assert u in clones <==> u in jobs && u !in vms;
  }

  lemma ExactlyCounts(vms: map<Uuid, Vm>, jobs: map<Uuid, Job>, clones: map<Uuid, Size>)
    requires Exactly(vms, jobs, clones)
    ensures |Usage(vms, jobs).Keys| == |vms| + |clones|
  {
    assert Usage(vms, jobs).Keys == vms.Keys + clones.Keys;
  }

  lemma ExactlyTotals(vms: map<Uuid, Vm>, jobs: map<Uuid, Job>, clones: map<Uuid, Size>, n: nat, k: Kind)
    requires Exactly(vms, jobs, clones)
    ensures Total(n, Usage(vms, jobs), k) == Total(n, clones, k) + Total(n, Sizes(vms), k)
  {
    forall u ensures At(Usage(vms, jobs), u, k) == At(clones, u, k) + At(Sizes(vms), u, k) {
      ExactlyAt(vms, jobs, clones, u, k);
    }
    ExactTotal(n, Usage(vms, jobs), clones, Sizes(vms), k);
  }

  class Account {
    const limits: Limits
    const superuser: bool
    const bound: nat            // above every UUID
    const unreadable: set<Uuid> // VMs whose host cannot be read
    const quiet: bool           // nothing happens beside the request

    var vms: map<Uuid, Vm>      // recorded, the user an owner, no template
    var jobs: map<Uuid, Job>    // by the UUID planned for the clone

    predicate Valid()
      reads this
    {
      && (forall u | u in vms :: u < bound && VmOk(vms[u]))
      && (forall u | u in jobs :: u < bound && JobOk(jobs[u]))
    }

    function Used(): map<Uuid, Size>
      reads this
    {
      Usage(vms, jobs)
    }

    /** A step of another, and never one on a VM this request holds. */
    method Happens(e: Event, mine: set<Uuid>)
      requires Valid()
      modifies this`vms, this`jobs
      ensures Valid() && NoMore(old(Used()), Used())
      ensures jobs.Keys <= old(jobs).Keys && (forall u | u in jobs :: jobs[u] == old(jobs)[u])
      ensures forall u | u in jobs && u in old(vms) :: u in vms
      ensures Untouched(old(vms), vms, mine)
    {
      match e
      case Records(u, cpusDone, memoryDone) =>
        if u in jobs && u !in vms && u !in mine {
          var size := Made(jobs[u].clone, jobs[u].now, cpusDone, memoryDone);
          vms := vms[u := Vm(false, size, size)];
        }
      case JobEnds(u) =>
        jobs := jobs - {u};
      case Shrinks(u, vm) =>
        if u in vms && u !in mine && VmOk(vm) && AtMost(Counted(vm), Counted(vms[u])) {
          vms := vms[u := vm];
        }
      case Goes(u) =>
        // a job holds the compute of the VM it adds until it ends
        if u !in jobs && u !in mine {
          vms := vms - {u};
        }
    }

    method Meanwhile(mine: set<Uuid>)
      requires Valid()
      modifies this`vms, this`jobs
      ensures Valid() && NoMore(old(Used()), Used())
      ensures jobs.Keys <= old(jobs).Keys && (forall u | u in jobs :: jobs[u] == old(jobs)[u])
      ensures forall u | u in jobs && u in old(vms) :: u in vms
      ensures Untouched(old(vms), vms, mine)
      ensures quiet ==> vms == old(vms) && jobs == old(jobs)
    {
      var events: seq<Event> := *;
      if !quiet {
        for n := 0 to |events|
          invariant Valid() && NoMore(old(Used()), Used())
          invariant jobs.Keys <= old(jobs).Keys && (forall u | u in jobs :: jobs[u] == old(jobs)[u])
          invariant forall u | u in jobs && u in old(vms) :: u in vms
          invariant Untouched(old(vms), vms, mine)
        {
          Happens(events[n], mine);
        }
      }
    }

    /** The clone jobs whose VM is not recorded: the jobs are read once, each
        VM's record is looked for after it. */
    method PendingClones(mine: set<Uuid>) returns (clones: map<Uuid, Size>)
      requires Valid()
      modifies this`vms, this`jobs
      ensures Valid() && NoMore(old(Used()), Used())
      ensures Untouched(old(vms), vms, mine)
      ensures quiet ==> vms == old(vms) && jobs == old(jobs)
      ensures quiet ==> clones.Keys == old(jobs).Keys - old(vms).Keys
      ensures forall u | u in clones :: u in old(jobs) && clones[u] == Charge(old(jobs)[u].clone)
      ensures Seen(Used(), clones, vms.Keys) && Naturals(clones)
    {
      clones := map[];
      var read := jobs;
      for u := 0 to bound
        invariant Valid() && NoMore(old(Used()), Used())
        invariant jobs.Keys <= read.Keys && (forall w | w in jobs :: jobs[w] == read[w])
        invariant forall w | w in mine :: (w in vms) == (w in old(vms)) && (w in vms ==> vms[w] == old(vms)[w])
        invariant quiet ==> vms == old(vms) && jobs == old(jobs)
        invariant forall w | w in clones :: w in read && clones[w] == Charge(read[w].clone)
        invariant quiet ==> forall w :: w in clones <==> w in read && w < u && w !in old(vms)
        invariant forall w | w in jobs && w < u :: w in clones || w in vms
      {
        if u in read {
          Meanwhile(mine);
          if u !in vms {
            clones := clones[u := Charge(read[u].clone)];
          }
        }
      }
    }

    /** One VM's sizes, unless it cannot be read. */
    method ReadVm(u: Uuid, mine: set<Uuid>) returns (size: Option<Size>)
      requires Valid()
      modifies this`vms, this`jobs
      ensures Valid() && NoMore(old(Used()), Used())
      ensures Untouched(old(vms), vms, mine)
      ensures quiet ==> vms == old(vms) && jobs == old(jobs)
      ensures size.Some? ==> Natural(size.value) && u in vms && size.value == Counted(vms[u])
      ensures quiet && u in vms ==> (size.Some? <==> u !in unreadable)
    {
      Meanwhile(mine);
      size := if u !in vms || u in unreadable then None else Some(Counted(vms[u]));
    }

    /** What a loop over the VMs read of rows, up to n. */
    predicate ReadUpTo(n: nat, clones: map<Uuid, Size>, rows: set<Uuid>, read: map<Uuid, Size>)
      reads this
    {
      && Seen(Used(), clones, rows) && Enough(Used(), read) && Naturals(read) && read.Keys == Below(rows, n)
      && (quiet ==> forall w | w in read :: w !in unreadable && w in vms && read[w] == Counted(vms[w]))
    }

    method ReadNext(u: Uuid, clones: map<Uuid, Size>, rows: set<Uuid>, read: map<Uuid, Size>, mine: set<Uuid>)
      returns (more: Option<map<Uuid, Size>>)
      requires Valid() && ReadUpTo(u, clones, rows, read)
      modifies this`vms, this`jobs
      ensures Valid() && NoMore(old(Used()), Used())
      ensures Untouched(old(vms), vms, mine)
      ensures quiet ==> vms == old(vms) && jobs == old(jobs)
      ensures more.Some? ==> ReadUpTo(u + 1, clones, rows, more.value)
      ensures quiet && more.None? ==> u in rows && (u in vms ==> u in unreadable)
    {
      if u !in rows {
        assert Below(rows, u) == Below(rows, u + 1);
        return Some(read);
      }
      var size := ReadVm(u, mine);
      SeenStays(old(Used()), Used(), clones, rows, read);
      if size.None? {
        return None;
      }
      ReadOne(Used(), read, rows, u, size.value);
      return Some(read[u := size.value]);
    }

    /** The loop over the rows; None when a VM cannot be read. */
    method ReadRows(clones: map<Uuid, Size>, rows: set<Uuid>, mine: set<Uuid>) returns (read: Option<map<Uuid, Size>>)
      requires Valid() && Seen(Used(), clones, rows) && rows == vms.Keys
      modifies this`vms, this`jobs
      ensures Valid() && NoMore(old(Used()), Used())
      ensures Untouched(old(vms), vms, mine)
      ensures quiet ==> vms == old(vms) && jobs == old(jobs)
      ensures read.Some? ==> ReadUpTo(bound, clones, rows, read.value)
      ensures quiet && read.None? ==> exists u :: u in vms && u in unreadable
    {
      var sizes: map<Uuid, Size> := map[];
      for u := 0 to bound
        invariant Valid() && NoMore(old(Used()), Used())
        invariant Untouched(old(vms), vms, mine)
        invariant quiet ==> vms == old(vms) && jobs == old(jobs)
        invariant ReadUpTo(u, clones, rows, sizes)
      {
        var more := ReadNext(u, clones, rows, sizes, mine);
        if more.None? {
          return None;
        }
        sizes := more.value;
      }
      return Some(sizes);
    }

    /** The sizes of the user's VMs, whose list is read before the sizes. */
    method ReadVms(clones: map<Uuid, Size>, mine: set<Uuid>) returns (sizes: Option<map<Uuid, Size>>)
      requires Valid() && Seen(Used(), clones, vms.Keys)
      modifies this`vms, this`jobs
      ensures Valid() && NoMore(old(Used()), Used())
      ensures Untouched(old(vms), vms, mine)
      ensures quiet ==> vms == old(vms) && jobs == old(jobs)
      ensures quiet ==> sizes == if vms.Keys !! unreadable then Some(Sizes(vms)) else None
      ensures sizes.Some? ==> Covered(Used(), clones, sizes.value) && Naturals(sizes.value)
    {
      ghost var vms0, jobs0 := vms, jobs;
      Meanwhile(mine);
      SeenFollows(vms0, jobs0, vms, jobs, clones);
      var rows := vms.Keys;
      sizes := ReadRows(clones, rows, mine);
      if sizes.Some? {
        assert rows == Below(rows, bound);
        AllRead(Used(), clones, rows, sizes.value);
        if quiet {
          AllReadQuiet(vms, unreadable, sizes.value);
        }
      }
    }

    /** The second half of check_user_quota: the sizes. */
    method CheckTotals(amount: Size, clones: map<Uuid, Size>, mine: set<Uuid>) returns (answer: Answer)
      requires Valid() && Seen(Used(), clones, vms.Keys) && Naturals(clones)
      modifies this`vms, this`jobs
      ensures Valid() && NoMore(old(Used()), Used())
      ensures Untouched(old(vms), vms, mine)
      ensures answer == Fine ==> FitsAll(limits, amount, bound, Used())
      ensures answer.Exceeded? ==> 0 <= Limit(limits, answer.kind) < answer.total
      ensures !answer.TooMany?
      ensures quiet && Exactly(vms, jobs, clones) && vms.Keys !! unreadable
              && FitsAll(limits, amount, bound, Used()) ==>
                answer == Fine
      ensures quiet ==> vms == old(vms) && jobs == old(jobs)
    {
      if limits.cpus < 0 && limits.memory < 0 && limits.disk < 0 {
        return Fine;
      }
      var total := AddUp(amount, bound, clones);
      var sizes := ReadVms(clones, mine);
      if sizes.None? {
        return Unverified;
      }
      total := AddUp(total, bound, sizes.value);
      answer := Compare(total);
      forall k ensures Total(bound, Used(), k) <= Total(bound, clones, k) + Total(bound, sizes.value, k) {
        CoveredTotal(bound, Used(), clones, sizes.value, k);
      }
      if quiet && Exactly(vms, jobs, clones) && answer.Exceeded? {
        ExactlyTotals(vms, jobs, clones, bound, answer.kind);
        assert !FitsOne(limits, amount, bound, Used(), answer.kind);
      }
    }

    /** The clone jobs, and what the worker does before the VMs are counted. */
    method ClonesThenRows(mine: set<Uuid>) returns (clones: map<Uuid, Size>)
      requires Valid()
      modifies this`vms, this`jobs
      ensures Valid() && NoMore(old(Used()), Used())
      ensures Untouched(old(vms), vms, mine)
      ensures Seen(Used(), clones, vms.Keys) && Naturals(clones)
      ensures quiet ==> vms == old(vms) && jobs == old(jobs) && Exactly(vms, jobs, clones)
    {
      clones := PendingClones(mine);
      ghost var vms0, jobs0 := vms, jobs;
      Meanwhile(mine);
      SeenFollows(vms0, jobs0, vms, jobs, clones);
    }

    /** The first half: the VMs and the pending clones are counted. */
    method CountInstances(mine: set<Uuid>) returns (count: nat, clones: map<Uuid, Size>)
      requires Valid()
      modifies this`vms, this`jobs
      ensures Valid() && NoMore(old(Used()), Used())
      ensures Untouched(old(vms), vms, mine)
      ensures |Used().Keys| <= count
      ensures Seen(Used(), clones, vms.Keys) && Naturals(clones)
      ensures quiet ==> vms == old(vms) && jobs == old(jobs) && Exactly(vms, jobs, clones) && count == |Used().Keys|
    {
      clones := ClonesThenRows(mine);
      CountCovers(Used(), vms, clones);
      if quiet {
        ExactlyCounts(vms, jobs, clones);
      }
      count := |vms| + |clones|;
    }

    /** The check of an increase: the instances, then the totals. */
    method CheckIncrease(instances: int, amount: Size, mine: set<Uuid>) returns (answer: Answer)
      requires Valid()
      modifies this`vms, this`jobs
      ensures Valid() && NoMore(old(Used()), Used())
      ensures Untouched(old(vms), vms, mine)
      ensures answer == Fine ==> Fits(limits, instances, amount, bound, Used())
      ensures answer.TooMany? ==> 0 <= limits.instances < answer.total
      ensures answer.Exceeded? ==> 0 <= Limit(limits, answer.kind) < answer.total
      ensures quiet && vms.Keys !! unreadable && Fits(limits, instances, amount, bound, Used()) ==> answer == Fine
      ensures quiet ==> vms == old(vms) && jobs == old(jobs)
    {
      var count, clones := CountInstances(mine);
      if limits.instances >= 0 && instances + count > limits.instances {
        return TooMany(instances + count);
      }
      ghost var counted := Used();
      answer := CheckTotals(amount, clones, mine);
      FewerKeys(counted, Used());
    }

    /** check_user_quota. */
    method Check(instances: int, amount: Size, mine: set<Uuid>) returns (answer: Answer)
      requires Valid()
      modifies this`vms, this`jobs
      ensures Valid() && NoMore(old(Used()), Used())
      ensures Untouched(old(vms), vms, mine)
      ensures superuser || !Adds(instances, amount) ==> answer == Fine
      // never under-counted, whatever the worker records meanwhile
      ensures answer == Fine && !superuser && Adds(instances, amount) ==> Fits(limits, instances, amount, bound, Used())
      // neither as the VMs run nor as they start next, nor however the pending clones come to be made
      ensures answer == Fine && !superuser
              && (instances > 0 || amount.cpus > 0 || amount.memory > 0 || amount.disk > 0) ==>
                RoomFor(limits, instances, amount, bound, vms, jobs)
      ensures answer.TooMany? ==> 0 <= limits.instances < answer.total
      ensures answer.Exceeded? ==> 0 <= Limit(limits, answer.kind) < answer.total
      // and exact while nothing happens
      ensures quiet && vms.Keys !! unreadable && Fits(limits, instances, amount, bound, Used()) ==> answer == Fine
      ensures quiet ==> vms == old(vms) && jobs == old(jobs)
    {
      if superuser || !Adds(instances, amount) {
        return Fine;
      }
      answer := CheckIncrease(instances, amount, mine);
      if answer == Fine {
        FitsHasRoom(limits, instances, amount, bound, vms, jobs);
      }
    }

    /** The last of the limits exceeded is the one named. */
    method Compare(total: Size) returns (answer: Answer)
      ensures answer == Fine || answer.Exceeded?
      ensures answer == Fine <==> forall k :: Limit(limits, k) >= 0 ==> Of(total, k) <= Limit(limits, k)
      ensures answer.Exceeded? ==>
                0 <= Limit(limits, answer.kind) < answer.total && answer.total == Of(total, answer.kind)
    {
      answer := Fine;
      if limits.cpus >= 0 && total.cpus > limits.cpus {
        answer := Exceeded(Cpus, total.cpus);
        assert Of(total, Cpus) > Limit(limits, Cpus) >= 0;
      }
      if limits.memory >= 0 && total.memory > limits.memory {
        answer := Exceeded(Memory, total.memory);
        assert Of(total, Memory) > Limit(limits, Memory) >= 0;
      }
      if limits.disk >= 0 && total.disk > limits.disk {
        answer := Exceeded(Disk, total.disk);
        assert Of(total, Disk) > Limit(limits, Disk) >= 0;
      }
    }

    lemma UsedNatural()
      requires Valid()
      ensures Naturals(Used())
    {
    }

    // -- the guarded changes, each under the user's quota claim and the VM's own -----------

    /** The check, and what others do until the change. */
    method Granted(instances: int, amount: Size, u: Uuid) returns (answer: Answer)
      requires Valid()
      modifies this`vms, this`jobs
      ensures Valid() && NoMore(old(Used()), Used())
      ensures Untouched(old(vms), vms, {u})
      ensures answer == Fine && !superuser && Adds(instances, amount) ==> Fits(limits, instances, amount, bound, Used())
      ensures superuser || !Adds(instances, amount) ==> answer == Fine
      ensures quiet ==> vms == old(vms) && jobs == old(jobs)
      ensures quiet && vms.Keys !! unreadable && Fits(limits, instances, amount, bound, Used()) ==> answer == Fine
    {
      answer := Check(instances, amount, {u});
      UsedNatural();
      ghost var checked := Used();
      Meanwhile({u});
      if answer == Fine && !superuser && Adds(instances, amount) {
        FitsShrinks(limits, instances, amount, bound, checked, Used());
      }
    }

    /** The change itself: what was asked is what it adds. */
    method SetSize(u: Uuid, k: Kind, amount: int)
      requires Valid() && u in vms && Of(vms[u].live, k) + amount >= 0 && (vms[u].active ==> amount >= 0)
      modifies this`vms
      ensures Valid() && vms == old(vms)[u := Resized(old(vms)[u], k, amount)]
      ensures amount <= 0 ==> NoMore(old(Used()), Used())
      ensures old(Fits(limits, 0, Only(k, amount), bound, Used())) ==> Within(limits, bound, Used())
    {
      var vm := vms[u];
      ResizedCounts(vm, k, amount);
      if amount <= 0 {
        SmallerVm(vms, jobs, u, Resized(vm, k, amount));
      }
      if Fits(limits, 0, Only(k, amount), bound, Used()) {
        VmFits(limits, 0, Only(k, amount), bound, vms, jobs, u, Resized(vm, k, amount));
      }
      vms := vms[u := Resized(vm, k, amount)];
    }

    /** resizevm_cpu, resize_memory and resize_disk; to: the new vCPUs, the new
        maximum memory, or the GiB with which the disks that grow end. A running
        VM keeps its vCPUs and its maximum memory. */
    method Resize(u: Uuid, k: Kind, to: nat) returns (answer: Answer, done: bool)
      requires Valid() && u in vms
      requires k == Disk ==> to >= vms[u].live.disk
      modifies this`vms, this`jobs
      ensures Valid()
      ensures done && !superuser && to > Of(old(vms)[u].live, k) ==> Within(limits, bound, Used())
      ensures !done || to <= Of(old(vms)[u].live, k) ==> NoMore(old(Used()), Used())
      ensures done ==> answer == Fine && u in vms && Of(vms[u].live, k) == to
      ensures old(vms)[u].active && k == Cpus ==> answer == Fine && !done
      ensures old(vms)[u].active && k == Memory && to != old(vms)[u].live.memory ==> !done
      ensures (k == Disk || !old(vms)[u].active) && to <= Of(old(vms)[u].live, k) ==> done
      ensures quiet && (k == Disk || !old(vms)[u].active) && old(vms.Keys !! unreadable) &&
              old(Fits(limits, 0, Only(k, to - Of(vms[u].live, k)), bound, Used())) ==>
                done
    {
      var vm := vms[u];
      if vm.active && k == Cpus {
        return Fine, false;
      }
      // an active VM keeps its maximum memory
      var amount := if vm.active && k == Memory then 0 else to - Of(vm.live, k);
      answer := Granted(0, Only(k, amount), u);
      done := answer == Fine && amount == to - Of(vm.live, k);
      if done {
        assert vms[u] == vm;
        SetSize(u, k, amount);
      }
    }

    /** clone: the check, and the admission of the job if no claim was in its
        way. now: the source when the job takes it; one that outgrew the charge
        since is admitted too, and then what is promised of the checks is lost. */
    method SubmitClone(u: Uuid, clone: Clone, now: Size, free: bool) returns (answer: Answer)
      requires Valid() && u < bound && u !in vms && u !in jobs
      requires Natural(Charge(clone)) && Natural(now)
      modifies this`vms, this`jobs
      ensures Valid() <==> answer != Fine || !free || AtMost(now, Charge(clone))
      ensures answer == Fine && !superuser && free ==> Within(limits, bound, Used())
      ensures answer == Fine && free ==> u in jobs && jobs[u].clone == clone
      ensures quiet && old(vms.Keys !! unreadable && Fits(limits, 1, Charge(clone), bound, Used())) ==> answer == Fine
      ensures answer != Fine || !free ==> NoMore(old(Used()), Used())
    {
      assert u !in Used();
      answer := Granted(1, Charge(clone), u);
      assert u !in Used();
      if answer == Fine && free {
        if !superuser {
          JobFits(limits, bound, vms, jobs, u, Job(clone, now));
        }
        jobs := jobs[u := Job(clone, now)];
        assert u in jobs && (JobOk(jobs[u]) <==> AtMost(now, Charge(clone)));
      }
    }

    /** set_template, of a template that becomes a VM again: it is shut off. */
    method UnmarkTemplate(u: Uuid, vm: Vm) returns (answer: Answer)
      requires Valid() && u < bound && u !in vms && u !in jobs
      requires !vm.active && VmOk(vm)
      modifies this`vms, this`jobs
      ensures Valid()
      ensures answer == Fine && !superuser ==> Within(limits, bound, Used())
      ensures answer == Fine ==> u in vms && vms[u] == vm
      ensures quiet && old(vms.Keys !! unreadable && Fits(limits, 1, vm.live, bound, Used())) ==> answer == Fine
      ensures answer != Fine ==> NoMore(old(Used()), Used())
    {
      assert u !in Used();
      answer := Granted(1, vm.live, u);
      assert u !in Used();
      if answer == Fine {
        if !superuser {
          VmFits(limits, 1, vm.live, bound, vms, jobs, u, vm);
        }
        vms := vms[u := vm];
      }
    }
  }
}
