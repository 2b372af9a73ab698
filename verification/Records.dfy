/** The rows of operations/models.py: jobs, claims and the worker's lease. */
module Records {
  import opened Wrappers

  type Id = nat
  type User = nat
  type Time = int

  /** A compute, as a claim on it names it. */
  type Host = nat

  const DAY: int := 86400
  const SUBMISSION_KEY_TTL: int := DAY
  const TAKEOVER_AFTER: int := 120

  /** A process of the installation: its node id, and a number no other
      process of the node had. */
  datatype Process = Process(host: nat, serial: nat)

  datatype Mode = Shared | Exclusive

  datatype Resource =
    | ComputeKey(compute: nat)
    | ReconcileKey(compute: nat)
    | InstanceKey(uuid: nat)
    | PoolKey(compute: nat, pool: string)
    | VolumeKey(compute: nat, pool: string, name: string)
    | NameKey(name: string)
    | QuotaKey(user: User)
    | SessionKey(upload: Id)

  /** A row of Claim: one admission writes one row per resource. */
  datatype ClaimId = ClaimId(grant: nat, resource: Resource)

  datatype Claim =
    | OfJob(job: Id, mode: Mode)
    | Transient(holder: Process, expires: Time, mode: Mode)

  datatype State = Queued | Running | Cancelling | Succeeded | Failed | Cancelled | Uncertain

  predicate Active(s: State) { s.Queued? || s.Running? || s.Cancelling? }

  /** The states a worker's recovery looks for. */
  predicate Begun(s: State) { s.Running? || s.Cancelling? }

  /** The states in which a job keeps its claims. */
  predicate Keeps(s: State) { Active(s) || s.Uncertain? }

  predicate Ended(s: State) { !Keeps(s) }

  /** The worker column: empty, "request", or a worker's identity. */
  datatype Owner = Nobody | ByRequest | By(process: Process)

  /** A submission key as the client sent it, or renamed once it expired. */
  datatype Key = Sent(text: string) | Expired(job: Id)

  /** plan, grant, sent, starts, ends and untouched are no columns: the planned
      claims, the admission that wrote them, the key the client sent, how often
      run started and finish took effect, and whether the job was failed as
      stopped before it changed anything. */
  datatype Op = Op(
    kind: string, user: User, params: nat, key: Key,
    state: State, effectsStarted: bool, worker: Owner, cancelRequested: bool,
    createdAt: Time, finishedAt: Option<Time>,
    plan: map<Resource, Mode>, grant: nat, sent: string,
    starts: nat, ends: nat, untouched: bool)

  datatype Lease = Lease(holder: Process, heartbeatAt: Time)

  datatype Tables = Tables(
    ops: map<Id, Op>,
    claims: map<ClaimId, Claim>,
    nextGrant: nat,
    lease: Option<Lease>)

  /** The database: every method of the other modules is one transaction on it. */
  class Database {
    var ops: map<Id, Op>
    var claims: map<ClaimId, Claim>
    var nextGrant: nat
    var lease: Option<Lease>

    function View(): Tables
      reads this
    {
      Tables(ops, claims, nextGrant, lease)
    }

    constructor ()
      ensures View() == Tables(map[], map[], 0, None)
    {
      ops, claims, nextGrant, lease := map[], map[], 0, None;
    }
  }

  function WithOp(t: Tables, id: Id, op: Op): Tables {
    t.(ops := t.ops[id := op])
  }

  /** The rows without those of the job. */
  function DropJobClaims(claims: map<ClaimId, Claim>, id: Id): (left: map<ClaimId, Claim>)
    ensures forall c :: c in left <==> c in claims && (claims[c].Transient? || claims[c].job != id)
    ensures forall c <- left :: left[c] == claims[c]
  {
    map c | c in claims && claims[c] != OfJob(id, claims[c].mode) :: claims[c]
  }
}
