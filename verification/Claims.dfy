/** Claims on resources, of jobs and of blocks: operations/claims.py. */
module Claims {
  import opened Wrappers
  import opened Records

  const TRANSIENT_TTL: int := 660

  type Wanted = map<Resource, Mode>

  predicate Lapsed(c: Claim, now: Time) {
    c.Transient? && c.expires <= now
  }

  /** A claim that still counts: a job's, or one not expired. */
  predicate Live(c: Claim, now: Time) {
    !Lapsed(c, now)
  }

  /** _gone, for the processes seen not to run. */
  predicate Gone(c: Claim, dead: set<Process>) {
    c.Transient? && c.holder in dead
  }

  predicate Compatible(a: Mode, b: Mode) {
    a.Shared? && b.Shared?
  }

  predicate Conflicts(id: ClaimId, c: Claim, wanted: Wanted) {
    id.resource in wanted && !Compatible(wanted[id.resource], c.mode)
  }

  predicate Blocks(claims: map<ClaimId, Claim>, id: ClaimId, wanted: Wanted, now: Time, dead: set<Process>) {
    id in claims && Live(claims[id], now) && Conflicts(id, claims[id], wanted) && !Gone(claims[id], dead)
  }

  predicate Blocked(claims: map<ClaimId, Claim>, wanted: Wanted, now: Time, dead: set<Process>) {
    exists id :: id in claims && Blocks(claims, id, wanted, now, dead)
  }

  /** The rows _check deletes when it refuses nothing. */
  predicate Swept(id: ClaimId, c: Claim, wanted: Wanted, now: Time, dead: set<Process>) {
    id.resource in wanted && (Lapsed(c, now) || (Conflicts(id, c, wanted) && Gone(c, dead)))
  }

  function Cleared(claims: map<ClaimId, Claim>, wanted: Wanted, now: Time, dead: set<Process>): map<ClaimId, Claim> {
    map id | id in claims && !Swept(id, claims[id], wanted, now, dead) :: claims[id]
  }

  /** A request is refused exactly for a row on a wanted resource, either side
      exclusive, that is a job's, or has not expired and is of a process that runs. */
  lemma BlockedIff(claims: map<ClaimId, Claim>, wanted: Wanted, now: Time, dead: set<Process>)
    ensures Blocked(claims, wanted, now, dead) <==>
            exists id :: && id in claims && id.resource in wanted
                         && (wanted[id.resource] == Exclusive || claims[id].mode == Exclusive)
                         && (claims[id].OfJob? || (now < claims[id].expires && claims[id].holder !in dead))
  {
    forall id | id in claims && id.resource in wanted
                && (wanted[id.resource] == Exclusive || claims[id].mode == Exclusive)
                && (claims[id].OfJob? || (now < claims[id].expires && claims[id].holder !in dead))
      ensures Blocks(claims, id, wanted, now, dead)
    {
    }
  }

  /** Otherwise the expired rows on wanted resources go, and those of dead
      processes that either side has exclusive. */
  lemma ClearedAre(claims: map<ClaimId, Claim>, wanted: Wanted, now: Time, dead: set<Process>)
    ensures var left := Cleared(claims, wanted, now, dead);
            && (forall id <- left :: id in claims && left[id] == claims[id])
            && (forall id <- claims ::
                  id !in left <==>
                  && id.resource in wanted && claims[id].Transient?
                  && (|| claims[id].expires <= now
                      || (claims[id].holder in dead
                          && (wanted[id.resource] == Exclusive || claims[id].mode == Exclusive))))
  {
  }

  function TransientRows(grant: nat, wanted: Wanted, holder: Process, expires: Time): map<ClaimId, Claim> {
    map r | r in wanted :: ClaimId(grant, r) := Transient(holder, expires, wanted[r])
  }

  function JobRows(grant: nat, wanted: Wanted, job: Id): map<ClaimId, Claim> {
    map r | r in wanted :: ClaimId(grant, r) := OfJob(job, wanted[r])
  }

  /** The tables after admit; unchanged when it raises Busy. */
  function Admitted(t: Tables, wanted: Wanted, holder: Process, now: Time, ttl: nat, dead: set<Process>): Tables {
    if Blocked(t.claims, wanted, now, dead) then t
    else t.(claims := Cleared(t.claims, wanted, now, dead) + TransientRows(t.nextGrant, wanted, holder, now + ttl),
            nextGrant := t.nextGrant + 1)
  }

  /** The tables after a block's claims are deleted: those of its admission. */
  function Left(t: Tables, grant: nat): Tables {
    t.(claims := map id | id in t.claims && id.grant != grant :: t.claims[id])
  }

  /** _check: deletes the expired rows, then the conflicting ones of dead
      holders; the first other conflict is the blocker. */
  method Check(db: Database, wanted: Wanted, now: Time, dead: set<Process>) returns (blocker: Option<ClaimId>)
    modifies db`claims
    ensures blocker.Some? ==> Blocks(old(db.claims), blocker.value, wanted, now, dead)
    ensures blocker.None? ==> !Blocked(old(db.claims), wanted, now, dead)
                              && db.claims == Cleared(old(db.claims), wanted, now, dead)
  {
    db.claims := map id | id in db.claims && !(id.resource in wanted && Lapsed(db.claims[id], now)) :: db.claims[id];
    var active := set id | id in db.claims && id.resource in wanted;
    while active != {}
      invariant forall id <- active :: id in db.claims && id.resource in wanted
      invariant forall id <- db.claims :: id in old(db.claims) && db.claims[id] == old(db.claims)[id]
                                          && !(id.resource in wanted && Lapsed(db.claims[id], now))
      invariant forall id <- old(db.claims) :: id !in db.claims ==> Swept(id, old(db.claims)[id], wanted, now, dead)
      invariant forall id <- db.claims :: id !in active ==> !Conflicts(id, db.claims[id], wanted)
      decreases active
    {
      var id :| id in active;
      active := active - {id};
      if wanted[id.resource] == Exclusive || db.claims[id].mode == Exclusive {
        if Gone(db.claims[id], dead) {
          db.claims := db.claims - {id};
        } else {
          return Some(id);
        }
      }
    }
    blocker := None;
  }

  method Admit(db: Database, wanted: Wanted, holder: Process, now: Time, ttl: nat, dead: set<Process>)
    returns (r: Result<nat, ClaimId>)
    modifies db
    ensures db.View() == Admitted(old(db.View()), wanted, holder, now, ttl, dead)
    ensures r.Failure? <==> Blocked(old(db.claims), wanted, now, dead)
    ensures r.Failure? ==> Blocks(old(db.claims), r.error, wanted, now, dead)
    ensures r.Success? ==> r.value == old(db.nextGrant)
    ensures var claims := old(db.claims);
            r.Failure? <==>
            exists id :: && id in claims && id.resource in wanted
                         && (wanted[id.resource] == Exclusive || claims[id].mode == Exclusive)
                         && (claims[id].OfJob? || (now < claims[id].expires && claims[id].holder !in dead))
    ensures r.Failure? ==> db.View() == old(db.View())
    // one row a resource, of this admission; of the others the expired and the dead on its way go
    ensures r.Success? ==>
              && db.ops == old(db.ops) && db.lease == old(db.lease) && db.nextGrant == r.value + 1
              && (forall key <- wanted ::
                    var id := ClaimId(r.value, key);
                    id in db.claims && db.claims[id] == Transient(holder, now + ttl, wanted[key]))
              && (forall id <- db.claims ::
                    || (id.grant == r.value && id.resource in wanted)
                    || (id in old(db.claims) && db.claims[id] == old(db.claims)[id]))
              && (forall id <- old(db.claims) ::
                    id.grant != r.value ==>
                      (id !in db.claims <==>
                       var c := old(db.claims)[id];
                       && id.resource in wanted && c.Transient?
                       && (|| c.expires <= now
                           || (c.holder in dead && (wanted[id.resource] == Exclusive || c.mode == Exclusive)))))
  {
    var before := db.claims;
    BlockedIff(before, wanted, now, dead);
    ClearedAre(before, wanted, now, dead);
    var blocker := Check(db, wanted, now, dead);
    if blocker.Some? {
      db.claims := before;  // the transaction is rolled back
      assert blocker.value in before;
      return Failure(blocker.value);
    }
    r := Success(db.nextGrant);
    db.claims := db.claims + TransientRows(db.nextGrant, wanted, holder, now + ttl);
    db.nextGrant := db.nextGrant + 1;
  }

  /** The resources a thread holds: the thread-local of hold and adopted. */
  class Thread {
    var held: Wanted

    constructor ()
      ensures held == map[]
    {
      held := map[];
    }
  }

  datatype HoldError = Busy(blocker: ClaimId) | Upgrade(resource: Resource)

  predicate Upgrading(held: Wanted, wanted: Wanted) {
    exists r :: r in wanted && r in held && held[r].Shared? && wanted[r].Exclusive?
  }

  function NewKeys(held: Wanted, wanted: Wanted): Wanted {
    map r | r in wanted && r !in held :: wanted[r]
  }

  /** hold's entry: only keys the thread does not hold are admitted. */
  method EnterHold(db: Database, thread: Thread, wanted: Wanted, me: Process, now: Time, dead: set<Process>)
    returns (r: Result<Option<nat>, HoldError>)
    modifies db, thread
    ensures var added := NewKeys(old(thread.held), wanted);
            if Upgrading(old(thread.held), wanted) then r.Failure? && r.error.Upgrade?
            else if added == map[] then r == Success(None)
            else if Blocked(old(db.claims), added, now, dead) then r.Failure? && r.error.Busy?
            else r == Success(Some(old(db.nextGrant)))
    ensures r.Success? && r.value.Some? ==>
              && db.View() == Admitted(old(db.View()), NewKeys(old(thread.held), wanted), me, now, 660, dead)
              && thread.held == old(thread.held) + NewKeys(old(thread.held), wanted)
    ensures r.Failure? || r.value.None? ==> db.View() == old(db.View()) && thread.held == old(thread.held)
    // refused at once: a key held shared and wanted exclusive
    ensures (r.Failure? && r.error.Upgrade?) <==>
            exists k :: k in wanted && k in old(thread.held) && old(thread.held)[k] == Shared && wanted[k] == Exclusive
    ensures r.Success? && r.value.None? ==> wanted.Keys <= old(thread.held).Keys
    ensures r.Success? ==>
              && thread.held.Keys == old(thread.held).Keys + wanted.Keys
              && forall k <- thread.held ::
                   thread.held[k] == if k in old(thread.held) then old(thread.held)[k] else wanted[k]
  {
    var added: Wanted := map[];
    var keys := wanted.Keys;
    while keys != {}
      invariant keys <= wanted.Keys
      invariant forall k <- added :: k in wanted && added[k] == wanted[k]
      invariant forall k <- wanted :: k in added <==> k !in keys && k !in thread.held
      invariant forall k <- wanted :: k !in keys && k in thread.held ==>
                  !(thread.held[k].Shared? && wanted[k].Exclusive?)
      decreases keys
    {
      var key :| key in keys;
      keys := keys - {key};
      if key in thread.held {
        if thread.held[key] == Shared && wanted[key] == Exclusive {
          return Failure(Upgrade(key));
        }
      } else {
        added := added[key := wanted[key]];
      }
    }
    assert added == NewKeys(thread.held, wanted);
    if added == map[] {
      return Success(None);
    }
    var admitted := Admit(db, added, me, now, TRANSIENT_TTL, dead);
    if admitted.Failure? {
      return Failure(Busy(admitted.error));
    }
    thread.held := thread.held + added;
    r := Success(Some(admitted.value));
  }

  /** hold's exit: the keys it added are dropped and its rows deleted. */
  method ExitHold(db: Database, thread: Thread, added: Wanted, grant: nat)
    modifies db, thread
    ensures db.View() == Left(old(db.View()), grant)
    ensures thread.held == old(thread.held) - added.Keys
  {
    thread.held := thread.held - added.Keys;
    db.claims := map id | id in db.claims && id.grant != grant :: db.claims[id];
  }

  /** The claims of a job, as adopted reads them. */
  function OwnClaims(claims: map<ClaimId, Claim>, job: Id): set<ClaimId> {
    set id | id in claims && claims[id] == OfJob(job, claims[id].mode)
  }

  /** adopted's entry: the job's claims count as the thread's own. */
  method Adopt(db: Database, thread: Thread, job: Id) returns (own: Wanted)
    modifies thread
    ensures forall r :: r in own <==> exists id <- OwnClaims(db.claims, job) :: id.resource == r
    ensures forall r <- own ::
              exists id <- OwnClaims(db.claims, job) :: id.resource == r && db.claims[id].mode == own[r]
    ensures thread.held == old(thread.held) + own
  {
    own := map[];
    var left := OwnClaims(db.claims, job);
    while left != {}
      invariant left <= OwnClaims(db.claims, job)
      invariant forall id <- OwnClaims(db.claims, job) :: id !in left ==> id.resource in own
      invariant forall r <- own ::
                  exists id <- OwnClaims(db.claims, job) :: id.resource == r && db.claims[id].mode == own[r]
      decreases left
    {
      var id :| id in left;
      left := left - {id};
      own := own[id.resource := db.claims[id].mode];
    }
    thread.held := thread.held + own;
  }

  /** adopted's exit. */
  method Disown(thread: Thread, own: Wanted)
    modifies thread
    ensures thread.held == old(thread.held) - own.Keys
  {
    thread.held := thread.held - own.Keys;
  }

  /** Inside its claims, code that takes any of them, no stronger, neither
      upgrades nor asks for a new row: a job is never Busy with itself. */
  lemma AdoptedClaimsAreReused(held: Wanted, own: Wanted, wanted: Wanted)
    requires forall r <- wanted :: r in own && (own[r].Shared? ==> wanted[r].Shared?)
    ensures !Upgrading(held + own, wanted) && NewKeys(held + own, wanted) == map[]
  {
    assert forall r <- wanted :: r in held + own && (held + own)[r] == own[r];
  }

  /** A block that hold let in and that ends leaves the thread's keys and every
      other claim as they were; the rows its admission swept were lapsed or dead. */
  lemma HoldIsBracket(t: Tables, held: Wanted, wanted: Wanted, me: Process, now: Time, dead: set<Process>)
    requires forall id <- t.claims :: id.grant < t.nextGrant
    requires !Blocked(t.claims, NewKeys(held, wanted), now, dead)
    ensures var added := NewKeys(held, wanted);
            var inside := Admitted(t, added, me, now, TRANSIENT_TTL, dead);
            var after := Left(inside, t.nextGrant);
            && (held + added) - added.Keys == held
            && after.claims == Cleared(t.claims, added, now, dead)
            && (forall id <- t.claims :: id !in after.claims ==> Lapsed(t.claims[id], now) || Gone(t.claims[id], dead))
  {
    var added := NewKeys(held, wanted);
    LeavingUndoes(t, added, me, now, TRANSIENT_TTL, dead);
    assert (held + added) - added.Keys == held;
  }

  /** The rows an admission wrote go when its block ends, and no others. */
  lemma LeavingUndoes(t: Tables, added: Wanted, me: Process, now: Time, ttl: nat, dead: set<Process>)
    requires forall id <- t.claims :: id.grant < t.nextGrant
    requires !Blocked(t.claims, added, now, dead)
    ensures Left(Admitted(t, added, me, now, ttl, dead), t.nextGrant).claims == Cleared(t.claims, added, now, dead)
  {
    var left := Cleared(t.claims, added, now, dead);
    var rows := TransientRows(t.nextGrant, added, me, now + ttl);
    assert forall id <- rows :: id.grant == t.nextGrant;
    assert Admitted(t, added, me, now, ttl, dead).claims == left + rows;
  }
}
