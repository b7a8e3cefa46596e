/** Leases: who owns a running job, and when its owner is provably gone (jobsmith/engine/ownership.py). */
module Ownership {
  import opened Options

  /** Who a manager is, as written on the leases it holds; a token is never used twice. */
  datatype Identity = Identity(token: nat, host: string, pid: int, pidns: string)

  /** A claim on a running job; an expiry nobody can read is absent. */
  datatype Lease = Lease(owner: nat, host: string, pid: int, pidns: string, expires: Option<nat>)

  function LeaseFor(me: Identity, now: nat, ttl: nat): Lease {
    Lease(me.token, me.host, me.pid, me.pidns, Some(now + ttl))
  }

  predicate Expired(l: Lease, now: nat) {
    l.expires.None? || now >= l.expires.value
  }

  predicate SameMachine(l: Lease, here: Identity) {
    l.host == here.host && l.pidns == here.pidns
  }

  /** Gone beyond doubt; `pids` are the processes this machine says exist. */
  predicate DeathIsCertain(lease: Option<Lease>, here: Identity, pids: set<int>) {
    lease.None? || (SameMachine(lease.value, here) && lease.value.pid !in pids)
  }

  predicate OwnerIsGone(lease: Option<Lease>, here: Identity, now: nat, pids: set<int>) {
    lease.None? || Expired(lease.value, now) || DeathIsCertain(lease, here, pids)
  }

  /** A lease is its owner's own: the identity on it is the owner's. */
  ghost predicate Owned(l: Lease, me: Identity) {
    l.owner == me.token && l.host == me.host && l.pid == me.pid && l.pidns == me.pidns
  }

}
