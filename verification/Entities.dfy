/** The domain entities, which the services change in place. */
module Entities {
  import opened Types

  class UserSession {
    const id: SessionId
    const userId: UserId
    const expiresAt: Time
    const createdAt: Time
    const previous: Option<SessionId>
    const device: Option<string>
    const ip: Option<string>
    var revokedAt: Option<Time>

    ghost function Row(): Session
      reads this
    {
      Session(userId, expiresAt, createdAt, revokedAt, previous, device, ip)
    }

    constructor (id: SessionId, row: Session)
      ensures this.id == id && Row() == row
    {
      this.id := id;
      userId, expiresAt, createdAt, revokedAt := row.userId, row.expiresAt, row.createdAt, row.revokedAt;
      previous, device, ip := row.previous, row.device, row.ip;
    }

    /** The first revocation counts. */
    method Revoke(now: Time)
      modifies this
      ensures revokedAt == if old(revokedAt).Some? then old(revokedAt) else Some(now)
    {
      if revokedAt.None? {
        revokedAt := Some(now);
      }
    }
  }

  class UserEntity {
    const id: UserId
    const email: string
    const username: string
    const name: string
    const hashed: Hash
    const role: Role
    var status: Status
    var deletedAt: Option<Time>

    ghost function Row(): User
      reads this
    {
      User(email, username, name, hashed, status, role, deletedAt)
    }

    constructor (id: UserId, row: User)
      ensures this.id == id && Row() == row
    {
      this.id := id;
      email, username, name, hashed, role := row.email, row.username, row.name, row.hashed, row.role;
      status, deletedAt := row.status, row.deletedAt;
    }

    function Allowed(from: Status): set<Status> {
      match from
      case PendingVerification => {Active, Banned}
      case Active => {Suspended, Banned}
      case Suspended => {Active, Banned}
      case Banned => {}
    }

    /** Moves along the transition table, or stays where it is and reports failure. */
    method TransitionTo(to: Status) returns (ok: bool)
      modifies this
      ensures ok <==>
        || to == old(status)
        || (old(status) == PendingVerification && (to == Active || to == Banned))
        || (old(status) == Active && (to == Suspended || to == Banned))
        || (old(status) == Suspended && (to == Active || to == Banned))
      ensures status == (if ok then to else old(status)) && deletedAt == old(deletedAt)
    {
      if to == status {
        return true;
      }
      if to !in Allowed(status) {
        return false;
      }
      status := to;
      ok := true;
    }

    method Deactivate(now: Time) returns (ok: bool)
      modifies this
      ensures ok <==> old(deletedAt).None?
      ensures deletedAt == (if ok then Some(now) else old(deletedAt)) && status == old(status)
    {
      if deletedAt.Some? {
        return false;
      }
      deletedAt := Some(now);
      ok := true;
    }
  }
}
