/** The invitation transactions on the tables they update, and the unique keys they keep. */
module Invitees {
  import opened Wrappers
  import opened Invitations

  // ---------- unique keys

  predicate SameMail(a: Invite, b: Invite) { a.tenant == b.tenant && a.email == b.email }

  /** UNIQUE (email), UNIQUE (tenant_id, email), UNIQUE (token_hash); every identifier and secret was drawn. */
  ghost predicate Keyed(d: Directory)
  {
    && (forall a, b :: a in d.users && b in d.users && d.users[a] == d.users[b] ==> a == b)
    && (forall a, b {:trigger SameMail(d.invites[a], d.invites[b])} |
          a in d.invites && b in d.invites && SameMail(d.invites[a], d.invites[b]) :: a == b)
    && (forall a, b :: a in d.invites && b in d.invites && d.invites[a].token == d.invites[b].token ==> a == b)
    && (forall id :: id in d.invites ==> id < d.next && d.invites[id].token < d.next)
    && (forall id :: id in d.users ==> id < d.next)
    && (forall s :: s in d.attempts ==> s < d.next)
  }

  lemma {:induction false} UserFound(d: Directory, id: Id, email: string)
    requires Keyed(d) && UserWith(d, id, email)
    ensures FindUser(d, email) == Some(id)
  {
  }

  lemma {:induction false} InviteFound(d: Directory, id: Id, tenant: Id, email: string)
    requires Keyed(d) && InviteFor(d, id, tenant, email)
    ensures FindInvite(d, tenant, email) == Some(id)
  {
    var found := FindInvite(d, tenant, email).value;
    assert SameMail(d.invites[found], d.invites[id]);
  }

  lemma {:induction false} TokenFound(d: Directory, id: Id, token: Secret)
    requires Keyed(d) && Holding(d, id, token)
    ensures FindToken(d, token) == Some(id)
  {
  }

  /** A row of the same tenant and address, under its old token or a new one. */
  lemma {:induction false} InviteKeeps(d: Directory, d': Directory, id: Id)
    requires Keyed(d) && d.next <= d'.next && d'.users == d.users && d'.attempts.Keys <= d.attempts.Keys
    requires id in d.invites && id in d'.invites && d'.invites == d.invites[id := d'.invites[id]]
    requires SameMail(d.invites[id], d'.invites[id])
    requires d'.invites[id].token == d.invites[id].token || d.next <= d'.invites[id].token < d'.next
    ensures Keyed(d')
  {
    forall a, b | a in d'.invites && b in d'.invites && SameMail(d'.invites[a], d'.invites[b]) ensures a == b {
      assert SameMail(d.invites[a], d.invites[b]);
    }
  }

  /** A new row, for an address the tenant has none for. */
  lemma {:induction false} NewInviteKeeps(d: Directory, d': Directory, id: Id)
    requires Keyed(d) && d.next <= id < d'.next && d'.users == d.users && d'.attempts == d.attempts
    requires id in d'.invites && d'.invites == d.invites[id := d'.invites[id]] && d.next <= d'.invites[id].token < d'.next
    requires FindInvite(d, d'.invites[id].tenant, d'.invites[id].email).None?
    ensures Keyed(d')
  {
    var row := d'.invites[id];
    assert forall other :: other in d.invites ==> !InviteFor(d, other, row.tenant, row.email);
    forall a, b | a in d'.invites && b in d'.invites && SameMail(d'.invites[a], d'.invites[b]) ensures a == b {
      if a != id && b != id { assert SameMail(d.invites[a], d.invites[b]); }
    }
  }

  /** A user under an address that no one else has. */
  lemma {:induction false} UserKeeps(d: Directory, d': Directory, user: Id, email: string)
    requires Keyed(d) && d.next <= d'.next && d'.users == d.users[user := email] && user < d'.next
    requires forall other :: other in d.users && other != user ==> d.users[other] != email
    requires d'.invites == d.invites && d'.attempts == d.attempts
    ensures Keyed(d')
  {
  }

  lemma {:induction false} MembersKeep(d: Directory, d': Directory)
    requires Keyed(d) && d' == d.(members := d'.members)
    ensures Keyed(d')
  {
  }

  lemma {:induction false} AcceptRefused(d: Directory, id: Id, user: Id)
    requires id in d.invites
    ensures Accept(d, id, user).1.Err? ==> Accept(d, id, user).0 == d
  {
  }

  lemma {:induction false} OthersDiffer(d: Directory, email: string)
    requires Keyed(d)
    ensures forall id :: id in d.users && FindUser(d, email) != Some(id) ==> d.users[id] != email
    ensures forall id :: id in d.users ==> id < d.next
  {
    forall id | id in d.users && d.users[id] == email ensures FindUser(d, email) == Some(id) { UserFound(d, id, email); }
  }

  lemma {:induction false} NoneFound(d: Directory, email: string)
    requires FindUser(d, email).None?
    ensures forall id :: id in d.users ==> d.users[id] != email
  {
    assert forall id :: id in d.users ==> !UserWith(d, id, email);
  }

  class Tables {
    var users: map<Id, string>
    var identities: map<(string, string), Id>
    var members: map<(Id, Id), Role>
    var invites: map<Id, Invite>
    var attempts: map<Secret, Attempt>
    var next: nat
    var now: Time

    function Rows(): Directory
      reads this
    {
      Directory(users, identities, members, invites, attempts, next, now)
    }

    ghost predicate Valid()
      reads this
    {
      Keyed(Rows())
    }

    constructor ()
      ensures Rows() == NOBODY && Valid()
    {
      users, identities, members, invites, attempts, next, now := map[], map[], map[], map[], map[], 0, 0;
    }

    method Draw() returns (n: nat)
      modifies this`next
      ensures n == old(next) && next == n + 1
    {
      n := next;
      next := next + 1;
    }

    method SelectUser(email: string) returns (r: Option<Id>)
      requires Valid()
      ensures r == FindUser(Rows(), email)
    {
      if id: Id :| id in users && UserWith(Rows(), id, email) {
        UserFound(Rows(), id, email);
        return Some(id);
      }
      return None;
    }

    method SelectInvite(tenant: Id, email: string) returns (r: Option<Id>)
      requires Valid()
      ensures r == FindInvite(Rows(), tenant, email)
    {
      hide Keyed;
      if id: Id :| id in invites && InviteFor(Rows(), id, tenant, email) {
        InviteFound(Rows(), id, tenant, email);
        return Some(id);
      }
      return None;
    }

    method SelectToken(token: Secret) returns (r: Option<Id>)
      requires Valid()
      ensures r == FindToken(Rows(), token)
    {
      if id: Id :| id in invites && Holding(Rows(), id, token) {
        TokenFound(Rows(), id, token);
        return Some(id);
      }
      return None;
    }

    /** The user exists: a membership, and the end of an open invitation. */
    method AddMember(tenant: Id, user: Id, email: string, role: Role) returns (r: Result<Added, InviteError>)
      requires Valid()
      modifies this
      ensures (Rows(), r) == Invitations.AddMember(old(Rows()), tenant, user, email, role)
      ensures Valid()
    {
      hide FindInvite, Keyed;
      var current := SelectInvite(tenant, email);
      if (tenant, user) in members { return Err(Conflict); }
      ghost var before := Rows();
      members := members[(tenant, user) := role];
      MembersKeep(before, Rows());
      if current.None? || invites[current.value].accepted || invites[current.value].revoked { return Ok(Member(user, None)); }
      ghost var added := Rows();
      invites := invites[current.value := invites[current.value].(revoked := true)];
      attempts := WithoutAttempts(attempts, current.value);
      InviteKeeps(added, Rows(), current.value);
      return Ok(Member(user, current));
    }

    method Invite(tenant: Id, email: string, role: Role) returns (r: Result<Added, InviteError>)
      requires Valid()
      modifies this
      ensures (Rows(), r) == InviteNew(old(Rows()), tenant, email, role)
      ensures Valid()
    {
      hide FindInvite, Keyed;
      var current := SelectInvite(tenant, email);
      ghost var before := Rows();
      var secret, id := next, next + 1;
      if current.Some? {
        var row := invites[current.value];
        if row.accepted || (!row.revoked && row.expires > now) { return Err(Conflict); }
        id := current.value;
      }
      next := next + 2;
      invites := invites[id := Invitations.Invite(tenant, email, role, secret, now + LIFETIME, false, false)];
      if current.Some? { InviteKeeps(before, Rows(), id); } else { NewInviteKeeps(before, Rows(), id); }
      return Ok(Invited(id, secret));
    }

    method AddMemberOrInvite(tenant: Id, actor: Role, email: string, role: Role) returns (r: Result<Added, InviteError>)
      requires Valid()
      modifies this
      ensures (Rows(), r) == Invitations.AddMemberOrInvite(old(Rows()), tenant, actor, email, role)
      ensures Valid()
    {
      hide FindUser, Keyed, InviteNew, Invitations.AddMember;
      if !MayManage(actor, None, Some(role)) { return Err(Conflict); }
      var user := SelectUser(email);
      if user.Some? { r := AddMember(tenant, user.value, email, role); } else { r := Invite(tenant, email, role); }
    }

    method CreateInvitationOIDCAttempt(token: Secret, lifetime: Time) returns (r: Result<Secret, InviteError>)
      requires Valid()
      modifies this
      ensures (Rows(), r) == StartLogin(old(Rows()), token, lifetime)
      ensures Valid()
    {
      hide FindToken;
      var id := SelectToken(token);
      if id.None? { return Err(NoRows); }
      var status := StatusOf(invites[id.value], now);
      if !status.Pending? { return Err(StatusError(status)); }
      var state := Draw();
      attempts := attempts[state := Attempt(id.value, token, now + lifetime)];
      return Ok(state);
    }

    method ConsumeOIDCAttempt(state: Secret) returns (r: Result<Attempt, InviteError>)
      requires Valid()
      modifies this
      ensures (Rows(), r) == FinishLogin(old(Rows()), state)
      ensures Valid()
    {
      if !(state in attempts && attempts[state].expires > now) { return Err(NoRows); }
      var attempt := attempts[state];
      attempts := attempts - {state};
      return Ok(attempt);
    }

    method RenewInvitation(tenant: Id, actor: Role, id: Id) returns (r: Result<Secret, InviteError>)
      requires Valid()
      modifies this
      ensures (Rows(), r) == Renew(old(Rows()), tenant, actor, id)
      ensures Valid()
    {
      hide Keyed;
      ghost var before := Rows();
      if !(id in invites && invites[id].tenant == tenant) { return Err(NoRows); }
      var row := invites[id];
      if row.accepted || row.revoked || !MayManage(actor, Some(row.role), Some(row.role)) { return Err(Conflict); }
      var secret := Draw();
      invites := invites[id := row.(token := secret, expires := now + LIFETIME)];
      attempts := WithoutAttempts(attempts, id);
      InviteKeeps(before, Rows(), id);
      return Ok(secret);
    }

    method RevokeInvitation(tenant: Id, actor: Role, id: Id) returns (r: Result<(), InviteError>)
      requires Valid()
      modifies this
      ensures (Rows(), r) == Revoke(old(Rows()), tenant, actor, id)
      ensures Valid()
    {
      ghost var before := Rows();
      if !(id in invites && invites[id].tenant == tenant) { return Err(NoRows); }
      var row := invites[id];
      if row.accepted || row.revoked || !MayManage(actor, Some(row.role), None) { return Err(Conflict); }
      invites := invites[id := row.(revoked := true)];
      attempts := WithoutAttempts(attempts, id);
      InviteKeeps(before, Rows(), id);
      return Ok(());
    }

    method AcceptLocalInvitation(token: Secret) returns (r: Result<Id, InviteError>)
      requires Valid()
      modifies this
      ensures (Rows(), r) == AcceptLocal(old(Rows()), token)
      ensures Valid()
    {
      hide FindToken, FindUser, Keyed, Accept;
      var before := Rows();
      var id := SelectToken(token);
      if id.None? { return Err(NoRows); }
      var row := invites[id.value];
      var status := StatusOf(row, now);
      if !status.Pending? { return Err(StatusError(status)); }
      var existing := SelectUser(row.email);
      var user := next;
      if existing.Some? { user := existing.value; } else {
        user := Draw();
        users := users[user := row.email];
        NoneFound(before, row.email);
        UserKeeps(before, Rows(), user, row.email);
      }
      AcceptRefused(Rows(), id.value, user);
      r := AcceptInvitation(id.value, user);
      if r.Err? { Undo(before); }
    }

    method AcceptOIDCInvitation(id: Id, token: Secret, issuer: string, subject: string, email: Option<string>) returns (r: Result<Id, InviteError>)
      requires Valid()
      modifies this
      ensures (Rows(), r) == AcceptOidc(old(Rows()), id, token, issuer, subject, email)
      ensures Valid()
    {
      hide FindUser, Keyed, Accept;
      var before := Rows();
      if !(id in invites && invites[id].token == token) { return Err(NoRows); }
      if email != Some(invites[id].email) { return Err(EmailMismatch); }
      if issuer == "" || subject == "" { return Err(Rejected); }
      var holder := SelectUser(email.value);
      var user;
      OthersDiffer(before, email.value);
      if (issuer, subject) in identities && identities[(issuer, subject)] in users {
        user := identities[(issuer, subject)];
        if holder.Some? && holder.value != user { return Err(Conflict); }
        users := users[user := email.value];
        UserKeeps(before, Rows(), user, email.value);
      } else {
        if holder.Some? { return Err(Conflict); }
        user := Draw();
        users := users[user := email.value];
        identities := identities[(issuer, subject) := user];
        UserKeeps(before, Rows(), user, email.value);
      }
      r := AcceptInvitation(id, user);
      if r.Err? { Undo(before); }
    }

    /** acceptInvitation: the membership, then the mark on the invitation. */
    method AcceptInvitation(id: Id, user: Id) returns (r: Result<Id, InviteError>)
      requires Valid() && id in invites
      modifies this`members, this`invites
      ensures (Rows(), r) == Accept(old(Rows()), id, user)
      ensures Valid()
    {
      ghost var before := Rows();
      var row := invites[id];
      var status := StatusOf(row, now);
      if !status.Pending? { return Err(StatusError(status)); }
      if (row.tenant, user) in members { return Err(Conflict); }
      members := members[(row.tenant, user) := row.role];
      invites := invites[id := row.(accepted := true)];
      InviteKeeps(before, Rows(), id);
      return Ok(user);
    }

    /** tx.Rollback(). */
    method Undo(before: Directory)
      modifies this
      ensures Rows() == before
    {
      users, identities, members := before.users, before.identities, before.members;
      invites, attempts, next, now := before.invites, before.attempts, before.next, before.now;
    }
  }
}
