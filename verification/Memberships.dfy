/**
 Who becomes a member of a tenant, and as what: by an invitation accepted, with the invitation's role, or added as a user
 that exists, with the role asked for; and by nothing else.
*/
module Memberships {
  import opened Wrappers
  import opened Invitations

  // ---------- what an acceptance leaves

  lemma {:induction false} AcceptGrants(d: Directory, id: Id, user: Id)
    requires id in d.invites
    ensures var r := Accept(d, id, user); var row := d.invites[id];
            if r.1.Ok? then
              && r.1 == Ok(user) && !row.accepted && !row.revoked && d.now < row.expires && (row.tenant, user) !in d.members
              && r.0 == d.(members := d.members[(row.tenant, user) := row.role],
                           invites := d.invites[id := Invite(row.tenant, row.email, row.role, row.token, row.expires, true, false)])
            else r.0 == d
  {
  }

  /** Only this user is new, or has a new address. */
  predicate OneUser(users: map<Id, string>, users': map<Id, string>, user: Id, email: string)
  {
    users' == users[user := email]
  }

  /** An accepted invitation: its tenant and role for the user with its address, and nothing else but that user and the mark. */
  predicate Grants(d: Directory, d': Directory, id: Id, user: Id)
  {
    && id in d.invites && var row := d.invites[id];
    && !row.accepted && !row.revoked && d.now < row.expires
    && (row.tenant, user) !in d.members && d'.members == d.members[(row.tenant, user) := row.role]
    && OneUser(d.users, d'.users, user, row.email)
    && d'.invites == d.invites[id := Invite(row.tenant, row.email, row.role, row.token, row.expires, true, false)]
    && d'.attempts == d.attempts && d'.now == d.now
  }

  lemma {:induction false} LocalGrants(d: Directory, token: Secret)
    ensures var r := AcceptLocal(d, token); var found := FindToken(d, token);
            if r.1.Ok? then found.Some? && Holding(d, found.value, token) && Grants(d, r.0, found.value, r.1.value) && r.0.identities == d.identities
            else r.0 == d
  {
    hide FindUser, FindToken, Accept, Grants;
    var found := FindToken(d, token);
    if found.Some? {
      var id := found.value;
      var email := d.invites[id].email;
      var known := FindUser(d, email);
      if known.Some? {
        AcceptGrants(d, id, known.value);
        assert d.users[known.value := email] == d.users;
        if Accept(d, id, known.value).1.Ok? { MadeMember(d, d, id, known.value); }
      } else {
        var d1 := d.(users := d.users[d.next := email], next := d.next + 1);
        AcceptGrants(d1, id, d.next);
        if Accept(d1, id, d.next).1.Ok? { MadeMember(d, d1, id, d.next); }
      }
    }
  }

  lemma {:induction false} MadeMember(d: Directory, d1: Directory, id: Id, user: Id)
    requires id in d.invites && d1.invites == d.invites && d1.members == d.members && d1.now == d.now && d1.attempts == d.attempts
    requires OneUser(d.users, d1.users, user, d.invites[id].email) && Accept(d1, id, user).1.Ok?
    ensures Grants(d, Accept(d1, id, user).0, id, user)
  {
    AcceptGrants(d1, id, user);
  }

  lemma {:induction false} OidcGrants(d: Directory, id: Id, token: Secret, issuer: string, subject: string, address: Option<string>)
    ensures var r := AcceptOidc(d, id, token, issuer, subject, address);
            if r.1.Ok? then
              && Holding(d, id, token) && Grants(d, r.0, id, r.1.value) && address == Some(d.invites[id].email)
              && (issuer, subject) in r.0.identities && r.0.identities[(issuer, subject)] == r.1.value
              && forall key :: key in d.identities && key != (issuer, subject) ==> key in r.0.identities && r.0.identities[key] == d.identities[key]
            else r.0 == d
  {
    hide FindUser, Accept, Grants;
    if Holding(d, id, token) && address == Some(d.invites[id].email) {
      var key := (issuer, subject);
      if key in d.identities && d.identities[key] in d.users {
        var d1 := d.(users := d.users[d.identities[key] := address.value]);
        AcceptGrants(d1, id, d.identities[key]);
        if Accept(d1, id, d.identities[key]).1.Ok? { MadeMember(d, d1, id, d.identities[key]); }
      } else {
        var d1 := d.(users := d.users[d.next := address.value], identities := d.identities[key := d.next], next := d.next + 1);
        AcceptGrants(d1, id, d.next);
        if Accept(d1, id, d.next).1.Ok? { MadeMember(d, d1, id, d.next); }
      }
    }
  }

  /** What the event of an acceptance says of the state before and after it. */
  ghost predicate TellsGrant(w: World, w': World, now: Time, e: Event)
  {
    && e.Accepted? && e.at == now && Last(w.log, e.id).Some? && Last(w.log, e.id).value.Issued?
    && Last(w.log, e.id).value == Issued(e.id, e.token, e.tenant, e.email, e.role, Last(w.log, e.id).value.until)
    && now < Last(w.log, e.id).value.until
    && (e.tenant, e.user) !in w.directory.members && w'.directory.members == w.directory.members[(e.tenant, e.user) := e.role]
    && OneUser(w.directory.users, w'.directory.users, e.user, e.email)
    && e.id in w'.directory.invites && w'.directory.invites[e.id].accepted
  }

  predicate Accepts(a: Action) { a.AcceptByToken? || a.AcceptByIdentity? }

  lemma {:induction false} GrantIsTold(w: World, d: Directory, d': Directory, id: Id, token: Secret, user: Id)
    requires Sound(w) && d == w.directory.(now := d.now) && Holding(d, id, token) && Grants(d, d', id, user)
    ensures TellsGrant(w, World(d', w.log + [AcceptedBy(d.invites[id], id, token, d.now, user)]), d.now, AcceptedBy(d.invites[id], id, token, d.now, user))
  {
    hide Last, Orderly, Issuable;
    RowTells(w, id);
  }

  /**
   In every run an acceptance makes the user with the invited address a member of the inviting tenant with the role of the
   invitation as it was issued last, in time, and under that token; a refused one changes nothing.
  */
  lemma {:induction false} AcceptanceGrants(steps: seq<(nat, Action)>, elapsed: nat, a: Action)
    requires Accepts(a)
    ensures var w := Run(START, steps); var now := w.directory.now + elapsed; var w' := Act(w, elapsed, a);
            if w'.log == w.log then w'.directory == w.directory.(now := now)
            else
              && |w'.log| == |w.log| + 1 && w'.log == w.log + [w'.log[|w.log|]]
              && var e := w'.log[|w.log|];
              && TellsGrant(w, w', now, e)
              && (a.AcceptByToken? ==> e.token == a.token && w'.directory.identities == w.directory.identities)
              && (a.AcceptByIdentity? ==>
                    && e.id == a.id && e.token == a.held && a.address == Some(e.email)
                    && (a.issuer, a.subject) in w'.directory.identities && w'.directory.identities[(a.issuer, a.subject)] == e.user)
  {
    hide Run, Sound, AcceptLocal, AcceptOidc, FindToken, Grants, TellsGrant;
    StartIsSound();
    RunKeeps(START, steps);
    var w := Run(START, steps);
    var d := w.directory.(now := w.directory.now + elapsed);
    match a
    case AcceptByToken(token) =>
      LocalGrants(d, token);
      var r := AcceptLocal(d, token);
      if r.1.Ok? {
        var id := FindToken(d, token).value;
        GrantIsTold(w, d, r.0, id, token, r.1.value);
        assert (w.log + [AcceptedBy(d.invites[id], id, token, d.now, r.1.value)])[|w.log|] == AcceptedBy(d.invites[id], id, token, d.now, r.1.value);
      }
    case AcceptByIdentity(id, held, issuer, subject, address) =>
      OidcGrants(d, id, held, issuer, subject, address);
      var r := AcceptOidc(d, id, held, issuer, subject, address);
      if r.1.Ok? {
        GrantIsTold(w, d, r.0, id, held, r.1.value);
        assert (w.log + [AcceptedBy(d.invites[id], id, held, d.now, r.1.value)])[|w.log|] == AcceptedBy(d.invites[id], id, held, d.now, r.1.value);
      }
  }

  // ---------- what adding or inviting leaves

  const SEVEN_DAYS: Time := 7 * 24 * 60 * 60 * 1_000_000

  /** The one row of the invitation changes, to this. */
  predicate OneInvite(d: Directory, d': Directory, id: Id, row: Invite)
  {
    d'.invites == d.invites[id := row] && d'.users == d.users && d'.identities == d.identities && d'.members == d.members && d'.now == d.now
  }

  /**
   A user with the address becomes a member with the role asked for; an address of no user gets an invitation for a week;
   only an owner gives the owner's role, and only an owner or admin any.
  */
  lemma {:induction false} AddingGrants(d: Directory, tenant: Id, actor: Role, email: string, role: Role)
    requires forall id :: id in d.invites ==> id < d.next
    ensures var r := AddMemberOrInvite(d, tenant, actor, email, role);
            match r.1
            case Ok(Member(user, withdrawn)) =>
              && (actor.Owner? || (actor.Admin? && !role.Owner?))
              && user in d.users && d.users[user] == email && (tenant, user) !in d.members
              && r.0.members == d.members[(tenant, user) := role]
              && r.0.users == d.users && r.0.identities == d.identities && r.0.now == d.now
              && (withdrawn.None? ==> r.0.invites == d.invites)
              && (withdrawn.Some? ==>
                    && InviteFor(d, withdrawn.value, tenant, email) && !d.invites[withdrawn.value].accepted && !d.invites[withdrawn.value].revoked
                    && r.0.invites == d.invites[withdrawn.value := d.invites[withdrawn.value].(revoked := true)])
            case Ok(Invited(id, secret)) =>
              && (actor.Owner? || (actor.Admin? && !role.Owner?))
              && (forall user :: user in d.users ==> d.users[user] != email)
              && secret == d.next && OneInvite(d, r.0, id, Invite(tenant, email, role, secret, d.now + SEVEN_DAYS, false, false))
              && (id in d.invites ==> InviteFor(d, id, tenant, email) && !d.invites[id].accepted && (d.invites[id].revoked || d.invites[id].expires <= d.now))
            case Err(_) => r.0 == d
  {
    hide FindUser, FindInvite, InviteNew, AddMember, WithoutAttempts;
    var known := FindUser(d, email);
    if known.Some? { AddMemberGrants(d, tenant, known.value, email, role); } else {
      NobodyHas(d, email);
      NewInvite(d, tenant, email, role);
    }
  }

  lemma {:induction false} NobodyHas(d: Directory, email: string)
    requires FindUser(d, email).None?
    ensures forall user :: user in d.users ==> d.users[user] != email
  {
    assert forall user :: user in d.users ==> !UserWith(d, user, email);
  }

  lemma {:induction false} AddMemberGrants(d: Directory, tenant: Id, user: Id, email: string, role: Role)
    ensures var r := AddMember(d, tenant, user, email, role);
            match r.1
            case Ok(Member(who, withdrawn)) =>
              && who == user && (tenant, user) !in d.members && r.0.members == d.members[(tenant, user) := role]
              && r.0.users == d.users && r.0.identities == d.identities && r.0.now == d.now
              && (withdrawn.None? ==> r.0.invites == d.invites)
              && (withdrawn.Some? ==>
                    && InviteFor(d, withdrawn.value, tenant, email) && !d.invites[withdrawn.value].accepted && !d.invites[withdrawn.value].revoked
                    && r.0.invites == d.invites[withdrawn.value := d.invites[withdrawn.value].(revoked := true)])
            case Ok(Invited(_, _)) => false
            case Err(_) => r.0 == d
  {
    hide FindInvite, WithoutAttempts;
  }

  lemma {:induction false} NewInvite(d: Directory, tenant: Id, email: string, role: Role)
    ensures var r := InviteNew(d, tenant, email, role);
            match r.1
            case Ok(Invited(id, secret)) =>
              && secret == d.next && OneInvite(d, r.0, id, Invite(tenant, email, role, secret, d.now + SEVEN_DAYS, false, false))
              && (id in d.invites ==> id == d.next + 1 || (InviteFor(d, id, tenant, email) && !d.invites[id].accepted && (d.invites[id].revoked || d.invites[id].expires <= d.now)))
            case Ok(Member(_, _)) => false
            case Err(_) => r.0 == d
  {
    hide FindInvite;
  }

  // ---------- every member of every run

  predicate JoinsAs(e: Event, tenant: Id, user: Id, role: Role)
  {
    (e.Accepted? || e.Added?) && e.tenant == tenant && e.user == user && e.role == role
  }

  ghost predicate Joined(log: seq<Event>, tenant: Id, user: Id, role: Role)
  {
    exists k :: 0 <= k < |log| && JoinsAs(log[k], tenant, user, role)
  }

  /** A user is a member with a role exactly when the log says that it joined so. */
  ghost predicate Enrolled(members: map<(Id, Id), Role>, log: seq<Event>)
  {
    forall tenant: Id, user: Id, role: Role ::
      Joined(log, tenant, user, role) <==> (tenant, user) in members && members[(tenant, user)] == role
  }

  lemma {:induction false} JoinedAppend(log: seq<Event>, e: Event, tenant: Id, user: Id, role: Role)
    ensures Joined(log + [e], tenant, user, role) <==> Joined(log, tenant, user, role) || JoinsAs(e, tenant, user, role)
  {
    var log' := log + [e];
    if Joined(log, tenant, user, role) {
      var k :| 0 <= k < |log| && JoinsAs(log[k], tenant, user, role);
      assert log'[k] == log[k];
    }
    assert log'[|log|] == e;
  }

  lemma {:induction false} JoiningEnrols(members: map<(Id, Id), Role>, log: seq<Event>, e: Event)
    requires Enrolled(members, log) && (e.Accepted? || e.Added?) && (e.tenant, e.user) !in members
    ensures Enrolled(members[(e.tenant, e.user) := e.role], log + [e])
  {
    hide Joined;
    forall tenant: Id, user: Id, role: Role
      ensures Joined(log + [e], tenant, user, role) <==> Joined(log, tenant, user, role) || JoinsAs(e, tenant, user, role) {
      JoinedAppend(log, e, tenant, user, role);
    }
  }

  lemma {:induction false} OtherEventEnrols(members: map<(Id, Id), Role>, log: seq<Event>, e: Event)
    requires Enrolled(members, log) && !e.Accepted? && !e.Added?
    ensures Enrolled(members, log + [e])
  {
    hide Joined;
    forall tenant: Id, user: Id, role: Role ensures Joined(log + [e], tenant, user, role) <==> Joined(log, tenant, user, role) {
      JoinedAppend(log, e, tenant, user, role);
    }
  }

  lemma {:induction false} AddingEnrols(w: World, elapsed: nat, a: Action)
    requires Issuable(w) && Enrolled(w.directory.members, w.log) && a.AddOrInvite?
    ensures var w' := Act(w, elapsed, a); Enrolled(w'.directory.members, w'.log)
  {
    hide AddMemberOrInvite, Enrolled, OneInvite;
    var d := w.directory.(now := w.directory.now + elapsed);
    AddingGrants(d, a.tenant, a.actor, a.email, a.role);
    match AddMemberOrInvite(d, a.tenant, a.actor, a.email, a.role).1
    case Ok(Member(user, withdrawn)) =>
      JoiningEnrols(w.directory.members, w.log, Added(a.tenant, user, a.role));
      if withdrawn.Some? {
        OtherEventEnrols(d.members[(a.tenant, user) := a.role], w.log + [Added(a.tenant, user, a.role)], Withdrawn(withdrawn.value));
      }
    case Ok(Invited(id, secret)) =>
      InviteLeavesMembers(d, AddMemberOrInvite(d, a.tenant, a.actor, a.email, a.role).0, id, Invite(a.tenant, a.email, a.role, secret, d.now + SEVEN_DAYS, false, false));
      OtherEventEnrols(w.directory.members, w.log, Issued(id, secret, a.tenant, a.email, a.role, d.now + LIFETIME));
    case Err(_) =>
  }

  lemma {:induction false} InviteLeavesMembers(d: Directory, d': Directory, id: Id, row: Invite)
    requires OneInvite(d, d', id, row)
    ensures d'.members == d.members
  {
  }

  lemma {:induction false} AcceptingEnrols(w: World, elapsed: nat, a: Action)
    requires Enrolled(w.directory.members, w.log) && Accepts(a)
    ensures var w' := Act(w, elapsed, a); Enrolled(w'.directory.members, w'.log)
  {
    hide AcceptLocal, AcceptOidc, FindToken, Enrolled, OneUser;
    var d := w.directory.(now := w.directory.now + elapsed);
    var w' := Act(w, elapsed, a);
    match a {
      case AcceptByToken(token) => LocalGrants(d, token);
      case AcceptByIdentity(id, held, issuer, subject, address) => OidcGrants(d, id, held, issuer, subject, address);
    }
    if w'.log != w.log {
      var e := w'.log[|w.log|];
      assert w'.log == w.log + [e];
      JoiningEnrols(w.directory.members, w.log, e);
    }
  }

  /** Renewals, withdrawals and logins make no member and end none. */
  lemma {:induction false} OthersEnrol(w: World, elapsed: nat, a: Action)
    requires Enrolled(w.directory.members, w.log) && !Accepts(a) && !a.AddOrInvite?
    ensures var w' := Act(w, elapsed, a); w'.directory.members == w.directory.members && Enrolled(w'.directory.members, w'.log)
  {
    hide FindToken, WithoutAttempts, Enrolled;
    var w' := Act(w, elapsed, a);
    if w'.log != w.log {
      var e := w'.log[|w.log|];
      assert w'.log == w.log + [e];
      OtherEventEnrols(w.directory.members, w.log, e);
    }
  }

  lemma {:induction false} RunEnrols(w: World, steps: seq<(nat, Action)>)
    requires Sound(w) && Enrolled(w.directory.members, w.log)
    ensures var w' := Run(w, steps); Enrolled(w'.directory.members, w'.log)
    decreases |steps|
  {
    hide Sound, Act, Enrolled, Issuable;
    if steps != [] {
      var elapsed, a := steps[0].0, steps[0].1;
      ActKeeps(w, elapsed, a);
      SoundIssuable(w);
      if a.AddOrInvite? { AddingEnrols(w, elapsed, a); } else if Accepts(a) { AcceptingEnrols(w, elapsed, a); } else { OthersEnrol(w, elapsed, a); }
      RunEnrols(Act(w, elapsed, a), steps[1..]);
    }
  }

  /**
   In every reachable state: exactly the users that accepted an invitation or were added are members, each with the role that
   it was invited or added with.
  */
  lemma {:induction false} MembersJoined(steps: seq<(nat, Action)>, tenant: Id, user: Id, role: Role)
    ensures var w := Run(START, steps);
            (tenant, user) in w.directory.members && w.directory.members[(tenant, user)] == role <==> Joined(w.log, tenant, user, role)
  {
    hide Run, Sound, Joined;
    StartIsSound();
    NobodyJoined();
    RunEnrols(START, steps);
  }

  lemma {:induction false} NobodyJoined()
    ensures Enrolled(START.directory.members, START.log)
  {
  }

  /** In every reachable state: what adding someone or inviting an address leaves. */
  lemma {:induction false} AdditionGrants(steps: seq<(nat, Action)>, elapsed: nat, tenant: Id, actor: Role, email: string, role: Role)
    ensures var d := Run(START, steps).directory; var now := d.now + elapsed;
            var r := AddMemberOrInvite(d.(now := now), tenant, actor, email, role);
            match r.1
            case Ok(Member(user, _)) =>
              && (actor.Owner? || (actor.Admin? && !role.Owner?))
              && user in d.users && d.users[user] == email && (tenant, user) !in d.members && r.0.members == d.members[(tenant, user) := role]
            case Ok(Invited(id, secret)) =>
              && (actor.Owner? || (actor.Admin? && !role.Owner?))
              && (forall user :: user in d.users ==> d.users[user] != email)
              && OneInvite(d.(now := now), r.0, id, Invite(tenant, email, role, secret, now + SEVEN_DAYS, false, false))
              && (id in d.invites ==> !d.invites[id].accepted && (d.invites[id].revoked || d.invites[id].expires <= now))
            case Err(_) => r.0 == d.(now := now)
  {
    hide Run, Sound, AddMemberOrInvite, OneInvite;
    StartIsSound();
    RunKeeps(START, steps);
    SoundIssuable(Run(START, steps));
    AddingGrants(Run(START, steps).directory.(now := Run(START, steps).directory.now + elapsed), tenant, actor, email, role);
  }

  /** Renewing: a new token and another week for the same address, tenant and role; withdrawing: the mark; each only by one who may. */
  lemma {:induction false} ChangesOf(d: Directory, tenant: Id, actor: Role, id: Id)
    ensures var renewed, revoked := Renew(d, tenant, actor, id), Revoke(d, tenant, actor, id);
            var open := id in d.invites && d.invites[id].tenant == tenant && !d.invites[id].accepted && !d.invites[id].revoked
                        && (actor.Owner? || (actor.Admin? && !d.invites[id].role.Owner?));
            && (renewed.1.Ok? <==> open) && (revoked.1.Ok? <==> open)
            && (open ==>
                  var row := d.invites[id];
                  && OneInvite(d, renewed.0, id, Invite(tenant, row.email, row.role, d.next, d.now + SEVEN_DAYS, false, false))
                  && OneInvite(d, revoked.0, id, Invite(tenant, row.email, row.role, row.token, row.expires, false, true))
                  && forall s :: s in d.attempts ==>
                       && (s in renewed.0.attempts <==> d.attempts[s].invitation != id)
                       && (s in revoked.0.attempts <==> d.attempts[s].invitation != id))
            && (!open ==> renewed.0 == d && revoked.0 == d)
  {
  }
}
