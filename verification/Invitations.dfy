/**
 Membership invitations: what each transaction does to the rows, and what every acceptance rests on. A token hash is
 the token itself, because hashing is injective here, and secrets come from the counter that never repeats.
*/
module Invitations {
  import opened Wrappers

  type Id = nat
  type Secret = nat
  type Time = int

  const LIFETIME: Time := 604_800_000_000

  datatype Role = Owner | Admin | Developer | Viewer

  datatype Invite = Invite(tenant: Id, email: string, role: Role, token: Secret, expires: Time, accepted: bool, revoked: bool)

  datatype Attempt = Attempt(invitation: Id, token: Secret, expires: Time)

  datatype Directory = Directory(
    users: map<Id, string>, identities: map<(string, string), Id>, members: map<(Id, Id), Role>,
    invites: map<Id, Invite>, attempts: map<Secret, Attempt>, next: nat, now: Time)

  const NOBODY := Directory(map[], map[], map[], map[], map[], 0, 0)

  datatype InviteError = NoRows | Conflict | AlreadyAccepted | AlreadyRevoked | Expired | EmailMismatch | Rejected

  datatype Status = Pending | IsAccepted | IsRevoked | IsExpired

  function StatusOf(i: Invite, now: Time): Status
  {
    if i.accepted then IsAccepted else if i.revoked then IsRevoked else if i.expires <= now then IsExpired else Pending
  }

  function StatusError(s: Status): InviteError
    requires !s.Pending?
  {
    match s case IsAccepted => AlreadyAccepted case IsRevoked => AlreadyRevoked case IsExpired => Expired
  }

  /** canManageRole: an owner manages everyone, an admin everyone but owners. */
  predicate MayManage(actor: Role, current: Option<Role>, wanted: Option<Role>)
  {
    actor.Owner? || (actor.Admin? && current != Some(Owner) && wanted != Some(Owner))
  }

  // ---------- lookups by a unique key

  predicate UserWith(d: Directory, id: Id, email: string) { id in d.users && d.users[id] == email }

  ghost function FindUser(d: Directory, email: string): (r: Option<Id>)
    ensures r.Some? ==> UserWith(d, r.value, email)
  {
    if exists id :: UserWith(d, id, email) then var id :| UserWith(d, id, email); Some(id) else None
  }

  predicate InviteFor(d: Directory, id: Id, tenant: Id, email: string)
  {
    id in d.invites && d.invites[id].tenant == tenant && d.invites[id].email == email
  }

  ghost function FindInvite(d: Directory, tenant: Id, email: string): (r: Option<Id>)
    ensures r.Some? ==> InviteFor(d, r.value, tenant, email)
  {
    if exists id :: InviteFor(d, id, tenant, email) then var id :| InviteFor(d, id, tenant, email); Some(id) else None
  }

  predicate Holding(d: Directory, id: Id, token: Secret) { id in d.invites && d.invites[id].token == token }

  ghost function FindToken(d: Directory, token: Secret): (r: Option<Id>)
    ensures r.Some? ==> Holding(d, r.value, token)
  {
    if exists id :: Holding(d, id, token) then var id :| Holding(d, id, token); Some(id) else None
  }

  // ---------- transactions

  function WithoutAttempts(attempts: map<Secret, Attempt>, id: Id): map<Secret, Attempt>
  {
    map s | s in attempts && attempts[s].invitation != id :: attempts[s]
  }

  datatype Added = Member(user: Id, withdrawn: Option<Id>) | Invited(id: Id, secret: Secret)

  /** A user who exists is added at once, and an open invitation of theirs is withdrawn. */
  ghost function AddMember(d: Directory, tenant: Id, user: Id, email: string, role: Role): (r: (Directory, Result<Added, InviteError>))
  {
    if (tenant, user) in d.members then (d, Err(Conflict))
    else
      var d1 := d.(members := d.members[(tenant, user) := role]);
      match FindInvite(d, tenant, email)
      case Some(id) =>
        if d.invites[id].accepted || d.invites[id].revoked then (d1, Ok(Member(user, None)))
        else (d1.(invites := d.invites[id := d.invites[id].(revoked := true)], attempts := WithoutAttempts(d.attempts, id)), Ok(Member(user, Some(id))))
      case None => (d1, Ok(Member(user, None)))
  }

  ghost function InviteNew(d: Directory, tenant: Id, email: string, role: Role): (r: (Directory, Result<Added, InviteError>))
  {
    var secret := d.next;
    var row := Invite(tenant, email, role, secret, d.now + LIFETIME, false, false);
    match FindInvite(d, tenant, email)
    case Some(id) =>
      if d.invites[id].accepted || (!d.invites[id].revoked && d.invites[id].expires > d.now) then (d, Err(Conflict))
      else (d.(invites := d.invites[id := row], next := d.next + 2), Ok(Invited(id, secret)))
    case None => (d.(invites := d.invites[d.next + 1 := row], next := d.next + 2), Ok(Invited(d.next + 1, secret)))
  }

  ghost function AddMemberOrInvite(d: Directory, tenant: Id, actor: Role, email: string, role: Role): (r: (Directory, Result<Added, InviteError>))
  {
    if !MayManage(actor, None, Some(role)) then (d, Err(Conflict))
    else match FindUser(d, email)
      case Some(user) => AddMember(d, tenant, user, email, role)
      case None => InviteNew(d, tenant, email, role)
  }

  ghost function StartLogin(d: Directory, token: Secret, lifetime: Time): (r: (Directory, Result<Secret, InviteError>))
  {
    match FindToken(d, token)
    case None => (d, Err(NoRows))
    case Some(id) =>
      var status := StatusOf(d.invites[id], d.now);
      if !status.Pending? then (d, Err(StatusError(status)))
      else (d.(attempts := d.attempts[d.next := Attempt(id, token, d.now + lifetime)], next := d.next + 1), Ok(d.next))
  }

  /** ConsumeOIDCAttempt: the attempt is used up and names the invitation and its token. */
  function FinishLogin(d: Directory, state: Secret): (r: (Directory, Result<Attempt, InviteError>))
  {
    if state in d.attempts && d.attempts[state].expires > d.now
    then (d.(attempts := d.attempts - {state}), Ok(d.attempts[state])) else (d, Err(NoRows))
  }

  function Renew(d: Directory, tenant: Id, actor: Role, id: Id): (r: (Directory, Result<Secret, InviteError>))
  {
    if !(id in d.invites && d.invites[id].tenant == tenant) then (d, Err(NoRows))
    else
      var row := d.invites[id];
      if row.accepted || row.revoked || !MayManage(actor, Some(row.role), Some(row.role)) then (d, Err(Conflict))
      else (d.(invites := d.invites[id := row.(token := d.next, expires := d.now + LIFETIME)],
               attempts := WithoutAttempts(d.attempts, id), next := d.next + 1), Ok(d.next))
  }

  function Revoke(d: Directory, tenant: Id, actor: Role, id: Id): (r: (Directory, Result<(), InviteError>))
  {
    if !(id in d.invites && d.invites[id].tenant == tenant) then (d, Err(NoRows))
    else
      var row := d.invites[id];
      if row.accepted || row.revoked || !MayManage(actor, Some(row.role), None) then (d, Err(Conflict))
      else (d.(invites := d.invites[id := row.(revoked := true)], attempts := WithoutAttempts(d.attempts, id)), Ok(()))
  }

  /** acceptInvitation, for the invitation row as it was locked. */
  function Accept(d: Directory, id: Id, user: Id): (r: (Directory, Result<Id, InviteError>))
    requires id in d.invites
  {
    var row := d.invites[id];
    var status := StatusOf(row, d.now);
    if !status.Pending? then (d, Err(StatusError(status)))
    else if (row.tenant, user) in d.members then (d, Err(Conflict))
    else (d.(members := d.members[(row.tenant, user) := row.role], invites := d.invites[id := row.(accepted := true)]), Ok(user))
  }

  /** An error of the second part undoes the first. */
  function Undoing(before: Directory, r: (Directory, Result<Id, InviteError>)): (Directory, Result<Id, InviteError>)
  {
    if r.1.Err? then (before, r.1) else r
  }

  ghost function AcceptLocal(d: Directory, token: Secret): (r: (Directory, Result<Id, InviteError>))
  {
    match FindToken(d, token)
    case None => (d, Err(NoRows))
    case Some(id) =>
      var status := StatusOf(d.invites[id], d.now);
      if !status.Pending? then (d, Err(StatusError(status)))
      else
        var email := d.invites[id].email;
        match FindUser(d, email)
        case Some(user) => Accept(d, id, user)
        case None => Undoing(d, Accept(d.(users := d.users[d.next := email], next := d.next + 1), id, d.next))
  }

  /** email is the normalised address of the identity, None when it is no address. */
  ghost function AcceptOidc(d: Directory, id: Id, token: Secret, issuer: string, subject: string, email: Option<string>)
    : (r: (Directory, Result<Id, InviteError>))
  {
    if !Holding(d, id, token) then (d, Err(NoRows))
    else if email != Some(d.invites[id].email) then (d, Err(EmailMismatch))
    else if issuer == "" || subject == "" then (d, Err(Rejected))
    else
      var holder := FindUser(d, email.value);
      if (issuer, subject) in d.identities && d.identities[(issuer, subject)] in d.users then
        var user := d.identities[(issuer, subject)];
        if holder.Some? && holder.value != user then (d, Err(Conflict))
        else Undoing(d, Accept(d.(users := d.users[user := email.value]), id, user))
      else if holder.Some? then (d, Err(Conflict))
      else
        Undoing(d, Accept(d.(users := d.users[d.next := email.value], identities := d.identities[(issuer, subject) := d.next], next := d.next + 1),
                          id, d.next))
  }

  // ---------- runs

  datatype Action =
    | AddOrInvite(tenant: Id, actor: Role, email: string, role: Role)
    | RenewIt(renewTenant: Id, renewActor: Role, renewId: Id)
    | RevokeIt(revokeTenant: Id, revokeActor: Role, revokeId: Id)
    | Login(loginToken: Secret, lifetime: Time)
    | LoggedIn(state: Secret)
    | AcceptByToken(token: Secret)
    | AcceptByIdentity(id: Id, held: Secret, issuer: string, subject: string, address: Option<string>)

  datatype Event =
    | Issued(id: Id, token: Secret, tenant: Id, email: string, role: Role, until: Time)
    | Withdrawn(id: Id)
    | Accepted(id: Id, token: Secret, at: Time, user: Id, tenant: Id, email: string, role: Role)
    | Added(tenant: Id, user: Id, role: Role)

  /** The invitation that the event is about. */
  function Of(e: Event): Option<Id> { if e.Added? then None else Some(e.id) }

  function IssuedAgain(row: Invite, id: Id, token: Secret, until: Time): Event
  {
    Issued(id, token, row.tenant, row.email, row.role, until)
  }

  function AcceptedBy(row: Invite, id: Id, token: Secret, at: Time, user: Id): Event
  {
    Accepted(id, token, at, user, row.tenant, row.email, row.role)
  }

  datatype World = World(directory: Directory, log: seq<Event>)

  ghost function Act(w: World, elapsed: nat, a: Action): World
  {
    var d := w.directory.(now := w.directory.now + elapsed);
    match a
    case AddOrInvite(tenant, actor, email, role) =>
      var r := AddMemberOrInvite(d, tenant, actor, email, role);
      World(r.0, match r.1
            case Ok(Invited(id, secret)) => w.log + [Issued(id, secret, tenant, email, role, d.now + LIFETIME)]
            case Ok(Member(user, None)) => w.log + [Added(tenant, user, role)]
            case Ok(Member(user, Some(id))) => w.log + [Added(tenant, user, role)] + [Withdrawn(id)]
            case _ => w.log)
    case RenewIt(tenant, actor, id) =>
      var r := Renew(d, tenant, actor, id);
      World(r.0, if r.1.Ok? then w.log + [IssuedAgain(d.invites[id], id, r.1.value, d.now + LIFETIME)] else w.log)
    case RevokeIt(tenant, actor, id) =>
      var r := Revoke(d, tenant, actor, id);
      World(r.0, if r.1.Ok? then w.log + [Withdrawn(id)] else w.log)
    case Login(token, lifetime) => World(StartLogin(d, token, lifetime).0, w.log)
    case LoggedIn(state) => World(FinishLogin(d, state).0, w.log)
    case AcceptByToken(token) =>
      var r := AcceptLocal(d, token);
      World(r.0, if r.1.Ok? then w.log + [AcceptedBy(d.invites[FindToken(d, token).value], FindToken(d, token).value, token, d.now, r.1.value)] else w.log)
    case AcceptByIdentity(id, held, issuer, subject, address) =>
      var r := AcceptOidc(d, id, held, issuer, subject, address);
      World(r.0, if r.1.Ok? then w.log + [AcceptedBy(d.invites[id], id, held, d.now, r.1.value)] else w.log)
  }

  ghost function Run(w: World, steps: seq<(nat, Action)>): World
    decreases |steps|
  {
    if steps == [] then w else Run(Act(w, steps[0].0, steps[0].1), steps[1..])
  }

  // ---------- the life cycle of an invitation

  /** The latest event about an invitation. */
  ghost function Last(log: seq<Event>, id: Id): (r: Option<Event>)
    ensures r.Some? ==> r.value in log && Of(r.value) == Some(id)
    ensures r.None? ==> forall k :: 0 <= k < |log| ==> Of(log[k]) != Some(id)
  {
    if log == [] then None
    else if Of(log[|log| - 1]) == Some(id) then Some(log[|log| - 1])
    else
      assert forall k :: 0 <= k < |log| - 1 ==> log[k] == log[..|log| - 1][k];
      Last(log[..|log| - 1], id)
  }

  /** The token is none that was issued before. */
  ghost predicate NewToken(log: seq<Event>, token: Secret)
  {
    forall k :: 0 <= k < |log| && log[k].Issued? ==> log[k].token != token
  }

  /** What may follow the events so far. */
  ghost predicate MayFollow(log: seq<Event>, e: Event)
  {
    match e
    case Issued(id, token, _, _, _, _) => NewToken(log, token) && (Last(log, id).Some? ==> !Last(log, id).value.Accepted?)
    case Withdrawn(id) => Last(log, id).Some? && Last(log, id).value.Issued?
    case Accepted(id, token, at, _, tenant, email, role) =>
      var last := Last(log, id);
      last.Some? && last.value.Issued? && at < last.value.until && last.value == Issued(id, token, tenant, email, role, last.value.until)
    case Added(_, _, _) => true
  }

  ghost predicate Orderly(log: seq<Event>)
  {
    forall k :: 0 <= k < |log| ==> MayFollow(log[..k], log[k])
  }

  /** The row of an invitation tells its latest event. */
  ghost predicate Tells(row: Invite, id: Id, log: seq<Event>)
  {
    var last := Last(log, id);
    && last.Some?
    && (if row.accepted then last.value.Accepted?
        else if row.revoked then last.value.Withdrawn?
        else last.value == IssuedAgain(row, id, row.token, row.expires))
  }

  ghost predicate Told(w: World)
  {
    && (forall id :: id in w.directory.invites ==> Tells(w.directory.invites[id], id, w.log))
    && (forall id :: id !in w.directory.invites ==> Last(w.log, id).None?)
  }

  ghost predicate Issuable(w: World)
  {
    && (forall k :: 0 <= k < |w.log| && w.log[k].Issued? ==> w.log[k].token < w.directory.next)
    && (forall id :: id in w.directory.invites ==> id < w.directory.next)
  }

  ghost predicate Sound(w: World) { Orderly(w.log) && Told(w) && Issuable(w) }

  lemma {:induction false} LastAppend(log: seq<Event>, e: Event, id: Id)
    ensures Last(log + [e], id) == if Of(e) == Some(id) then Some(e) else Last(log, id)
  {
    assert (log + [e])[..|log|] == log;
  }

  lemma {:induction false} OrderlyAppend(log: seq<Event>, e: Event)
    requires Orderly(log) && MayFollow(log, e)
    ensures Orderly(log + [e])
  {
    var log' := log + [e];
    assert log'[..|log|] == log;
    forall k | 0 <= k < |log'| ensures MayFollow(log'[..k], log'[k]) {
      if k < |log| { assert log'[..k] == log[..k]; }
    }
  }

  ghost predicate TellsEvent(row: Invite, e: Event)
  {
    !e.Added? && if row.accepted then e.Accepted? else if row.revoked then e.Withdrawn? else e == IssuedAgain(row, e.id, row.token, row.expires)
  }

  lemma {:induction false} TellsOn(row: Invite, id: Id, log: seq<Event>, e: Event)
    requires if Of(e) == Some(id) then TellsEvent(row, e) else Tells(row, id, log)
    ensures Tells(row, id, log + [e])
  {
    hide Last;
    LastAppend(log, e, id);
  }

  /** One event, and the one row it is about. */
  lemma {:induction false} EventKeeps(w: World, w': World, e: Event)
    requires Sound(w) && w'.log == w.log + [e] && MayFollow(w.log, e)
    requires w.directory.next <= w'.directory.next
    requires !e.Added? && e.id in w'.directory.invites && w'.directory.invites == w.directory.invites[e.id := w'.directory.invites[e.id]]
    requires e.id < w'.directory.next && (e.Issued? ==> e.token < w'.directory.next)
    requires TellsEvent(w'.directory.invites[e.id], e)
    ensures Sound(w')
  {
    hide Orderly, MayFollow, Last, Tells, TellsEvent;
    OrderlyAppend(w.log, e);
    forall id | id in w'.directory.invites ensures Tells(w'.directory.invites[id], id, w'.log) {
      TellsOn(w'.directory.invites[id], id, w.log, e);
    }
    forall id: Id | id !in w'.directory.invites ensures Last(w'.log, id).None? { LastAppend(w.log, e, id); }
  }

  lemma {:induction false} QuietKeeps(w: World, w': World)
    requires Sound(w) && w'.log == w.log && w'.directory.invites == w.directory.invites && w.directory.next <= w'.directory.next
    ensures Sound(w')
  {
  }

  lemma {:induction false} FreshToken(w: World, token: Secret)
    requires Issuable(w) && token >= w.directory.next
    ensures NewToken(w.log, token)
  {
  }

  lemma {:induction false} RowTells(w: World, id: Id)
    requires Sound(w) && id in w.directory.invites
    ensures Tells(w.directory.invites[id], id, w.log) && id < w.directory.next
  {
  }

  lemma {:induction false} AcceptKeeps(w: World, w': World, id: Id, user: Id)
    requires Sound(w) && id in w.directory.invites && StatusOf(w.directory.invites[id], w.directory.now).Pending?
    requires var row := w.directory.invites[id];
             && w'.log == w.log + [AcceptedBy(row, id, row.token, w.directory.now, user)]
             && w'.directory.invites == w.directory.invites[id := row.(accepted := true)] && w.directory.next <= w'.directory.next
    ensures Sound(w')
  {
    hide Orderly, Last, Told, Issuable;
    RowTells(w, id);
    var row := w.directory.invites[id];
    EventKeeps(w, w', AcceptedBy(row, id, row.token, w.directory.now, user));
  }

  lemma {:induction false} AddKeeps(w: World, a: Action, elapsed: nat)
    requires Sound(w) && a.AddOrInvite?
    ensures Sound(Act(w, elapsed, a))
  {
    hide Orderly, Last, Told, Issuable, Sound, FindUser, FindInvite, WithoutAttempts;
    var d := w.directory.(now := w.directory.now + elapsed);
    var w1, w' := World(d, w.log), Act(w, elapsed, a);
    QuietKeeps(w, w1);
    if w'.log == w.log {
      QuietKeeps(w1, w');
    } else {
      var e := w'.log[|w.log|];
      SoundIssuable(w1);
      if e.Added? {
        AdditionKeeps(w1, e);
        var w2 := World(d, w.log + [e]);
        if |w'.log| == |w.log| + 1 {
          QuietKeeps(w2, w');
        } else {
          var id := w'.log[|w.log| + 1].id;
          RowTells(w2, id);
          EventKeeps(w2, w', Withdrawn(id));
        }
      } else {
        assert w'.log == w.log + [e];
        FreshToken(w1, e.token);
        if e.id in d.invites { RowTells(w1, e.id); } else { NeverHeardOf(w1, e.id); }
        EventKeeps(w1, w', e);
      }
    }
  }

  lemma {:induction false} AdditionKeeps(w: World, e: Event)
    requires Sound(w) && e.Added?
    ensures Sound(World(w.directory, w.log + [e]))
  {
    hide MayFollow, Last, Tells;
    MayAdd(w.log, e);
    OrderlyAppend(w.log, e);
    var w' := World(w.directory, w.log + [e]);
    forall id ensures Last(w'.log, id) == Last(w.log, id) { LastAppend(w.log, e, id); }
    forall id | id in w.directory.invites ensures Tells(w.directory.invites[id], id, w'.log) { TellsOn(w.directory.invites[id], id, w.log, e); }
  }

  lemma {:induction false} MayAdd(log: seq<Event>, e: Event)
    requires e.Added?
    ensures MayFollow(log, e)
  {
  }

  lemma {:induction false} SoundIssuable(w: World)
    requires Sound(w)
    ensures Issuable(w)
  {
  }

  lemma {:induction false} NeverHeardOf(w: World, id: Id)
    requires Sound(w) && id !in w.directory.invites
    ensures Last(w.log, id).None?
  {
  }

  lemma {:induction false} ActKeeps(w: World, elapsed: nat, a: Action)
    requires Sound(w)
    ensures Sound(Act(w, elapsed, a))
  {
    hide Orderly, Last, Told, Issuable, Sound, FindUser, FindInvite, FindToken, WithoutAttempts, AddMemberOrInvite;
    var d := w.directory.(now := w.directory.now + elapsed);
    var w1, w' := World(d, w.log), Act(w, elapsed, a);
    QuietKeeps(w, w1);
    match a
    case AddOrInvite(_, _, _, _) => AddKeeps(w, a, elapsed);
    case RenewIt(_, _, id) =>
      if w'.log == w.log { QuietKeeps(w1, w'); } else {
        SoundIssuable(w1);
        RowTells(w1, id);
        FreshToken(w1, d.next);
        EventKeeps(w1, w', w'.log[|w.log|]);
      }
    case RevokeIt(_, _, id) =>
      if w'.log == w.log { QuietKeeps(w1, w'); } else {
        RowTells(w1, id);
        EventKeeps(w1, w', Withdrawn(id));
      }
    case Login(_, _) => QuietKeeps(w1, w');
    case LoggedIn(_) => QuietKeeps(w1, w');
    case AcceptByToken(token) =>
      if w'.log == w.log { QuietKeeps(w1, w'); } else {
        var id := FindToken(d, token).value;
        TokenHeld(d, token);
        AcceptKeeps(w1, w', id, w'.log[|w.log|].user);
      }
    case AcceptByIdentity(id, held, _, _, _) =>
      if w'.log == w.log { QuietKeeps(w1, w'); } else { AcceptKeeps(w1, w', id, w'.log[|w.log|].user); }
  }

  lemma {:induction false} TokenHeld(d: Directory, token: Secret)
    ensures FindToken(d, token).Some? ==> Holding(d, FindToken(d, token).value, token)
  {
  }

  lemma {:induction false} RunKeeps(w: World, steps: seq<(nat, Action)>)
    requires Sound(w)
    ensures Sound(Run(w, steps))
    decreases |steps|
  {
    hide Sound, Act;
    if steps != [] {
      ActKeeps(w, steps[0].0, steps[0].1);
      RunKeeps(Act(w, steps[0].0, steps[0].1), steps[1..]);
    }
  }

  const START := World(NOBODY, [])

  lemma {:induction false} StartIsSound()
    ensures Sound(START)
  {
  }

  // ---------- what every run promises

  lemma {:induction false} LastIndex(log: seq<Event>, id: Id) returns (j: nat)
    requires Last(log, id).Some?
    ensures j < |log| && log[j] == Last(log, id).value && forall i :: j < i < |log| ==> Of(log[i]) != Some(id)
    decreases |log|
  {
    if Of(log[|log| - 1]) == Some(id) {
      j := |log| - 1;
    } else {
      j := LastIndex(log[..|log| - 1], id);
    }
  }

  /** The acceptance at k uses the token issued last, in time, for the invited address. */
  ghost predicate FromLatest(log: seq<Event>, j: nat, k: nat)
  {
    && j < k < |log| && log[j].Issued? && log[k].Accepted?
    && log[j] == Issued(log[k].id, log[k].token, log[k].tenant, log[k].email, log[k].role, log[j].until) && log[k].at < log[j].until
    && forall i :: j < i < k ==> Of(log[i]) != Some(log[k].id)
  }

  lemma {:induction false} AcceptedFromLatest(steps: seq<(nat, Action)>, k: nat)
    requires k < |Run(START, steps).log| && Run(START, steps).log[k].Accepted?
    ensures exists j :: FromLatest(Run(START, steps).log, j, k)
  {
    hide Run, Told, Issuable, Last;
    StartIsSound();
    RunKeeps(START, steps);
    var log := Run(START, steps).log;
    assert MayFollow(log[..k], log[k]);
    var j := LastIndex(log[..k], log[k].id);
    assert FromLatest(log, j, k);
  }

  /** Nothing happens to an invitation after it was accepted. */
  lemma {:induction false} AcceptedIsFinal(steps: seq<(nat, Action)>, k: nat, i: nat)
    requires k < i < |Run(START, steps).log| && Run(START, steps).log[k].Accepted?
    ensures Of(Run(START, steps).log[i]) != Some(Run(START, steps).log[k].id)
  {
    hide Run, Told, Issuable, Last;
    StartIsSound();
    RunKeeps(START, steps);
    NothingFollows(Run(START, steps).log, k, i);
  }

  lemma {:induction false} NothingFollows(log: seq<Event>, k: nat, i: nat)
    requires Orderly(log) && k < i < |log| && log[k].Accepted?
    ensures Of(log[i]) != Some(log[k].id)
    decreases i
  {
    hide Last;
    assert MayFollow(log[..i], log[i]);
    if Of(log[i]) == Some(log[k].id) {
      assert log[..i][k] == log[k];
      var j := LastIndex(log[..i], log[k].id);
      if j > k { NothingFollows(log, k, j); }
      assert false;
    }
  }

  /** A token that was followed by a renewal, a withdrawal or an acceptance opens nothing any more. */
  lemma {:induction false} OldTokenIsRefused(
    steps: seq<(nat, Action)>, j: nat, k: nat, issuer: string, subject: string, email: Option<string>)
    requires j < k < |Run(START, steps).log|
    requires var log := Run(START, steps).log; log[j].Issued? && Of(log[k]) == Some(log[j].id)
    ensures var w := Run(START, steps);
            && AcceptLocal(w.directory, w.log[j].token).1.Err?
            && forall id :: AcceptOidc(w.directory, id, w.log[j].token, issuer, subject, email).1.Err?
  {
    hide Run, Last, FindUser, FindInvite, FindToken;
    StartIsSound();
    RunKeeps(START, steps);
    var w := Run(START, steps);
    var token := w.log[j].token;
    TokenHeld(w.directory, token);
    forall id | Holding(w.directory, id, token) ensures !StatusOf(w.directory.invites[id], w.directory.now).Pending? {
      if StatusOf(w.directory.invites[id], w.directory.now).Pending? {
        RowTells(w, id);
        var last := LastIndex(w.log, id);
        IssuedOnce(w.log, j, last);
      }
    }
  }

  lemma {:induction false} IssuedOnce(log: seq<Event>, i: nat, j: nat)
    requires Orderly(log) && i < |log| && j < |log| && log[i].Issued? && log[j].Issued? && log[i].token == log[j].token
    ensures i == j
  {
    hide Last;
    assert MayFollow(log[..i], log[i]) && MayFollow(log[..j], log[j]);
  }
}
