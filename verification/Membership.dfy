// Organizations, memberships and invitations. Every use case is one transaction except accepting an
// invitation, which is two, with anything allowed in between.
module Membership {
  import opened Wrappers

  type Id = nat         // a UUID, only ever compared
  type TokenHash = nat  // SHA-256 of an invitation token
  type Email = string   // already stripped and lower-cased
  type Time = int

  datatype Role = Owner | Admin | Member | Viewer

  const INVITABLE_ROLES := {Admin, Member, Viewer}

  datatype MemberRow = MemberRow(tenant: Id, user: Id, role: Role)

  datatype Invitation = Invitation(tenant: Id, email: Email, role: Role, tokenHash: TokenHash, expiresAt: Time,
                                   acceptedAt: Option<Time>, revokedAt: Option<Time>)

  // An acceptance between its two transactions: what the first one read and the user it settled on.
  datatype Accepting = Accepting(invitationId: Id, invitation: Invitation, user: Id)

  // Tables with their unique indexes: email of a user, user of a membership, token hash of an invitation.
  datatype Tables = Tables(
    users: map<Id, Email>,
    byEmail: map<Email, Id>,
    organizations: set<Id>,
    members: map<Id, MemberRow>,
    memberOf: map<Id, Id>,
    invitations: map<Id, Invitation>,
    byToken: map<TokenHash, Id>,
    accepting: map<nat, Accepting>)

  const EMPTY := Tables(map[], map[], {}, map[], map[], map[], map[], map[])

  datatype Op =
    | Register(email: Email, userId: Id, orgId: Id, membershipId: Id)
    | Invite(tenant: Id, inviter: Role, emailFree: bool, email: Email, role: Role, invitationId: Id, tokenHash: TokenHash, expiresAt: Time)
    | Revoke(tenant: Id, invitationId: Id, now: Time)
    | AcceptFirst(request: nat, tokenHash: TokenHash, newUserId: Id, passwordOk: bool, now: Time)
    | AcceptSecond(request: nat, membershipId: Id, now: Time)
    | AcceptLost(request: nat)
    | RemoveMember(tenant: Id, actor: Id, actorRole: Role, membershipId: Id, stepUp: bool)

  predicate Pending(i: Invitation) { i.acceptedAt.None? && i.revokedAt.None? }

  // uq_invitation_pending_tenant_email, and has_pending_for_email
  predicate HasPending(rows: map<Id, Invitation>, tenant: Id, email: Email) {
    exists k | k in rows :: rows[k].tenant == tenant && rows[k].email == email && Pending(rows[k])
  }

  function RegisterStep(t: Tables, op: Op): Tables
    requires op.Register?
  {
    if op.email in t.byEmail || op.userId in t.users || op.orgId in t.organizations || op.membershipId in t.members || op.userId in t.memberOf then t
    else
      t.(users := t.users[op.userId := op.email], byEmail := t.byEmail[op.email := op.userId],
         organizations := t.organizations + {op.orgId},
         members := t.members[op.membershipId := MemberRow(op.orgId, op.userId, Owner)],
         memberOf := t.memberOf[op.userId := op.membershipId])
  }

  // `emailFree`: an earlier transaction saw no membership under the email.
  function InviteStep(t: Tables, op: Op): Tables
    requires op.Invite?
  {
    if !op.emailFree then t
    else if op.role !in INVITABLE_ROLES || (op.inviter == Admin && op.role == Admin) then t
    else if HasPending(t.invitations, op.tenant, op.email) || op.tenant !in t.organizations then t
    else if op.invitationId in t.invitations || op.tokenHash in t.byToken then t
    else
      t.(invitations := t.invitations[op.invitationId := Invitation(op.tenant, op.email, op.role, op.tokenHash, op.expiresAt, None, None)],
         byToken := t.byToken[op.tokenHash := op.invitationId])
  }

  function RevokeStep(t: Tables, op: Op): Tables
    requires op.Revoke?
  {
    if op.invitationId !in t.invitations then t
    else
      var i := t.invitations[op.invitationId];
      if i.tenant != op.tenant || !Pending(i) then t
      else t.(invitations := t.invitations[op.invitationId := i.(revokedAt := Some(op.now))])
  }

  // First transaction: find the invitation, then find or create the user. `passwordOk`: the password
  // matches the user's, or is strong enough for a new one.
  function AcceptFirstStep(t: Tables, op: Op): Tables
    requires op.AcceptFirst?
  {
    if op.request in t.accepting || op.tokenHash !in t.byToken || t.byToken[op.tokenHash] !in t.invitations then t
    else
      var id := t.byToken[op.tokenHash];
      var i := t.invitations[id];
      if !Pending(i) || i.expiresAt <= op.now then t
      else if i.email in t.byEmail then
        var user := t.byEmail[i.email];
        if user in t.memberOf || !op.passwordOk then t
        else t.(accepting := t.accepting[op.request := Accepting(id, i, user)])
      else if !op.passwordOk || op.newUserId in t.users || op.newUserId in t.memberOf then t
      else
        t.(users := t.users[op.newUserId := i.email], byEmail := t.byEmail[i.email := op.newUserId],
           accepting := t.accepting[op.request := Accepting(id, i, op.newUserId)])
  }

  // mark_accepted: the row is found by id and tenant, or nothing is updated.
  function MarkAccepted(rows: map<Id, Invitation>, id: Id, tenant: Id, now: Time): map<Id, Invitation> {
    if id in rows && rows[id].tenant == tenant then rows[id := rows[id].(acceptedAt := Some(now))] else rows
  }

  // Second transaction: add the membership and mark the invitation accepted, whatever happened to
  // either since. A second membership of the user fails on uq_membership_one_user.
  function AcceptSecondStep(t: Tables, op: Op): Tables
    requires op.AcceptSecond?
  {
    if op.request !in t.accepting then t
    else
      var a := t.accepting[op.request];
      var t' := t.(accepting := t.accepting - {op.request});
      if a.user in t.memberOf || op.membershipId in t.members then t'
      else
        t'.(members := t.members[op.membershipId := MemberRow(a.invitation.tenant, a.user, a.invitation.role)],
            memberOf := t.memberOf[a.user := op.membershipId],
            invitations := MarkAccepted(t.invitations, a.invitationId, a.invitation.tenant, op.now))
  }

  function RemoveStep(t: Tables, op: Op): Tables
    requires op.RemoveMember?
  {
    if !op.stepUp || op.membershipId !in t.members then t
    else
      var m := t.members[op.membershipId];
      if m.tenant != op.tenant || m.user == op.actor || m.role == Owner || (op.actorRole == Admin && m.role in {Owner, Admin}) then t
      else t.(members := t.members - {op.membershipId}, memberOf := t.memberOf - {m.user})
  }

  function Apply(t: Tables, op: Op): Tables {
    match op
    case Register(_, _, _, _) => RegisterStep(t, op)
    case Invite(_, _, _, _, _, _, _, _) => InviteStep(t, op)
    case Revoke(_, _, _) => RevokeStep(t, op)
    case AcceptFirst(_, _, _, _, _) => AcceptFirstStep(t, op)
    case AcceptSecond(_, _, _) => AcceptSecondStep(t, op)
    case AcceptLost(request) => t.(accepting := t.accepting - {request})
    case RemoveMember(_, _, _, _, _) => RemoveStep(t, op)
  }

  // --- Invariant ---

  ghost predicate IsOwnerOf(t: Tables, org: Id, m: Id) {
    m in t.members && t.members[m].tenant == org && t.members[m].role == Owner
  }

  ghost predicate SoleOwner(t: Tables, org: Id, m: Id) {
    IsOwnerOf(t, org, m) && forall k :: IsOwnerOf(t, org, k) ==> k == m
  }

  ghost predicate OneOwner(t: Tables, org: Id) { exists m :: SoleOwner(t, org, m) }

  // The membership has an accepted invitation of the same tenant, role and email.
  ghost predicate Backed(t: Tables, m: MemberRow) {
    exists i :: i in t.invitations && t.invitations[i].acceptedAt.Some? && t.invitations[i].tenant == m.tenant &&
      t.invitations[i].role == m.role && m.user in t.users && t.invitations[i].email == t.users[m.user]
  }

  ghost predicate SameOffer(a: Invitation, b: Invitation) { a.tenant == b.tenant && a.email == b.email && a.role == b.role }

  ghost predicate UsersIndexed(t: Tables) {
    && (forall e :: e in t.byEmail ==> t.byEmail[e] in t.users && t.users[t.byEmail[e]] == e)
    && (forall u :: u in t.users ==> t.users[u] in t.byEmail && t.byEmail[t.users[u]] == u)
  }

  ghost predicate MembersIndexed(t: Tables) {
    && (forall u :: u in t.memberOf ==> t.memberOf[u] in t.members && t.members[t.memberOf[u]].user == u)
    && (forall m :: m in t.members ==>
          && t.members[m].user in t.memberOf && t.memberOf[t.members[m].user] == m
          && t.members[m].user in t.users && t.members[m].tenant in t.organizations)
  }

  ghost predicate OffersOk(t: Tables) {
    && (forall i :: i in t.invitations ==> t.invitations[i].role != Owner && t.invitations[i].tenant in t.organizations)
    && (forall r :: r in t.accepting ==>
          && t.accepting[r].invitationId in t.invitations
          && SameOffer(t.invitations[t.accepting[r].invitationId], t.accepting[r].invitation)
          && t.accepting[r].user in t.users && t.users[t.accepting[r].user] == t.accepting[r].invitation.email)
  }

  ghost predicate Indexed(t: Tables) { UsersIndexed(t) && MembersIndexed(t) && OffersOk(t) }

  ghost predicate Inv(t: Tables) {
    && Indexed(t)
    && (forall org :: org in t.organizations ==> OneOwner(t, org))
    && (forall m :: m in t.members && t.members[m].role != Owner ==> Backed(t, t.members[m]))
  }

  // Memberships other than owners come and go without touching the owner.
  lemma OwnerFrame(t: Tables, t': Tables, org: Id)
    requires OneOwner(t, org) && forall m :: IsOwnerOf(t', org, m) <==> IsOwnerOf(t, org, m)
    ensures OneOwner(t', org)
  {
    var m :| SoleOwner(t, org, m);
    assert SoleOwner(t', org, m);
  }

  // Users and accepted invitations never go away or change their offer.
  ghost predicate Keeps(t: Tables, t': Tables) {
    && (forall u :: u in t.users ==> u in t'.users && t'.users[u] == t.users[u])
    && (forall i :: i in t.invitations ==>
          i in t'.invitations && SameOffer(t.invitations[i], t'.invitations[i]) &&
          (t.invitations[i].acceptedAt.Some? ==> t'.invitations[i].acceptedAt.Some?))
    && t.organizations <= t'.organizations
  }

  lemma BackedKept(t: Tables, t': Tables, m: MemberRow)
    requires Backed(t, m) && Keeps(t, t')
    ensures Backed(t', m)
  {
    var i :| i in t.invitations && t.invitations[i].acceptedAt.Some? && t.invitations[i].tenant == m.tenant &&
      t.invitations[i].role == m.role && m.user in t.users && t.invitations[i].email == t.users[m.user];
    assert i in t'.invitations;
  }

  lemma AcceptSecondKeeps(t: Tables, op: Op)
    requires op.AcceptSecond?
    ensures Keeps(t, AcceptSecondStep(t, op))
  {
  }

  lemma RegisterKeeps(t: Tables, op: Op)
    requires op.Register?
    ensures Keeps(t, RegisterStep(t, op))
  {
  }

  lemma AcceptFirstKeeps(t: Tables, op: Op)
    requires op.AcceptFirst?
    ensures Keeps(t, AcceptFirstStep(t, op))
  {
  }

  lemma InviteKeeps(t: Tables, op: Op)
    requires op.Invite?
    ensures Keeps(t, InviteStep(t, op))
  {
    hide HasPending;
  }

  lemma ApplyKeeps(t: Tables, op: Op)
    ensures Keeps(t, Apply(t, op))
  {
    hide AcceptSecondStep, RegisterStep, AcceptFirstStep, InviteStep;
    if op.Invite? { InviteKeeps(t, op); }
    if op.AcceptSecond? { AcceptSecondKeeps(t, op); }
    if op.Register? { RegisterKeeps(t, op); }
    if op.AcceptFirst? { AcceptFirstKeeps(t, op); }
  }

  // Steps that leave the memberships alone.
  lemma NoMemberChange(t: Tables, t': Tables)
    requires Inv(t) && Keeps(t, t') && t'.members == t.members && t'.memberOf == t.memberOf && t'.organizations == t.organizations
    requires Indexed(t')
    ensures Inv(t')
  {
    hide Indexed, Keeps;
    forall org | org in t'.organizations ensures OneOwner(t', org) {
      forall m ensures IsOwnerOf(t', org, m) <==> IsOwnerOf(t, org, m) { }
      OwnerFrame(t, t', org);
    }
    forall m | m in t'.members && t'.members[m].role != Owner ensures Backed(t', t'.members[m]) { BackedKept(t, t', t.members[m]); }
  }

  lemma RegisterIndexed(t: Tables, op: Op)
    requires Indexed(t) && op.Register?
    ensures Indexed(RegisterStep(t, op))
  {
    RegisterMembers(t, op);
    RegisterUsers(t, op);
    RegisterOffers(t, op);
    hide MembersIndexed, UsersIndexed, OffersOk, RegisterStep;
  }

  lemma RegisterOffers(t: Tables, op: Op)
    requires UsersIndexed(t) && OffersOk(t) && op.Register?
    ensures OffersOk(RegisterStep(t, op))
  {
  }

  lemma RegisterUsers(t: Tables, op: Op)
    requires UsersIndexed(t) && op.Register?
    ensures UsersIndexed(RegisterStep(t, op))
  {
  }

  lemma RegisterMembers(t: Tables, op: Op)
    requires Indexed(t) && op.Register?
    ensures MembersIndexed(RegisterStep(t, op))
  {
    hide OffersOk;
  }

  lemma AcceptFirstIndexed(t: Tables, op: Op)
    requires Indexed(t) && op.AcceptFirst?
    ensures Indexed(AcceptFirstStep(t, op))
  {
    AcceptFirstMembers(t, op);
    AcceptFirstUsers(t, op);
    AcceptFirstOffers(t, op);
    hide MembersIndexed, UsersIndexed, OffersOk, AcceptFirstStep;
  }

  lemma AcceptFirstOffers(t: Tables, op: Op)
    requires UsersIndexed(t) && OffersOk(t) && op.AcceptFirst?
    ensures OffersOk(AcceptFirstStep(t, op))
  {
  }

  lemma AcceptFirstUsers(t: Tables, op: Op)
    requires UsersIndexed(t) && op.AcceptFirst?
    ensures UsersIndexed(AcceptFirstStep(t, op))
  {
  }

  lemma AcceptFirstMembers(t: Tables, op: Op)
    requires Indexed(t) && op.AcceptFirst?
    ensures MembersIndexed(AcceptFirstStep(t, op))
  {
    hide OffersOk, UsersIndexed;
  }

  lemma AcceptSecondIndexed(t: Tables, op: Op)
    requires Indexed(t) && op.AcceptSecond?
    ensures Indexed(AcceptSecondStep(t, op))
  {
    AcceptSecondMembers(t, op);
    AcceptSecondUsers(t, op);
    AcceptSecondOffers(t, op);
    hide MembersIndexed, UsersIndexed, OffersOk, AcceptSecondStep;
  }

  lemma AcceptSecondOffers(t: Tables, op: Op)
    requires UsersIndexed(t) && OffersOk(t) && op.AcceptSecond?
    ensures OffersOk(AcceptSecondStep(t, op))
  {
    hide OffersOk, UsersIndexed, MarkAccepted, SameOffer;
    SameAsItself();
    if op.request in t.accepting {
      var a := t.accepting[op.request];
      MarkedSame(t.invitations, a.invitationId, a.invitation.tenant, op.now);
    }
    OffersFrame(t, AcceptSecondStep(t, op));
  }

  lemma MarkedSame(rows: map<Id, Invitation>, id: Id, tenant: Id, now: Time)
    ensures var marked := MarkAccepted(rows, id, tenant, now);
            marked.Keys == rows.Keys && forall i :: i in rows ==> SameOffer(marked[i], rows[i])
  {
  }

  lemma SameAsItself()
    ensures forall i :: SameOffer(i, i)
  {
  }

  // Invitations keep their offers and acceptances only end.
  lemma OffersFrame(t: Tables, t': Tables)
    requires OffersOk(t) && t'.users == t.users && t'.organizations == t.organizations && t'.invitations.Keys == t.invitations.Keys
    requires forall i :: i in t'.invitations ==> i in t.invitations && SameOffer(t'.invitations[i], t.invitations[i])
    requires forall r :: r in t'.accepting ==> r in t.accepting && t'.accepting[r] == t.accepting[r]
    ensures OffersOk(t')
  {
  }

  lemma AcceptSecondUsers(t: Tables, op: Op)
    requires UsersIndexed(t) && op.AcceptSecond?
    ensures UsersIndexed(AcceptSecondStep(t, op))
  {
  }

  lemma AcceptSecondMembers(t: Tables, op: Op)
    requires Indexed(t) && op.AcceptSecond?
    ensures MembersIndexed(AcceptSecondStep(t, op))
  {
    hide UsersIndexed;
  }

  lemma RemoveIndexed(t: Tables, op: Op)
    requires Indexed(t) && op.RemoveMember?
    ensures Indexed(RemoveStep(t, op))
  {
  }

  // Adding a row that owns no existing organization, or removing one that is no owner.
  lemma OwnersKept(t: Tables, t': Tables, changed: Id)
    requires forall org :: org in t.organizations ==> OneOwner(t, org)
    requires forall m :: m != changed ==> (m in t.members <==> m in t'.members) && (m in t.members ==> t.members[m] == t'.members[m])
    requires changed in t.members ==> t.members[changed].role != Owner
    requires changed in t'.members ==> t'.members[changed].role != Owner || t'.members[changed].tenant !in t.organizations
    ensures forall org :: org in t.organizations ==> OneOwner(t', org)
  {
    forall org | org in t.organizations ensures OneOwner(t', org) {
      forall m ensures IsOwnerOf(t', org, m) <==> IsOwnerOf(t, org, m) { }
      hide IsOwnerOf;
      OwnerFrame(t, t', org);
    }
  }

  lemma BackingKept(t: Tables, t': Tables, changed: Id)
    requires forall m :: m in t.members && t.members[m].role != Owner ==> Backed(t, t.members[m])
    requires Keeps(t, t') && forall m :: m in t'.members && m != changed ==> m in t.members && t'.members[m] == t.members[m]
    requires changed in t'.members && t'.members[changed].role != Owner ==> Backed(t', t'.members[changed])
    ensures forall m :: m in t'.members && t'.members[m].role != Owner ==> Backed(t', t'.members[m])
  {
    hide Backed, Keeps;
    forall m | m in t'.members && t'.members[m].role != Owner ensures Backed(t', t'.members[m]) {
      if m != changed { BackedKept(t, t', t.members[m]); }
    }
  }

  lemma RegisterKeepsInv(t: Tables, op: Op)
    requires Inv(t) && op.Register?
    ensures Inv(RegisterStep(t, op))
  {
    hide OneOwner, Backed, Keeps, UsersIndexed, MembersIndexed, OffersOk;
    var t' := RegisterStep(t, op);
    RegisterIndexed(t, op);
    if t' != t {
      TenantsKnown(t);
      NewOwner(t, t', op.membershipId, MemberRow(op.orgId, op.userId, Owner));
      RegisterKeeps(t, op);
      OwnersKept(t, t', op.membershipId);
      BackingKept(t, t', op.membershipId);
    }
  }

  lemma NewOwner(t: Tables, t': Tables, m: Id, row: MemberRow)
    requires t'.members == t.members[m := row] && row.role == Owner
    requires forall k :: k in t.members ==> t.members[k].tenant != row.tenant
    ensures OneOwner(t', row.tenant)
  {
    assert SoleOwner(t', row.tenant, m);
  }

  lemma TenantsKnown(t: Tables)
    requires MembersIndexed(t)
    ensures forall k :: k in t.members ==> t.members[k].tenant in t.organizations
  {
  }

  lemma AcceptSecondKeepsInv(t: Tables, op: Op)
    requires Inv(t) && op.AcceptSecond?
    ensures Inv(AcceptSecondStep(t, op))
  {
    hide Keeps, OneOwner, Backed, UsersIndexed, MembersIndexed, OffersOk;
    var t' := AcceptSecondStep(t, op);
    AcceptSecondIndexed(t, op);
    AcceptSecondKeeps(t, op);
    if t'.members == t.members {
      NoMemberChange(t, t');
    } else {
      AcceptedIsBacked(t, op);
      OwnersKept(t, t', op.membershipId);
      BackingKept(t, t', op.membershipId);
    }
  }

  lemma AcceptedIsBacked(t: Tables, op: Op)
    requires OffersOk(t) && op.AcceptSecond? && AcceptSecondStep(t, op).members != t.members
    ensures var t', m := AcceptSecondStep(t, op), op.membershipId;
            m in t'.members && m !in t.members && t'.members[m].role != Owner && Backed(t', t'.members[m])
  {
    var a, t' := t.accepting[op.request], AcceptSecondStep(t, op);
    assert a.invitationId in t'.invitations && t'.invitations[a.invitationId].acceptedAt.Some?;
  }

  lemma RemoveKeepsInv(t: Tables, op: Op)
    requires Inv(t) && op.RemoveMember?
    ensures Inv(RemoveStep(t, op))
  {
    hide Indexed, Keeps;
    var t' := RemoveStep(t, op);
    RemoveIndexed(t, op);
    ApplyKeeps(t, op);
    hide OneOwner, Backed, Indexed, Keeps;
    if t'.members != t.members {
      OwnersKept(t, t', op.membershipId);
      BackingKept(t, t', op.membershipId);
    }
  }

  lemma OfferIndexed(t: Tables, op: Op)
    requires Indexed(t) && (op.Invite? || op.Revoke? || op.AcceptLost?)
    ensures Indexed(Apply(t, op))
  {
    hide UsersIndexed, HasPending;
    OfferUsers(t, op);
  }

  lemma OfferUsers(t: Tables, op: Op)
    requires UsersIndexed(t) && (op.Invite? || op.Revoke? || op.AcceptLost?)
    ensures UsersIndexed(Apply(t, op))
  {
    hide HasPending;
  }

  lemma OfferStep(t: Tables, op: Op)
    requires Inv(t) && (op.Invite? || op.Revoke? || op.AcceptFirst? || op.AcceptLost?)
    ensures Inv(Apply(t, op))
  {
    hide Keeps, OneOwner, Backed, UsersIndexed, MembersIndexed, OffersOk;
    ApplyKeeps(t, op);
    if op.AcceptFirst? { AcceptFirstIndexed(t, op); } else { OfferIndexed(t, op); }
    NoMemberChange(t, Apply(t, op));
  }

  lemma InvStep(t: Tables, op: Op)
    requires Inv(t)
    ensures Inv(Apply(t, op))
  {
    hide Inv, RegisterStep, AcceptSecondStep, RemoveStep;
    match op
    case Register(_, _, _, _) => RegisterKeepsInv(t, op);
    case AcceptSecond(_, _, _) => AcceptSecondKeepsInv(t, op);
    case RemoveMember(_, _, _, _, _) => RemoveKeepsInv(t, op);
    case _ => OfferStep(t, op);
  }

  // --- Runs ---

  function Run(ops: seq<Op>): Tables {
    if ops == [] then EMPTY else Apply(Run(ops[..|ops| - 1]), ops[|ops| - 1])
  }

  lemma {:induction false} RunInv(ops: seq<Op>)
    ensures Inv(Run(ops))
  {
    if ops != [] {
      hide Inv;
      RunInv(ops[..|ops| - 1]);
      InvStep(Run(ops[..|ops| - 1]), ops[|ops| - 1]);
    }
  }

  // Main result, in every state of every run: every organization has exactly one owner membership;
  // no two memberships belong to one user; and every other membership matches an accepted invitation
  // with its tenant, its role and its user's email.
  lemma MembershipInvariants(ops: seq<Op>)
    ensures var t := Run(ops);
            && (forall org :: org in t.organizations ==> OneOwner(t, org))
            && (forall m, n :: m in t.members && n in t.members && t.members[m].user == t.members[n].user ==> m == n)
            && (forall m :: m in t.members && t.members[m].role != Owner ==> Backed(t, t.members[m]))
  {
    RunInv(ops);
    hide OneOwner, Backed;
  }

  // and the owner membership is the same one forever.
  lemma {:induction false} OwnerForever(ops: seq<Op>, i: nat, org: Id, m: Id)
    requires i <= |ops| && IsOwnerOf(Run(ops[..i]), org, m)
    ensures IsOwnerOf(Run(ops), org, m) && Run(ops).members[m] == Run(ops[..i]).members[m]
    decreases |ops|
  {
    if i == |ops| {
      assert ops[..i] == ops;
    } else {
      var before := ops[..|ops| - 1];
      assert before[..i] == ops[..i];
      OwnerForever(before, i, org, m);
      hide Apply;
      OwnerStep(Run(before), ops[|ops| - 1], org, m);
    }
  }

  lemma OwnerStep(t: Tables, op: Op, org: Id, m: Id)
    requires IsOwnerOf(t, org, m)
    ensures IsOwnerOf(Apply(t, op), org, m) && Apply(t, op).members[m] == t.members[m]
  {
  }

  // --- An invitation revoked while it is being accepted ---

  // The state before operation k.
  function Before(ops: seq<Op>, k: nat): Tables
    requires k <= |ops|
  {
    Run(ops[..k])
  }

  lemma BeforeNext(ops: seq<Op>, k: nat)
    requires k < |ops|
    ensures Before(ops, k + 1) == Apply(Before(ops, k), ops[k])
  {
    assert ops[..k + 1][..k] == ops[..k];
  }

  // The operation revokes invitation `id`.
  predicate Revokes(t: Tables, op: Op, id: Id) {
    && op.Revoke? && op.invitationId == id
    && id in t.invitations && t.invitations[id].tenant == op.tenant && Pending(t.invitations[id])
  }

  ghost predicate RevokedIn(ops: seq<Op>, i: nat, j: nat, id: Id)
    requires j <= |ops|
  {
    exists k: nat :: i <= k < j && Revokes(Before(ops, k), ops[k], id)
  }

  // Operations i and j are the two transactions of one acceptance, which adds a membership.
  ghost predicate Acceptance(ops: seq<Op>, i: nat, j: nat) {
    && i < j < |ops| && ops[i].AcceptFirst? && ops[j].AcceptSecond? && ops[j].request == ops[i].request
    && ops[i].request !in Before(ops, i).accepting && ops[i].request in Before(ops, i + 1).accepting
    && (forall k :: i < k < j && (ops[k].AcceptSecond? || ops[k].AcceptLost?) ==> ops[k].request != ops[i].request)
    && ops[j].membershipId !in Before(ops, j).members && ops[j].membershipId in Before(ops, j + 1).members
  }

  lemma RevocationStep(t: Tables, op: Op, id: Id)
    requires id in t.invitations
    ensures var t' := Apply(t, op);
            && id in t'.invitations && t'.invitations[id].tenant == t.invitations[id].tenant
            && (t'.invitations[id].revokedAt.Some? <==> t.invitations[id].revokedAt.Some? || Revokes(t, op, id))
  {
    hide HasPending, MarkAccepted;
    if op.AcceptSecond? {
      hide Apply;
      SecondRevokesNothing(t, op, id);
    }
  }

  lemma SecondRevokesNothing(t: Tables, op: Op, id: Id)
    requires op.AcceptSecond? && id in t.invitations
    ensures var t' := Apply(t, op);
            id in t'.invitations && t'.invitations[id].tenant == t.invitations[id].tenant
            && t'.invitations[id].revokedAt == t.invitations[id].revokedAt
  {
  }

  lemma AcceptingStep(t: Tables, op: Op, request: nat)
    requires request in t.accepting && (op.AcceptSecond? || op.AcceptLost? ==> op.request != request)
    ensures request in Apply(t, op).accepting && Apply(t, op).accepting[request] == t.accepting[request]
  {
    hide HasPending, MarkAccepted;
  }

  lemma StartedPending(t: Tables, op: Op)
    requires op.AcceptFirst? && op.request !in t.accepting && op.request in AcceptFirstStep(t, op).accepting
    ensures var a := AcceptFirstStep(t, op).accepting[op.request];
            && a.invitationId in t.invitations && t.invitations[a.invitationId] == a.invitation
            && Pending(a.invitation) && AcceptFirstStep(t, op).invitations == t.invitations
  {
  }

  // Up to operation k: the acceptance is as it began, and its invitation revoked if a step did it.
  lemma {:induction false} UntilAccepted(ops: seq<Op>, i: nat, j: nat, k: nat)
    requires Acceptance(ops, i, j) && i < k <= j
    ensures var a, t := Before(ops, i + 1).accepting[ops[i].request], Before(ops, k);
            && ops[i].request in t.accepting && t.accepting[ops[i].request] == a
            && a.invitationId in t.invitations && t.invitations[a.invitationId].tenant == a.invitation.tenant
            && (t.invitations[a.invitationId].revokedAt.Some? <==> RevokedIn(ops, i, k, a.invitationId))
  {
    hide Run, Apply, AcceptFirstStep;
    BeforeNext(ops, k - 1);
    var request := ops[i].request;
    var id := Before(ops, i + 1).accepting[request].invitationId;
    if k == i + 1 {
      ApplyFirst(Before(ops, i), ops[i]);
      StartedPending(Before(ops, i), ops[i]);
      assert !RevokedIn(ops, i, k, id);
    } else {
      UntilAccepted(ops, i, j, k - 1);
      AcceptingStep(Before(ops, k - 1), ops[k - 1], request);
      RevocationStep(Before(ops, k - 1), ops[k - 1], id);
      assert RevokedIn(ops, i, k, id) <==> RevokedIn(ops, i, k - 1, id) || Revokes(Before(ops, k - 1), ops[k - 1], id);
    }
  }

  lemma ApplyFirst(t: Tables, op: Op)
    requires op.AcceptFirst?
    ensures Apply(t, op) == AcceptFirstStep(t, op)
  {
  }

  lemma AcceptedMarks(t: Tables, op: Op)
    requires op.AcceptSecond? && op.request in t.accepting
    requires op.membershipId !in t.members && op.membershipId in Apply(t, op).members
    requires var a := t.accepting[op.request];
             a.invitationId in t.invitations && t.invitations[a.invitationId].tenant == a.invitation.tenant
    ensures var a, t' := t.accepting[op.request], Apply(t, op);
            && t'.members[op.membershipId] == MemberRow(a.invitation.tenant, a.user, a.invitation.role)
            && a.invitationId in t'.invitations && t'.invitations[a.invitationId].acceptedAt == Some(op.now)
  {
  }

  // Main result: when an acceptance adds its membership and marks its invitation accepted, the
  // invitation is unrevoked if and only if no step revoked it between the two transactions.
  lemma AcceptedUnrevokedIff(ops: seq<Op>, i: nat, j: nat)
    requires Acceptance(ops, i, j)
    ensures var a, t := Before(ops, i + 1).accepting[ops[i].request], Before(ops, j + 1);
            && t.members[ops[j].membershipId] == MemberRow(a.invitation.tenant, a.user, a.invitation.role)
            && a.invitationId in t.invitations && t.invitations[a.invitationId].acceptedAt == Some(ops[j].now)
            && (t.invitations[a.invitationId].revokedAt.None? <==> !RevokedIn(ops, i + 1, j, a.invitationId))
  {
    hide Run, Apply, RevokedIn;
    var id := Before(ops, i + 1).accepting[ops[i].request].invitationId;
    UntilAccepted(ops, i, j, j);
    BeforeNext(ops, j);
    AcceptedMarks(Before(ops, j), ops[j]);
    RevocationStep(Before(ops, j), ops[j], id);
    NotBySelf(ops, i, j, id);
  }

  lemma NotBySelf(ops: seq<Op>, i: nat, j: nat, id: Id)
    requires i < j <= |ops| && !ops[i].Revoke?
    ensures RevokedIn(ops, i, j, id) <==> RevokedIn(ops, i + 1, j, id)
  {
    hide Before;
  }

  // A run in which it happens.
  const REVOKED_MEANWHILE: seq<Op> :=
    [Register("o@x", 1, 10, 100), Invite(10, Owner, true, "m@x", Member, 20, 30, 9), AcceptFirst(0, 30, 2, true, 1),
     Revoke(10, 20, 2), AcceptSecond(0, 101, 3)]

  // Its tables once the invitation is out.
  const INVITED: Tables :=
    Tables(map[1 := "o@x"], map["o@x" := 1], {10}, map[100 := MemberRow(10, 1, Owner)], map[1 := 100],
           map[20 := Invitation(10, "m@x", Member, 30, 9, None, None)], map[30 := 20], map[])

  lemma SampleInvited()
    ensures Before(REVOKED_MEANWHILE, 2) == INVITED
  {
    var ops := REVOKED_MEANWHILE;
    BeforeNext(ops, 0);
    BeforeNext(ops, 1);
    assert Before(ops, 0) == EMPTY;
    hide Run;
    assert !HasPending(map[], 10, "m@x");
  }

  // ... once its acceptance has begun, and once it is revoked as well.
  const BEGUN: Tables := INVITED.(users := map[1 := "o@x", 2 := "m@x"], byEmail := map["o@x" := 1, "m@x" := 2],
                                  accepting := map[0 := Accepting(20, Invitation(10, "m@x", Member, 30, 9, None, None), 2)])

  const REVOKED: Tables := BEGUN.(invitations := map[20 := Invitation(10, "m@x", Member, 30, 9, None, Some(2))])

  lemma SampleBegun()
    ensures Apply(INVITED, REVOKED_MEANWHILE[2]) == BEGUN
  {
  }

  lemma SampleRevoked()
    ensures Apply(BEGUN, REVOKED_MEANWHILE[3]) == REVOKED
  {
  }

  lemma SampleAccepted()
    ensures var t := Apply(REVOKED, REVOKED_MEANWHILE[4]);
            && 101 in t.members && t.members[101] == MemberRow(10, 2, Member)
            && 20 in t.invitations && t.invitations[20] == Invitation(10, "m@x", Member, 30, 9, Some(3), Some(2))
  {
  }

  lemma SampleStates()
    ensures Before(REVOKED_MEANWHILE, 2) == INVITED && Before(REVOKED_MEANWHILE, 3) == BEGUN
    ensures Before(REVOKED_MEANWHILE, 4) == REVOKED && Before(REVOKED_MEANWHILE, 5) == Apply(REVOKED, REVOKED_MEANWHILE[4])
    ensures Run(REVOKED_MEANWHILE) == Before(REVOKED_MEANWHILE, 5)
  {
    hide Apply, Run;
    SampleInvited();
    SampleBegun();
    SampleRevoked();
    BeforeNext(REVOKED_MEANWHILE, 2);
    BeforeNext(REVOKED_MEANWHILE, 3);
    BeforeNext(REVOKED_MEANWHILE, 4);
    assert REVOKED_MEANWHILE[..5] == REVOKED_MEANWHILE;
  }

  // The invitation is revoked and accepted, and the membership there.
  lemma RevokedThenAccepted()
    ensures var t := Run(REVOKED_MEANWHILE);
            && Acceptance(REVOKED_MEANWHILE, 2, 4) && 101 in t.members && t.members[101] == MemberRow(10, 2, Member)
            && 20 in t.invitations && t.invitations[20].revokedAt == Some(2) && t.invitations[20].acceptedAt == Some(3)
  {
    hide Apply, Run, Before;
    SampleStates();
    SampleAccepted();
  }

  // --- What each use case answers, and writes ---

  // The unique index on token hashes.
  ghost predicate TokensIndexed(t: Tables) {
    && (forall h :: h in t.byToken ==> t.byToken[h] in t.invitations && t.invitations[t.byToken[h]].tokenHash == h)
    && (forall i :: i in t.invitations ==> t.invitations[i].tokenHash in t.byToken && t.byToken[t.invitations[i].tokenHash] == i)
  }

  ghost predicate SameAddress(a: Invitation, b: Invitation) { a.tenant == b.tenant && a.email == b.email }

  // uq_invitation_pending_tenant_email: one pending invitation per tenant and email.
  ghost predicate OnePending(t: Tables) {
    forall i, j | i in t.invitations && j in t.invitations && SameAddress(t.invitations[i], t.invitations[j])
                  && Pending(t.invitations[i]) && Pending(t.invitations[j]) :: i == j
  }

  // Invitations that were there keep token and offer, and none becomes pending again.
  ghost predicate OffersStay(t: Tables, t': Tables) {
    && t'.byToken == t.byToken && t'.invitations.Keys == t.invitations.Keys
    && forall i :: i in t.invitations ==>
         && t'.invitations[i].tokenHash == t.invitations[i].tokenHash && t'.invitations[i].tenant == t.invitations[i].tenant
         && t'.invitations[i].email == t.invitations[i].email && (Pending(t'.invitations[i]) ==> Pending(t.invitations[i]))
  }

  lemma OffersStayStep(t: Tables, op: Op)
    requires !op.Invite?
    ensures OffersStay(t, Apply(t, op))
  {
    hide AcceptSecondStep, RevokeStep, Pending;
    if op.AcceptSecond? { SecondOffersStay(t, op); }
    if op.Revoke? { RevokeOffersStay(t, op); }
  }

  lemma RevokeOffersStay(t: Tables, op: Op)
    requires op.Revoke?
    ensures OffersStay(t, RevokeStep(t, op))
  {
    if RevokeStep(t, op) != t {
      var revoked := t.invitations[op.invitationId].(revokedAt := Some(op.now));
      assert !Pending(revoked);
      hide Pending;
      RowOffersStay(t, op.invitationId, revoked);
    }
  }

  lemma RowOffersStay(t: Tables, id: Id, row: Invitation)
    requires id in t.invitations && row.tokenHash == t.invitations[id].tokenHash && SameAddress(row, t.invitations[id]) && !Pending(row)
    ensures OffersStay(t, t.(invitations := t.invitations[id := row]))
  {
    hide Pending;
  }

  lemma SecondOffersStay(t: Tables, op: Op)
    requires op.AcceptSecond?
    ensures OffersStay(t, AcceptSecondStep(t, op))
  {
  }

  lemma InviteOffers(t: Tables, op: Op)
    requires op.Invite? && TokensIndexed(t) && OnePending(t)
    ensures TokensIndexed(InviteStep(t, op)) && OnePending(InviteStep(t, op))
  {
    InviteTokens(t, op);
    hide TokensIndexed;
  }

  lemma InviteTokens(t: Tables, op: Op)
    requires op.Invite? && TokensIndexed(t)
    ensures TokensIndexed(InviteStep(t, op))
  {
    hide HasPending;
  }

  lemma {:induction false} OffersIndexed(ops: seq<Op>)
    ensures TokensIndexed(Run(ops)) && OnePending(Run(ops))
  {
    if ops != [] {
      hide Apply, TokensIndexed, OnePending;
      var t, op := Run(ops[..|ops| - 1]), ops[|ops| - 1];
      OffersIndexed(ops[..|ops| - 1]);
      ApplyIs(t, op);
      if op.Invite? { InviteOffers(t, op); } else { OffersStayStep(t, op); OffersKept(t, Apply(t, op)); }
    }
  }

  lemma ApplyIs(t: Tables, op: Op)
    ensures op.Invite? ==> Apply(t, op) == InviteStep(t, op)
  {
    hide InviteStep;
  }

  lemma OffersKept(t: Tables, t': Tables)
    requires OffersStay(t, t') && TokensIndexed(t) && OnePending(t)
    ensures TokensIndexed(t') && OnePending(t')
  {
    hide Pending;
  }

  // Main result: an invitation is created exactly for an email free when checked, with an invitable role,
  // not an admin's by an admin, in a known tenant that has none pending for the email, under new ids; then
  // it is that row, pending, and nothing else changes. No tenant ever has two pending for one email.
  lemma InviteOutcome(ops: seq<Op>, op: Op)
    requires op.Invite?
    ensures var t, t' := Run(ops), Apply(Run(ops), op);
            && (t' != t <==>
                  && op.emailFree && op.role != Owner && !(op.inviter == Admin && op.role == Admin) && op.tenant in t.organizations
                  && (forall i :: i in t.invitations && t.invitations[i].tenant == op.tenant && t.invitations[i].email == op.email ==>
                        t.invitations[i].acceptedAt.Some? || t.invitations[i].revokedAt.Some?)
                  && op.invitationId !in t.invitations && (forall i :: i in t.invitations ==> t.invitations[i].tokenHash != op.tokenHash))
            && (t' != t ==>
                  t' == t.(invitations := t.invitations[op.invitationId :=
                                            Invitation(op.tenant, op.email, op.role, op.tokenHash, op.expiresAt, None, None)],
                           byToken := t'.byToken))
            && OnePending(t')
  {
    OffersIndexed(ops);
    OffersIndexed(ops + [op]);
    assert (ops + [op])[..|ops|] == ops;
    assert op.role != Owner <==> op.role in INVITABLE_ROLES;
    hide Run, OnePending;
  }

  // A revocation marks exactly a pending invitation of the tenant.
  lemma RevokeOutcome(t: Tables, op: Op)
    requires op.Revoke?
    ensures var t' := Apply(t, op);
            if op.invitationId in t.invitations && t.invitations[op.invitationId].tenant == op.tenant
               && t.invitations[op.invitationId].acceptedAt.None? && t.invitations[op.invitationId].revokedAt.None?
            then t' == t.(invitations := t.invitations[op.invitationId := t.invitations[op.invitationId].(revokedAt := Some(op.now))])
            else t' == t
  {
  }

  // Main result: a membership is removed exactly by a proven step-up, in its tenant, by someone else, when
  // it is no owner's and, for an admin, no admin's; nothing else changes.
  lemma RemoveOutcome(ops: seq<Op>, op: Op)
    requires op.RemoveMember?
    ensures var t, t' := Run(ops), Apply(Run(ops), op);
            && (op.membershipId in t.members && op.membershipId !in t'.members <==>
                  && op.stepUp && op.membershipId in t.members
                  && var m := t.members[op.membershipId];
                     m.tenant == op.tenant && m.user != op.actor && m.role != Owner && !(op.actorRole == Admin && m.role == Admin))
            && (forall m :: m in t.members && m != op.membershipId ==> m in t'.members && t'.members[m] == t.members[m])
            && t'.members.Keys <= t.members.Keys
            && t' == t.(members := t'.members, memberOf := t'.memberOf)
            && (op.membershipId in t'.members ==> t' == t)
  {
    hide Run;
  }

  // Main result: a registration succeeds exactly for a new email and new ids; it adds the user, the
  // organization and its owner.
  lemma RegisterOutcome(ops: seq<Op>, op: Op)
    requires op.Register?
    ensures var t, t' := Run(ops), Apply(Run(ops), op);
            && (t' != t <==> op.email !in t.users.Values && op.userId !in t.users && op.orgId !in t.organizations && op.membershipId !in t.members)
            && (t' != t ==>
                  && t'.users == t.users[op.userId := op.email] && t'.organizations == t.organizations + {op.orgId}
                  && t'.members == t.members[op.membershipId := MemberRow(op.orgId, op.userId, Owner)]
                  && t'.invitations == t.invitations && t'.accepting == t.accepting)
  {
    RunInv(ops);
    IndexesMean(Run(ops));
    hide Run, Inv;
  }

  lemma IndexesMean(t: Tables)
    requires Inv(t)
    ensures IndexesOk(t)
  {
    hide OneOwner, Backed, OffersOk;
    forall u ensures u in t.memberOf <==> exists m :: m in t.members && t.members[m].user == u {
      if u in t.memberOf { assert t.memberOf[u] in t.members && t.members[t.memberOf[u]].user == u; }
    }
  }

  // The invitation a token opens.
  ghost predicate Opens(t: Tables, i: Id, tokenHash: TokenHash, now: Time) {
    && i in t.invitations && t.invitations[i].tokenHash == tokenHash
    && t.invitations[i].acceptedAt.None? && t.invitations[i].revokedAt.None? && now < t.invitations[i].expiresAt
  }

  // The user an invitation is for: the one with its email, who has no membership, or a new one.
  ghost predicate InvitedUser(t: Tables, i: Id, user: Id, newUserId: Id) {
    && i in t.invitations
    && if t.invitations[i].email in t.users.Values then
         user in t.users && t.users[user] == t.invitations[i].email && forall m :: m in t.members ==> t.members[m].user != user
       else user == newUserId && newUserId !in t.users
  }

  // Main result: an acceptance begins exactly when its token opens an invitation that is neither accepted
  // nor revoked nor expired, the password is accepted, and the invited user has no membership or is new; it
  // remembers that invitation and user, adds the user if new, and changes nothing else.
  lemma AcceptFirstOutcome(ops: seq<Op>, op: Op)
    requires op.AcceptFirst? && op.request !in Run(ops).accepting
    ensures var t, t' := Run(ops), Apply(Run(ops), op);
            && (op.request in t'.accepting <==>
                  op.passwordOk && exists i, user :: Opens(t, i, op.tokenHash, op.now) && InvitedUser(t, i, user, op.newUserId))
            && (op.request !in t'.accepting ==> t' == t)
            && (op.request in t'.accepting ==>
                  var a := t'.accepting[op.request];
                  && Opens(t, a.invitationId, op.tokenHash, op.now) && a.invitation == t.invitations[a.invitationId]
                  && InvitedUser(t, a.invitationId, a.user, op.newUserId)
                  && t'.users == t.users[a.user := a.invitation.email]
                  && t' == t.(users := t'.users, byEmail := t'.byEmail, accepting := t.accepting[op.request := a]))
  {
    hide Run, Inv, OnePending, Opens, InvitedUser, AcceptFirstStep, Apply, TokensIndexed, IndexesOk;
    var t := Run(ops);
    RunInv(ops);
    IndexesMean(t);
    OffersIndexed(ops);
    FirstBegins(t, op);
    if i, user :| op.passwordOk && Opens(t, i, op.tokenHash, op.now) && InvitedUser(t, i, user, op.newUserId) {
      FirstBeginsIf(t, op, i, user);
    }
  }

  lemma FirstBegins(t: Tables, op: Op)
    requires op.AcceptFirst? && op.request !in t.accepting && IndexesOk(t) && TokensIndexed(t)
    ensures var t' := Apply(t, op);
            && (op.request !in t'.accepting ==> t' == t)
            && (op.request in t'.accepting ==>
                  var a := t'.accepting[op.request];
                  && op.passwordOk && Opens(t, a.invitationId, op.tokenHash, op.now) && a.invitation == t.invitations[a.invitationId]
                  && InvitedUser(t, a.invitationId, a.user, op.newUserId)
                  && t'.users == t.users[a.user := a.invitation.email]
                  && t' == t.(users := t'.users, byEmail := t'.byEmail, accepting := t.accepting[op.request := a]))
  {
  }

  lemma FirstBeginsIf(t: Tables, op: Op, i: Id, user: Id)
    requires op.AcceptFirst? && op.request !in t.accepting && IndexesOk(t) && TokensIndexed(t)
    requires op.passwordOk && Opens(t, i, op.tokenHash, op.now) && InvitedUser(t, i, user, op.newUserId)
    ensures op.request in Apply(t, op).accepting
  {
  }

  // The indexes agree with the rows.
  ghost predicate IndexesOk(t: Tables) {
    && (forall e :: e in t.byEmail <==> e in t.users.Values)
    && (forall e :: e in t.byEmail ==> t.byEmail[e] in t.users && t.users[t.byEmail[e]] == e)
    && (forall u :: u in t.memberOf ==> u in t.users)
    && (forall u :: u in t.memberOf <==> exists m :: m in t.members && t.members[m].user == u)
    && (forall u :: u in t.users ==> t.users[u] in t.byEmail && t.byEmail[t.users[u]] == u)
  }

  // Main result: the second half adds the membership exactly when the user still has none and the drawn id
  // is new, with the tenant and role of the invitation as it was read, and marks the invitation accepted.
  lemma AcceptSecondOutcome(ops: seq<Op>, op: Op)
    requires op.AcceptSecond? && op.request in Run(ops).accepting
    ensures var t, t' := Run(ops), Apply(Run(ops), op);
            var a := t.accepting[op.request];
            var adds := op.membershipId !in t.members && forall m :: m in t.members ==> t.members[m].user != a.user;
            && t'.accepting == t.accepting - {op.request}
            && t'.users == t.users && t'.organizations == t.organizations
            && t'.members == (if adds then t.members[op.membershipId := MemberRow(a.invitation.tenant, a.user, a.invitation.role)] else t.members)
            && a.invitationId in t.invitations
            && t'.invitations == (if adds then t.invitations[a.invitationId := t.invitations[a.invitationId].(acceptedAt := Some(op.now))]
                                  else t.invitations)
  {
    hide Run, Inv, IndexesOk;
    RunInv(ops);
    IndexesMean(Run(ops));
    AcceptingKnown(Run(ops), op.request);
    NoMembership(Run(ops), Run(ops).accepting[op.request].user);
  }

  lemma NoMembership(t: Tables, user: Id)
    requires IndexesOk(t)
    ensures user in t.memberOf <==> !forall m :: m in t.members ==> t.members[m].user != user
  {
  }

  lemma AcceptingKnown(t: Tables, request: nat)
    requires Inv(t) && request in t.accepting
    ensures var a := t.accepting[request];
            a.invitationId in t.invitations && t.invitations[a.invitationId].tenant == a.invitation.tenant
  {
    hide OneOwner, Backed, UsersIndexed, MembersIndexed;
  }

  // --- Where a membership comes from ---

  lemma AcceptingChange(t: Tables, op: Op, request: nat)
    requires request in Apply(t, op).accepting
    ensures if request in t.accepting then
              Apply(t, op).accepting[request] == t.accepting[request] && (op.AcceptSecond? || op.AcceptLost? ==> op.request != request)
            else op.AcceptFirst? && op.request == request
  {
    hide HasPending, MarkAccepted;
  }

  lemma {:induction false} AcceptingOrigin(ops: seq<Op>, j: nat, request: nat) returns (i: nat)
    requires j <= |ops| && request in Before(ops, j).accepting
    ensures i < j && ops[i].AcceptFirst? && ops[i].request == request
    ensures request !in Before(ops, i).accepting && request in Before(ops, i + 1).accepting
    ensures Before(ops, i + 1).accepting[request] == Before(ops, j).accepting[request]
    ensures forall k :: i < k < j && (ops[k].AcceptSecond? || ops[k].AcceptLost?) ==> ops[k].request != request
    decreases j
  {
    assert j > 0;
    hide Before, Apply;
    BeforeNext(ops, j - 1);
    AcceptingChange(Before(ops, j - 1), ops[j - 1], request);
    if request in Before(ops, j - 1).accepting {
      i := AcceptingOrigin(ops, j - 1, request);
    } else {
      i := j - 1;
    }
  }

  lemma MemberChange(t: Tables, op: Op, m: Id)
    requires m in Apply(t, op).members && Apply(t, op).members[m].role != Owner
    ensures if m in t.members then Apply(t, op).members[m] == t.members[m]
            else op.AcceptSecond? && op.membershipId == m && op.request in t.accepting
  {
    hide HasPending, MarkAccepted;
  }

  lemma {:induction false} MemberOrigin(ops: seq<Op>, k: nat, m: Id) returns (j: nat)
    requires k <= |ops| && m in Before(ops, k).members && Before(ops, k).members[m].role != Owner
    ensures j < k && ops[j].AcceptSecond? && ops[j].membershipId == m && ops[j].request in Before(ops, j).accepting
    ensures m !in Before(ops, j).members && m in Before(ops, j + 1).members && Before(ops, j + 1).members[m] == Before(ops, k).members[m]
    decreases k
  {
    assert k > 0;
    hide Before, Apply;
    BeforeNext(ops, k - 1);
    MemberChange(Before(ops, k - 1), ops[k - 1], m);
    if m in Before(ops, k - 1).members {
      j := MemberOrigin(ops, k - 1, m);
    } else {
      j := k - 1;
    }
  }

  // Main result: every membership but an owner's was added by an acceptance that began with the token of an
  // invitation of its tenant and role, for its user's email, neither accepted nor revoked nor expired then.
  lemma MembersBeganInTime(ops: seq<Op>, k: nat, m: Id) returns (i: nat, j: nat)
    requires k <= |ops| && m in Before(ops, k).members && Before(ops, k).members[m].role != Owner
    ensures i < j < k && Acceptance(ops, i, j) && ops[j].membershipId == m
    ensures var a, row := Before(ops, i + 1).accepting[ops[i].request], Before(ops, k).members[m];
            && Opens(Before(ops, i), a.invitationId, ops[i].tokenHash, ops[i].now) && ops[i].passwordOk
            && Before(ops, i).invitations[a.invitationId] == a.invitation
            && row == MemberRow(a.invitation.tenant, a.user, a.invitation.role)
            && a.user in Before(ops, i + 1).users && Before(ops, i + 1).users[a.user] == a.invitation.email
  {
    j := MemberOrigin(ops, k, m);
    i := AcceptingOrigin(ops, j, ops[j].request);
    AcceptFirstOutcome(ops[..i], ops[i]);
    AcceptedUnrevokedIff(ops, i, j);
    BeforeNext(ops, i);
    hide Run, Apply, RevokedIn, Opens;
  }

  // --- The use cases as the code runs them ---

  class OrganizationDatabase {
    var users: map<Id, Email>
    var byEmail: map<Email, Id>
    var organizations: set<Id>
    var members: map<Id, MemberRow>
    var memberOf: map<Id, Id>
    var invitations: map<Id, Invitation>
    var byToken: map<TokenHash, Id>
    var accepting: map<nat, Accepting>

    constructor ()
      ensures Current() == EMPTY
    {
      users, byEmail, organizations, members := map[], map[], {}, map[];
      memberOf, invitations, byToken, accepting := map[], map[], map[], map[];
    }

    ghost function Current(): Tables
      reads this
    {
      Tables(users, byEmail, organizations, members, memberOf, invitations, byToken, accepting)
    }

    method AddUser(id: Id, email: Email) returns (ok: bool)
      modifies this`users, this`byEmail
      ensures ok <==> id !in old(users) && email !in old(byEmail)
      ensures users == if ok then old(users)[id := email] else old(users)
      ensures byEmail == if ok then old(byEmail)[email := id] else old(byEmail)
    {
      ok := id !in users && email !in byEmail;
      if ok { users, byEmail := users[id := email], byEmail[email := id]; }
    }

    method AddMember(id: Id, row: MemberRow) returns (ok: bool)
      modifies this`members, this`memberOf
      ensures ok <==> id !in old(members) && row.user !in old(memberOf)
      ensures members == if ok then old(members)[id := row] else old(members)
      ensures memberOf == if ok then old(memberOf)[row.user := id] else old(memberOf)
    {
      ok := id !in members && row.user !in memberOf;
      if ok { members, memberOf := members[id := row], memberOf[row.user := id]; }
    }

    method RegisterUser(email: Email, userId: Id, orgId: Id, membershipId: Id) returns (ok: bool)
      modifies this
      ensures Current() == RegisterStep(old(Current()), Register(email, userId, orgId, membershipId))
      ensures ok <==> Current() != old(Current())
    {
      if email in byEmail { return false; }
      var savedUsers, savedIndex, savedOrgs := users, byEmail, organizations;
      ok := AddUser(userId, email);
      if !ok { return; }
      if orgId in organizations {
        users, byEmail := savedUsers, savedIndex;
        return false;
      }
      organizations := organizations + {orgId};
      ok := AddMember(membershipId, MemberRow(orgId, userId, Owner));
      if !ok { users, byEmail, organizations := savedUsers, savedIndex, savedOrgs; }
    }

    method CreateInvitation(tenant: Id, inviter: Role, emailFree: bool, email: Email, role: Role, invitationId: Id, tokenHash: TokenHash,
                            expiresAt: Time) returns (ok: bool)
      modifies this`invitations, this`byToken
      ensures Current() == InviteStep(old(Current()), Invite(tenant, inviter, emailFree, email, role, invitationId, tokenHash, expiresAt))
      ensures ok <==> Current() != old(Current())
    {
      if !emailFree { return false; }
      if role !in INVITABLE_ROLES { return false; }
      if inviter == Admin && role == Admin { return false; }
      hide HasPending;
      if HasPending(invitations, tenant, email) { return false; }
      if tenant !in organizations || invitationId in invitations || tokenHash in byToken { return false; }
      invitations := invitations[invitationId := Invitation(tenant, email, role, tokenHash, expiresAt, None, None)];
      byToken := byToken[tokenHash := invitationId];
      return true;
    }

    method RevokeInvitation(tenant: Id, invitationId: Id, now: Time) returns (ok: bool)
      modifies this`invitations
      ensures Current() == RevokeStep(old(Current()), Revoke(tenant, invitationId, now))
      ensures ok <==> Current() != old(Current())
    {
      if invitationId !in invitations || invitations[invitationId].tenant != tenant { return false; }
      if !Pending(invitations[invitationId]) { return false; }
      invitations := invitations[invitationId := invitations[invitationId].(revokedAt := Some(now))];
      return true;
    }

    method AcceptInvitationFirst(request: nat, tokenHash: TokenHash, newUserId: Id, passwordOk: bool, now: Time) returns (ok: bool)
      requires request !in accepting
      modifies this
      ensures Current() == AcceptFirstStep(old(Current()), AcceptFirst(request, tokenHash, newUserId, passwordOk, now))
      ensures ok <==> Current() != old(Current())
    {
      if tokenHash !in byToken || byToken[tokenHash] !in invitations { return false; }
      var id := byToken[tokenHash];
      var invitation := invitations[id];
      if !Pending(invitation) || invitation.expiresAt <= now { return false; }
      var user := newUserId;
      if invitation.email in byEmail {
        user := byEmail[invitation.email];
        if user in memberOf || !passwordOk { return false; }
      } else {
        if !passwordOk { return false; }
        var savedUsers, savedIndex := users, byEmail;
        ok := AddUser(newUserId, invitation.email);
        if !ok { return; }
        if newUserId in memberOf {
          users, byEmail := savedUsers, savedIndex;
          return false;
        }
      }
      accepting := accepting[request := Accepting(id, invitation, user)];
      return true;
    }

    method AcceptInvitationSecond(request: nat, membershipId: Id, now: Time) returns (ok: bool)
      requires request in accepting
      modifies this
      ensures Current() == AcceptSecondStep(old(Current()), AcceptSecond(request, membershipId, now))
      ensures ok <==> members != old(members)
    {
      var a := accepting[request];
      accepting := accepting - {request};
      ok := AddMember(membershipId, MemberRow(a.invitation.tenant, a.user, a.invitation.role));
      if !ok { return; }
      invitations := MarkAccepted(invitations, a.invitationId, a.invitation.tenant, now);
    }

    method ExecuteRemoveMember(tenant: Id, actor: Id, actorRole: Role, membershipId: Id, stepUp: bool) returns (ok: bool)
      modifies this`members, this`memberOf
      ensures Current() == RemoveStep(old(Current()), RemoveMember(tenant, actor, actorRole, membershipId, stepUp))
      ensures ok <==> Current() != old(Current())
    {
      if !stepUp { return false; }
      if membershipId !in members || members[membershipId].tenant != tenant { return false; }
      var target := members[membershipId];
      if target.user == actor || target.role == Owner { return false; }
      if actorRole == Admin && target.role == Admin { return false; }
      members, memberOf := members - {membershipId}, memberOf - {target.user};
      return true;
    }
  }
}
