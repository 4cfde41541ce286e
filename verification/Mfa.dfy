// TOTP enrollment, confirmation, login with a TOTP or recovery code, and disabling, each use case
// one transaction over any number of users.
module Mfa {
  import opened Wrappers
  import opened Sets

  type Id = nat        // a UUID, only ever compared
  type CodeHash = nat  // SHA-256 of a normalised recovery code
  type Seed = nat

  const RECOVERY_CODES := 10

  // What generate_recovery_codes returns, hashed; repetitions are not excluded.
  type CodeBatch = s: seq<CodeHash> | |s| == RECOVERY_CODES witness seq(RECOVERY_CODES, i => i)

  datatype Totp = Totp(seed: Seed, confirmed: bool)
  datatype Account = Account(mfaEnabled: bool, totp: Option<Totp>)
  datatype RecoveryCode = RecoveryCode(user: Id, used: bool)

  // Users with their one TOTP record, and recovery codes under their unique hash.
  datatype Tables = Tables(accounts: map<Id, Account>, codes: map<CodeHash, RecoveryCode>)

  const EMPTY := Tables(map[], map[])

  datatype Op =
    | AddUser(user: Id)
    | StartEnrollment(user: Id, seed: Seed)
    | Confirm(user: Id, codeOk: bool, hashes: CodeBatch)
    | CompleteLogin(user: Id, allowed: bool, totpOk: bool, codeHash: CodeHash, issued: bool)
    | StepUp(user: Id, totpOk: bool)
    | Disable(user: Id)

  datatype Result = Done | Rejected | IntegrityError | LoggedIn(recovery: Option<CodeHash>)

  function WithoutCodes(codes: map<CodeHash, RecoveryCode>, user: Id): map<CodeHash, RecoveryCode> {
    map h | h in codes && codes[h].user != user :: codes[h]
  }

  predicate Distinct(s: seq<CodeHash>) { forall i, j :: 0 <= i < j < |s| ==> s[i] != s[j] }

  function AddCodes(codes: map<CodeHash, RecoveryCode>, user: Id, hashes: seq<CodeHash>): map<CodeHash, RecoveryCode> {
    codes + map h | h in hashes :: RecoveryCode(user, false)
  }

  // code_hash is unique over all users.
  predicate BatchFits(codes: map<CodeHash, RecoveryCode>, hashes: seq<CodeHash>) {
    Distinct(hashes) && forall i :: 0 <= i < |hashes| ==> hashes[i] !in codes
  }

  // One more code of a batch: it collides with what is stored so far, or it extends the batch.
  lemma NextCode(codes: map<CodeHash, RecoveryCode>, user: Id, hashes: seq<CodeHash>, i: nat)
    requires i < |hashes| && BatchFits(codes, hashes[..i])
    ensures var stored := AddCodes(codes, user, hashes[..i]);
            if hashes[i] in stored then !BatchFits(codes, hashes)
            else && BatchFits(codes, hashes[..i + 1])
                 && stored[hashes[i] := RecoveryCode(user, false)] == AddCodes(codes, user, hashes[..i + 1])
  {
    assert hashes[..i + 1] == hashes[..i] + [hashes[i]];
    if hashes[i] in hashes[..i] {
      Repeated(hashes, i);
    } else if hashes[i] !in codes {
      hide *;
      FitsOneMore(codes, hashes[..i], hashes[i]);
      AddOne(codes, user, hashes[..i], hashes[i]);
    }
  }

  lemma FitsOneMore(codes: map<CodeHash, RecoveryCode>, hashes: seq<CodeHash>, h: CodeHash)
    requires BatchFits(codes, hashes) && h !in hashes && h !in codes
    ensures BatchFits(codes, hashes + [h])
  {
  }

  lemma AddOne(codes: map<CodeHash, RecoveryCode>, user: Id, hashes: seq<CodeHash>, h: CodeHash)
    ensures AddCodes(codes, user, hashes)[h := RecoveryCode(user, false)] == AddCodes(codes, user, hashes + [h])
  {
    hide BatchFits, Distinct;
  }

  lemma Repeated(hashes: seq<CodeHash>, i: nat)
    requires i < |hashes| && hashes[i] in hashes[..i]
    ensures !Distinct(hashes)
  {
    var j :| 0 <= j < i && hashes[..i][j] == hashes[i];
    assert hashes[j] == hashes[i];
  }

  function ConfirmStep(t: Tables, op: Op): (Tables, Result)
    requires op.Confirm?
  {
    if op.user !in t.accounts || t.accounts[op.user].totp.None? || t.accounts[op.user].totp.value.confirmed || !op.codeOk then (t, Rejected)
    else
      var account := Account(true, Some(t.accounts[op.user].totp.value.(confirmed := true)));
      var others := WithoutCodes(t.codes, op.user);
      if !BatchFits(others, op.hashes) then (t, IntegrityError)
      else (Tables(t.accounts[op.user := account], AddCodes(others, op.user, op.hashes)), Done)
  }

  predicate Redeemable(t: Tables, user: Id, h: CodeHash) {
    h in t.codes && t.codes[h].user == user && !t.codes[h].used
  }

  // A recovery code is tried only when the TOTP code fails; failing to issue credentials rolls back.
  function LoginStep(t: Tables, op: Op): (Tables, Result)
    requires op.CompleteLogin?
  {
    if !op.allowed || op.user !in t.accounts || !t.accounts[op.user].mfaEnabled then (t, Rejected)
    else if t.accounts[op.user].totp.Some? && t.accounts[op.user].totp.value.confirmed && op.totpOk then
      (t, if op.issued then LoggedIn(None) else Rejected)
    else if !Redeemable(t, op.user, op.codeHash) || !op.issued then (t, Rejected)
    else (t.(codes := t.codes[op.codeHash := RecoveryCode(op.user, true)]), LoggedIn(Some(op.codeHash)))
  }

  function Apply(t: Tables, op: Op): (Tables, Result) {
    match op
    case AddUser(user) => if user in t.accounts then (t, IntegrityError) else (t.(accounts := t.accounts[user := Account(false, None)]), Done)
    case StartEnrollment(user, seed) =>
      if user !in t.accounts then (t, IntegrityError)
      else (t.(accounts := t.accounts[user := t.accounts[user].(totp := Some(Totp(seed, false)))]), Done)
    case Confirm(_, _, _) => ConfirmStep(t, op)
    case CompleteLogin(_, _, _, _, _) => LoginStep(t, op)
    case StepUp(user, totpOk) =>
      (t, if user in t.accounts && t.accounts[user].totp.Some? && t.accounts[user].totp.value.confirmed && totpOk then Done else Rejected)
    case Disable(user) =>
      (Tables(if user in t.accounts then t.accounts[user := Account(false, None)] else t.accounts, WithoutCodes(t.codes, user)), Done)
  }

  // --- Invariant ---

  ghost function CodesOf(t: Tables, user: Id): set<CodeHash> { set h | h in t.codes && t.codes[h].user == user }

  ghost function UsedCodes(t: Tables, user: Id): set<CodeHash> { set h | h in t.codes && t.codes[h].user == user && t.codes[h].used }

  ghost predicate AccountOk(t: Tables, user: Id) {
    && user in t.accounts
    && var a := t.accounts[user];
    && (a.totp.Some? && a.totp.value.confirmed ==> a.mfaEnabled)
    && (a.mfaEnabled ==> a.totp.Some?)
    && |CodesOf(t, user)| == if a.mfaEnabled then RECOVERY_CODES else 0
  }

  ghost predicate Inv(t: Tables) {
    && (forall u :: u in t.accounts ==> AccountOk(t, u))
    && (forall h :: h in t.codes ==> t.codes[h].user in t.accounts)
  }

  ghost function Elements(s: seq<CodeHash>): set<CodeHash> { set h | h in s }

  lemma ElementsStep(s: seq<CodeHash>)
    requires s != [] && Distinct(s)
    ensures var n := |s| - 1;
            Distinct(s[..n]) && Elements(s) == Elements(s[..n]) + {s[n]} && s[n] !in Elements(s[..n])
  {
    var n := |s| - 1;
    assert s == s[..n] + [s[n]];
    assert s[n] !in s[..n];
  }

  lemma {:induction false} DistinctCount(s: seq<CodeHash>)
    requires Distinct(s)
    ensures |Elements(s)| == |s|
  {
    if s == [] {
      assert Elements(s) == {};
    } else {
      hide *;
      ElementsStep(s);
      DistinctCount(s[..|s| - 1]);
    }
  }

  // What a step does to the codes of each user.
  lemma CodesAfter(t: Tables, op: Op, user: Id)
    ensures var (t', r) := Apply(t, op);
            && (op.Confirm? && r == Done && op.user == user ==>
                  CodesOf(t', user) == Elements(op.hashes) && Distinct(op.hashes) && UsedCodes(t', user) == {})
            && (op.Disable? && r == Done && op.user == user ==> CodesOf(t', user) == {} && UsedCodes(t', user) == {})
            && (!((op.Confirm? || op.Disable?) && r == Done && op.user == user) ==>
                  && CodesOf(t', user) == CodesOf(t, user)
                  && UsedCodes(t', user) == if r.LoggedIn? && r.recovery.Some? && op.CompleteLogin? && op.user == user
                                            then UsedCodes(t, user) + {r.recovery.value} else UsedCodes(t, user))
            && (r.LoggedIn? && r.recovery.Some? && op.CompleteLogin? && op.user == user ==>
                  r.recovery.value in CodesOf(t, user) && r.recovery.value !in UsedCodes(t, user))
  {
  }

  lemma InvStep(t: Tables, op: Op)
    requires Inv(t)
    ensures Inv(Apply(t, op).0)
  {
    var (t', r) := Apply(t, op);
    forall u | u in t'.accounts ensures AccountOk(t', u) {
      CodesAfter(t, op, u);
      if u in t.accounts { assert AccountOk(t, u); }
      if op.Confirm? && r == Done && op.user == u { DistinctCount(op.hashes); }
      if u !in t.accounts { assert CodesOf(t, u) == {}; }
    }
  }

  // --- Runs ---

  function Run(ops: seq<Op>): Tables {
    if ops == [] then EMPTY else Apply(Run(ops[..|ops| - 1]), ops[|ops| - 1]).0
  }

  // The recovery codes `user` has logged in with since the last confirmed enrollment.
  function Redeemed(ops: seq<Op>, user: Id): seq<CodeHash> {
    if ops == [] then []
    else
      var before, op := ops[..|ops| - 1], ops[|ops| - 1];
      var r := Apply(Run(before), op).1;
      if (op.Confirm? || op.Disable?) && r == Done && op.user == user then []
      else if op.CompleteLogin? && op.user == user && r.LoggedIn? && r.recovery.Some? then Redeemed(before, user) + [r.recovery.value]
      else Redeemed(before, user)
  }

  lemma {:induction false} RunInv(ops: seq<Op>)
    ensures Inv(Run(ops))
  {
    if ops != [] {
      hide Inv;
      RunInv(ops[..|ops| - 1]);
      InvStep(Run(ops[..|ops| - 1]), ops[|ops| - 1]);
    }
  }

  lemma {:induction false} UsedAreRedeemed(ops: seq<Op>, user: Id)
    ensures UsedCodes(Run(ops), user) == Elements(Redeemed(ops, user)) && Distinct(Redeemed(ops, user))
  {
    if ops != [] {
      var before, op := ops[..|ops| - 1], ops[|ops| - 1];
      UsedAreRedeemed(before, user);
      CodesAfter(Run(before), op, user);
      hide CodesOf, UsedCodes, Apply;
    }
  }

  // Main result, in every state of every run: a confirmed TOTP record means MFA is enabled, enabled
  // means there is a TOTP record, codes exist only while enabled and then there are ten; and the used
  // ones are exactly the distinct codes redeemed since the last confirmation, ten at most.
  lemma MfaInvariants(ops: seq<Op>, user: Id)
    requires user in Run(ops).accounts
    ensures var t := Run(ops);
            && AccountOk(t, user)
            && UsedCodes(t, user) == Elements(Redeemed(ops, user))
            && Distinct(Redeemed(ops, user)) && |Redeemed(ops, user)| <= RECOVERY_CODES
  {
    RunInv(ops);
    UsedAreRedeemed(ops, user);
    DistinctCount(Redeemed(ops, user));
    SubsetSize(UsedCodes(Run(ops), user), CodesOf(Run(ops), user));
  }

  // --- What each use case answers, and writes ---

  // The user has a confirmed record and the code is right for it.
  ghost predicate SecondFactor(t: Tables, user: Id, totpOk: bool) {
    user in t.accounts && t.accounts[user].totp.Some? && t.accounts[user].totp.value.confirmed && totpOk
  }

  // Main result: a login succeeds without a recovery code exactly when it is allowed, MFA is enabled, the
  // credentials can be issued and the TOTP code is right for a confirmed record; with recovery code h exactly
  // when the TOTP way fails and h is an unused code of that user, which is then used. A refused login
  // changes nothing.
  lemma LoginOutcome(ops: seq<Op>, op: Op)
    requires op.CompleteLogin?
    ensures var t := Run(ops);
            var (t', r) := Apply(t, op);
            var open := op.allowed && op.issued && op.user in t.accounts && t.accounts[op.user].mfaEnabled;
            && (r == LoggedIn(None) <==> open && SecondFactor(t, op.user, op.totpOk))
            && (forall h :: r == LoggedIn(Some(h)) <==>
                  open && !SecondFactor(t, op.user, op.totpOk) && h == op.codeHash && h in CodesOf(t, op.user) && h !in UsedCodes(t, op.user))
            && (r.LoggedIn? || r == Rejected)
            && t'.accounts == t.accounts
            && t'.codes == if r.LoggedIn? && r.recovery.Some? then t.codes[op.codeHash := RecoveryCode(op.user, true)] else t.codes
  {
    hide Run;
  }

  // Main result: a confirmation succeeds exactly when the record is pending, the code is right and the drawn
  // codes are new; it confirms that record, enables MFA and leaves the user exactly those codes, unused.
  lemma ConfirmOutcome(ops: seq<Op>, op: Op)
    requires op.Confirm?
    ensures var t := Run(ops);
            var (t', r) := Apply(t, op);
            var pending := op.user in t.accounts && t.accounts[op.user].totp.Some? && !t.accounts[op.user].totp.value.confirmed;
            var clash := !Distinct(op.hashes) || exists h :: h in op.hashes && h in t.codes && t.codes[h].user != op.user;
            && (r == Rejected <==> !pending || !op.codeOk)
            && (r == IntegrityError <==> pending && op.codeOk && clash)
            && (r == Done <==> pending && op.codeOk && !clash)
            && (r != Done ==> t' == t)
            && (r == Done ==>
                  && t'.accounts == t.accounts[op.user := Account(true, Some(Totp(t.accounts[op.user].totp.value.seed, true)))]
                  && CodesOf(t', op.user) == Elements(op.hashes) && UsedCodes(t', op.user) == {}
                  && forall u :: u != op.user ==> CodesOf(t', u) == CodesOf(t, u) && UsedCodes(t', u) == UsedCodes(t, u))
  {
    hide Run;
    var t := Run(ops);
    FitsIff(t.codes, op.user, op.hashes);
    forall u ensures u != op.user ==> CodesOf(Apply(t, op).0, u) == CodesOf(t, u) && UsedCodes(Apply(t, op).0, u) == UsedCodes(t, u) {
      CodesAfter(t, op, u);
    }
    CodesAfter(t, op, op.user);
    hide CodesOf, UsedCodes, BatchFits, AddCodes, WithoutCodes, Distinct;
  }

  lemma FitsIff(codes: map<CodeHash, RecoveryCode>, user: Id, hashes: seq<CodeHash>)
    ensures BatchFits(WithoutCodes(codes, user), hashes) <==>
            Distinct(hashes) && !exists h :: h in hashes && h in codes && codes[h].user != user
  {
    hide Distinct;
    forall i | 0 <= i < |hashes| ensures hashes[i] in hashes { }
  }

  // A step-up is granted exactly for a right code; starting an enrollment replaces the record and leaves
  // mfa_enabled; disabling removes record and codes. None touches another user.
  lemma OtherOutcomes(t: Tables, op: Op)
    requires op.StepUp? || op.StartEnrollment? || op.Disable?
    ensures var (t', r) := Apply(t, op);
            && (op.StepUp? ==> t' == t && (r == Done <==> SecondFactor(t, op.user, op.totpOk)) && (r == Done || r == Rejected))
            && (op.StartEnrollment? ==>
                  && (r == Done <==> op.user in t.accounts) && t'.codes == t.codes && (r != Done ==> t' == t && r == IntegrityError)
                  && (r == Done ==> t'.accounts == t.accounts[op.user := Account(t.accounts[op.user].mfaEnabled, Some(Totp(op.seed, false)))]))
            && (op.Disable? ==>
                  && r == Done && t'.accounts.Keys == t.accounts.Keys
                  && (op.user in t.accounts ==> t'.accounts[op.user] == Account(false, None)) && CodesOf(t', op.user) == {}
                  && forall u :: u != op.user ==>
                       && (u in t.accounts ==> t'.accounts[u] == t.accounts[u])
                       && CodesOf(t', u) == CodesOf(t, u) && UsedCodes(t', u) == UsedCodes(t, u))
  {
    if op.Disable? {
      CodesAfter(t, op, op.user);
      forall u ensures u != op.user ==> CodesOf(Apply(t, op).0, u) == CodesOf(t, u) && UsedCodes(Apply(t, op).0, u) == UsedCodes(t, u) {
        CodesAfter(t, op, u);
      }
    }
    hide CodesOf, UsedCodes;
  }

  // --- The use cases as the code runs them ---

  class MfaDatabase {
    var accounts: map<Id, Account>
    var codes: map<CodeHash, RecoveryCode>

    constructor ()
      ensures Current() == EMPTY
    {
      accounts, codes := map[], map[];
    }

    ghost function Current(): Tables
      reads this
    {
      Tables(accounts, codes)
    }

    // recovery_codes.add_batch: one row after the other; a repeated hash fails the batch.
    method AddBatch(user: Id, hashes: seq<CodeHash>) returns (ok: bool)
      modifies this`codes
      ensures ok <==> BatchFits(old(codes), hashes)
      ensures ok ==> codes == AddCodes(old(codes), user, hashes)
    {
      ghost var before := codes;
      for i := 0 to |hashes|
        invariant BatchFits(before, hashes[..i])
        invariant codes == AddCodes(before, user, hashes[..i])
      {
        NextCode(before, user, hashes, i);
        if hashes[i] in codes { return false; }
        codes := codes[hashes[i] := RecoveryCode(user, false)];
      }
      assert hashes[..|hashes|] == hashes;
      return true;
    }

    method StartTotpEnrollment(user: Id, seed: Seed) returns (r: Result)
      modifies this`accounts
      ensures (Current(), r) == Apply(old(Current()), StartEnrollment(user, seed))
    {
      if user !in accounts { return IntegrityError; }
      accounts := accounts[user := accounts[user].(totp := None)];
      accounts := accounts[user := accounts[user].(totp := Some(Totp(seed, false)))];
      assert accounts == old(accounts)[user := old(accounts)[user].(totp := Some(Totp(seed, false)))];
      return Done;
    }

    method ConfirmEnrollment(user: Id, codeOk: bool, hashes: CodeBatch) returns (r: Result)
      modifies this
      ensures (Current(), r) == Apply(old(Current()), Confirm(user, codeOk, hashes))
    {
      if user !in accounts || accounts[user].totp.None? || accounts[user].totp.value.confirmed { return Rejected; }
      if !codeOk { return Rejected; }
      var savedAccounts, savedCodes := accounts, codes;
      accounts := accounts[user := accounts[user].(totp := Some(accounts[user].totp.value.(confirmed := true)))];
      accounts := accounts[user := accounts[user].(mfaEnabled := true)];
      assert accounts == old(accounts)[user := Account(true, Some(old(accounts)[user].totp.value.(confirmed := true)))];
      codes := WithoutCodes(codes, user);
      var ok := AddBatch(user, hashes);
      if !ok {
        accounts, codes := savedAccounts, savedCodes;
        return IntegrityError;
      }
      return Done;
    }

    method CompleteMfaLogin(user: Id, allowed: bool, totpOk: bool, codeHash: CodeHash, issued: bool) returns (r: Result)
      modifies this`codes
      ensures (Current(), r) == Apply(old(Current()), CompleteLogin(user, allowed, totpOk, codeHash, issued))
    {
      if !allowed || user !in accounts || !accounts[user].mfaEnabled { return Rejected; }
      var saved, recovery := codes, None;
      if !(accounts[user].totp.Some? && accounts[user].totp.value.confirmed && totpOk) {
        if codeHash !in codes || codes[codeHash].user != user || codes[codeHash].used { return Rejected; }
        codes := codes[codeHash := codes[codeHash].(used := true)];
        recovery := Some(codeHash);
      }
      if !issued {
        codes := saved;
        return Rejected;
      }
      return LoggedIn(recovery);
    }

    method DisableMfa(user: Id) returns (r: Result)
      modifies this
      ensures (Current(), r) == Apply(old(Current()), Disable(user))
    {
      if user in accounts { accounts := accounts[user := accounts[user].(totp := None)]; }
      codes := WithoutCodes(codes, user);
      if user in accounts {
        accounts := accounts[user := accounts[user].(mfaEnabled := false)];
        assert accounts == old(accounts)[user := Account(false, None)];
      }
      return Done;
    }
  }
}
