/// Runs of the contest: sequences of handler invocations applied to a state,
/// with an audit log of the codes issued since the round began. The lemmas
/// here state what holds across many invocations: codes leave each pool
/// head first, no code is issued twice, a recorded outcome never changes
/// within a round, and once the pools are emptied they stay empty.
module ContestRun {
  import opened ContestState

  /** One invocation of a state-changing handler. A play carries the reply
      it produced, which stands for the result of the random draw. */
  datatype Op =
    | PlayOp(user: UserKey, reply: PlayReply)
    | ClaimOp(presser: UserKey, owner: UserKey)
    | ResetOp(requester: int)
    | EndOp(requester: int)

  function Step(s: Snapshot, op: Op, admin: int): Snapshot {
    match op
    case PlayOp(u, reply) => AfterPlay(s, u, reply)
    case ClaimOp(p, o) => ClaimStep(s, p, o).1
    case ResetOp(r) => ResetStep(s, r, admin).1
    case EndOp(r) => EndStep(s, r, admin).1
  }

  function Run(s: Snapshot, ops: seq<Op>, admin: int): Snapshot
    decreases |ops|
  {
    if ops == [] then s else Run(Step(s, ops[0], admin), ops[1..], admin)
  }

  /** A play's reply is one the draw can actually produce in that state. */
  predicate Possible(s: Snapshot, op: Op) {
    op.PlayOp? ==> op.reply in PlayReplies(s, op.user)
  }

  predicate PossibleRun(s: Snapshot, ops: seq<Op>, admin: int)
    decreases |ops|
  {
    ops == [] || (Possible(s, ops[0]) && PossibleRun(Step(s, ops[0], admin), ops[1..], admin))
  }

  /** The number of resets in `ops` issued by the admin. */
  function AdminResets(ops: seq<Op>, admin: int): nat {
    if ops == [] then 0
    else (if ops[0] == ResetOp(admin) then 1 else 0) + AdminResets(ops[1..], admin)
  }

  /** The inventory a round started with (for a snapshot loaded mid-round,
      the pools at start-up), the codes issued per tier since then, and
      whether the admin has ended the contest in this round. */
  datatype Audit = Audit(stock: Pools, issued: Pools, ended: bool)

  /** The audit of a round that starts with pools `p`. */
  function RoundStart(p: Pools): Audit {
    Audit(p, map t | t in p :: [], false)
  }

  /** Per tier, the issued codes followed by the pool are the round's
      inventory (until the admin ends the contest; from then on the pool is
      empty and the issued codes are a prefix of the inventory). */
  predicate Audited(s: Snapshot, a: Audit) {
    && s.vouchers.Keys == a.stock.Keys
    && a.issued.Keys == a.stock.Keys
    && forall t :: t in a.stock ==>
         && a.issued[t] + s.vouchers[t] <= a.stock[t]
         && (a.ended ==> s.vouchers[t] == [])
         && (!a.ended ==> a.issued[t] + s.vouchers[t] == a.stock[t])
  }

  function AuditStep(s: Snapshot, a: Audit, op: Op, admin: int): Audit {
    match op
    case PlayOp(_, _) => a
    case ClaimOp(p, o) =>
      var reply := ClaimStep(s, p, o).0;
      if reply.Issued? then
        var t := s.winners[p];
        var before := if t in a.issued then a.issued[t] else [];
        a.(issued := a.issued[t := before + [reply.code]])
      else a
    case ResetOp(r) => if r == admin then RoundStart(Inventory()) else a
    case EndOp(r) => if r == admin then a.(ended := true) else a
  }

  function RunAudit(s: Snapshot, a: Audit, ops: seq<Op>, admin: int): Audit
    decreases |ops|
  {
    if ops == [] then a
    else RunAudit(Step(s, ops[0], admin), AuditStep(s, a, ops[0], admin), ops[1..], admin)
  }

  /** No code occurs twice anywhere in `p`, within a tier or across tiers. */
  predicate UniqueCodes(p: Pools) {
    forall t1, i, t2, j ::
      t1 in p && t2 in p && 0 <= i < |p[t1]| && 0 <= j < |p[t2]| && (t1 != t2 || i != j) ==>
        p[t1][i] != p[t2][j]
  }

  /** No code of `p` occurs in `q`. */
  predicate DisjointCodes(p: Pools, q: Pools) {
    forall t1, i, t2, j ::
      t1 in p && t2 in q && 0 <= i < |p[t1]| && 0 <= j < |q[t2]| ==> p[t1][i] != q[t2][j]
  }

  lemma RoundStartAudited(s: Snapshot)
    ensures Audited(s, RoundStart(s.vouchers))
  {
  }

  lemma ClaimKeepsAudit(s: Snapshot, a: Audit, presser: UserKey, owner: UserKey, admin: int)
    requires Audited(s, a)
    ensures Audited(ClaimStep(s, presser, owner).1, AuditStep(s, a, ClaimOp(presser, owner), admin))
  {
  }

  lemma EndKeepsAudit(s: Snapshot, a: Audit, requester: int, admin: int)
    requires Audited(s, a)
    ensures Audited(EndStep(s, requester, admin).1, AuditStep(s, a, EndOp(requester), admin))
  {
  }

  /** Every handler keeps the audit invariant. */
  lemma StepKeepsAudit(s: Snapshot, a: Audit, op: Op, admin: int)
    requires Audited(s, a)
    ensures Audited(Step(s, op, admin), AuditStep(s, a, op, admin))
  {
  }

  /** FIFO: along any run, per tier, the codes issued since the round began
      followed by the remaining pool are the round's inventory. */
  lemma {:induction false} RunKeepsAudit(s: Snapshot, a: Audit, ops: seq<Op>, admin: int)
    requires Audited(s, a)
    ensures Audited(Run(s, ops, admin), RunAudit(s, a, ops, admin))
    decreases |ops|
  {
    if ops != [] {
      StepKeepsAudit(s, a, ops[0], admin);
      RunKeepsAudit(Step(s, ops[0], admin), AuditStep(s, a, ops[0], admin), ops[1..], admin);
    }
  }

  /** Each admin reset adds one to the round, and nothing else changes it. */
  lemma {:induction false} RoundCountsResets(s: Snapshot, ops: seq<Op>, admin: int)
    ensures Run(s, ops, admin).currentRound == s.currentRound + AdminResets(ops, admin)
    decreases |ops|
  {
    if ops != [] {
      RoundCountsResets(Step(s, ops[0], admin), ops[1..], admin);
    }
  }

  /** A handler other than an admin reset keeps the round's inventory and
      only appends to the issued codes. */
  lemma StepIssuedGrows(s: Snapshot, a: Audit, op: Op, admin: int)
    requires Audited(s, a)
    requires op != ResetOp(admin)
    ensures AuditStep(s, a, op, admin).stock == a.stock
    ensures AuditStep(s, a, op, admin).issued.Keys == a.issued.Keys
    ensures forall t :: t in a.issued ==> a.issued[t] <= AuditStep(s, a, op, admin).issued[t]
  {
  }

  /** Within a round (the round number is unchanged, so no admin reset), the
      round's inventory stays the same and the issued codes of every tier
      only grow. */
  lemma {:induction false} IssuedOnlyGrowsWithinRound(s: Snapshot, a: Audit, ops: seq<Op>, admin: int)
    requires Audited(s, a)
    requires Run(s, ops, admin).currentRound == s.currentRound
    ensures RunAudit(s, a, ops, admin).stock == a.stock
    ensures RunAudit(s, a, ops, admin).issued.Keys == a.issued.Keys
    ensures forall t :: t in a.issued ==> a.issued[t] <= RunAudit(s, a, ops, admin).issued[t]
    decreases |ops|
  {
    if ops != [] {
      var s', a' := Step(s, ops[0], admin), AuditStep(s, a, ops[0], admin);
      RoundCountsResets(s, ops, admin);
      RoundCountsResets(s', ops[1..], admin);
      assert ops[0] != ResetOp(admin);
      StepKeepsAudit(s, a, ops[0], admin);
      StepIssuedGrows(s, a, ops[0], admin);
      IssuedOnlyGrowsWithinRound(s', a', ops[1..], admin);
    }
  }

  /** Under the audit, the issued codes are distinct from each other and
      from every code still in a pool, provided the round's inventory is. */
  lemma AuditedCodesUnique(s: Snapshot, a: Audit)
    requires Audited(s, a)
    requires UniqueCodes(a.stock)
    ensures UniqueCodes(a.issued)
    ensures DisjointCodes(a.issued, s.vouchers)
  {
    forall t1, i, t2, j |
      t1 in a.issued && t2 in a.issued && 0 <= i < |a.issued[t1]| && 0 <= j < |a.issued[t2]| &&
      (t1 != t2 || i != j)
      ensures a.issued[t1][i] != a.issued[t2][j]
    {
      assert a.issued[t1][i] == (a.issued[t1] + s.vouchers[t1])[i] == a.stock[t1][i];
      assert a.issued[t2][j] == (a.issued[t2] + s.vouchers[t2])[j] == a.stock[t2][j];
    }
    forall t1, i, t2, j |
      t1 in a.issued && t2 in s.vouchers && 0 <= i < |a.issued[t1]| && 0 <= j < |s.vouchers[t2]|
      ensures a.issued[t1][i] != s.vouchers[t2][j]
    {
      var k := |a.issued[t2]| + j;
      assert a.issued[t1][i] == (a.issued[t1] + s.vouchers[t1])[i] == a.stock[t1][i];
      assert s.vouchers[t2][j] == (a.issued[t2] + s.vouchers[t2])[k] == a.stock[t2][k];
    }
  }

  lemma InventoryCodesUnique()
    ensures UniqueCodes(Inventory())
  {
  }

  /** Along any run, every round's inventory is the loaded one or the fixed
      inventory. */
  lemma {:induction false} StockIsLoadedOrInventory(s: Snapshot, a: Audit, ops: seq<Op>, admin: int, loaded: Pools)
    requires a.stock == loaded || a.stock == Inventory()
    ensures var a' := RunAudit(s, a, ops, admin); a'.stock == loaded || a'.stock == Inventory()
    decreases |ops|
  {
    if ops != [] {
      StockIsLoadedOrInventory(Step(s, ops[0], admin), AuditStep(s, a, ops[0], admin), ops[1..], admin, loaded);
    }
  }

  /** Starting from a state whose pools hold distinct codes (the default
      state does), no run ever issues a code twice in a round or puts an
      issued code back into a pool. */
  lemma NoCodeIssuedTwice(s: Snapshot, ops: seq<Op>, admin: int)
    requires UniqueCodes(s.vouchers)
    ensures var a := RunAudit(s, RoundStart(s.vouchers), ops, admin);
            && Audited(Run(s, ops, admin), a)
            && UniqueCodes(a.issued)
            && DisjointCodes(a.issued, Run(s, ops, admin).vouchers)
  {
    var a0 := RoundStart(s.vouchers);
    RoundStartAudited(s);
    RunKeepsAudit(s, a0, ops, admin);
    StockIsLoadedOrInventory(s, a0, ops, admin, s.vouchers);
    InventoryCodesUnique();
    AuditedCodesUnique(Run(s, ops, admin), RunAudit(s, a0, ops, admin));
  }

  /** Once a user has an outcome, it stays the same for the rest of the round:
      a possible run can neither re-roll nor erase it. */
  lemma {:induction false} OutcomeFixedWithinRound(s: Snapshot, ops: seq<Op>, admin: int, u: UserKey)
    requires u in s.winners
    requires PossibleRun(s, ops, admin)
    requires Run(s, ops, admin).currentRound == s.currentRound
    ensures u in Run(s, ops, admin).winners
    ensures Run(s, ops, admin).winners[u] == s.winners[u]
    decreases |ops|
  {
    if ops != [] {
      var s' := Step(s, ops[0], admin);
      RoundCountsResets(s, ops, admin);
      RoundCountsResets(s', ops[1..], admin);
      assert ops[0] != ResetOp(admin);
      assert u in s'.winners && s'.winners[u] == s.winners[u];
      OutcomeFixedWithinRound(s', ops[1..], admin, u);
    }
  }

  /** Once every pool is empty (as after the end command), every pool stays
      empty for the rest of the round, so every possible play there yields
      AlreadyPlayed or NoPrize. */
  lemma {:induction false} PoolsStayEmptyWithinRound(s: Snapshot, ops: seq<Op>, admin: int)
    requires AllPoolsEmpty(s.vouchers)
    requires Run(s, ops, admin).currentRound == s.currentRound
    ensures AllPoolsEmpty(Run(s, ops, admin).vouchers)
    ensures forall u, x :: x in PlayReplies(Run(s, ops, admin), u) ==>
              x == AlreadyPlayed || x == Played(NoPrize)
    decreases |ops|
  {
    if ops != [] {
      var s' := Step(s, ops[0], admin);
      RoundCountsResets(s, ops, admin);
      RoundCountsResets(s', ops[1..], admin);
      assert ops[0] != ResetOp(admin);
      assert AllPoolsEmpty(s'.vouchers);
      PoolsStayEmptyWithinRound(s', ops[1..], admin);
    }
  }
}
