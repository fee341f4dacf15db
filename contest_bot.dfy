/// The bot's in-memory contest state as one object whose handlers update its
/// fields in place, as main.py's handlers update the `data` dictionary.
module ContestBot {
  import opened ContestState
  import opened ContestRun

  datatype Option<T> = None | Some(value: T)

  class Contest {
    /** The administrator's Telegram id. */
    const admin: int

    var currentRound: int
    var winners: map<UserKey, string>
    var usedVouchers: map<UserKey, Code>
    var vouchers: Pools

    /** Ghost record of the round's inventory and the codes issued so far. */
    ghost var audit: Audit

    function State(): Snapshot
      reads this
    {
      Snapshot(currentRound, winners, usedVouchers, vouchers)
    }

    ghost predicate Valid()
      reads this
    {
      Audited(State(), audit)
    }

    /** Start-up: the saved state if it could be read, else the default one.
        The audit treats the loaded pools as the round's inventory. */
    constructor (adminId: int, loaded: Option<Snapshot>)
      ensures Valid()
      ensures admin == adminId
      ensures State() == (if loaded.Some? then loaded.value else DefaultState())
      ensures audit == RoundStart(State().vouchers)
    {
      var s := if loaded.Some? then loaded.value else DefaultState();
      admin := adminId;
      currentRound := s.currentRound;
      winners := s.winners;
      usedVouchers := s.usedVouchers;
      vouchers := s.vouchers;
      audit := RoundStart(s.vouchers);
      new;
      RoundStartAudited(s);
    }

    /** The start command by `user`, after the membership check passed. */
    method Play(user: UserKey) returns (reply: PlayReply)
      requires Valid()
      modifies this
      ensures Valid()
      ensures reply in PlayReplies(old(State()), user)
      ensures State() == AfterPlay(old(State()), user, reply)
      ensures audit == old(audit)
    {
      if user in winners {
        return AlreadyPlayed;
      }
      var prize: string;
      if AllPoolsEmpty(vouchers) {
        prize := NoPrize;
      } else if !DrawFits(vouchers) {
        // the draw raises before anything is recorded
        return DrawFailed;
      } else {
        prize :| prize in Candidates(vouchers);
      }
      winners := winners[user := prize];
      reply := Played(prize);
      StepKeepsAudit(old(State()), audit, PlayOp(user, reply), admin);
    }

    /** The claim button made for `owner`, pressed by `presser`. */
    method Claim(presser: UserKey, owner: UserKey) returns (reply: ClaimReply)
      requires Valid()
      modifies this
      ensures Valid()
      ensures (reply, State()) == ClaimStep(old(State()), presser, owner)
      ensures audit == AuditStep(old(State()), old(audit), ClaimOp(presser, owner), admin)
    {
      if presser != owner {
        return NotYourButton;
      }
      if presser !in winners || !IsPrize(winners[presser]) {
        return NoVoucher;
      }
      var prize := winners[presser];
      if prize !in vouchers || vouchers[prize] == [] {
        return PoolExhausted;
      }
      var code := vouchers[prize][0];
      vouchers := vouchers[prize := vouchers[prize][1..]];
      usedVouchers := usedVouchers[presser := code];
      reply := Issued(code);
      ClaimKeepsAudit(old(State()), audit, presser, owner, admin);
      audit := AuditStep(old(State()), audit, ClaimOp(presser, owner), admin);
    }

    /** The reset command: start the next round. */
    method Reset(requester: int) returns (reply: AdminReply)
      requires Valid()
      modifies this
      ensures Valid()
      ensures (reply, State()) == ResetStep(old(State()), requester, admin)
      ensures audit == AuditStep(old(State()), old(audit), ResetOp(requester), admin)
    {
      if requester != admin {
        return AdminOnly;
      }
      currentRound := currentRound + 1;
      winners := map[];
      usedVouchers := map[];
      vouchers := Inventory();
      audit := RoundStart(Inventory());
      RoundStartAudited(State());
      reply := Done;
    }

    /** The end command: empty every pool, one tier at a time. */
    method End(requester: int) returns (reply: AdminReply)
      requires Valid()
      modifies this
      ensures Valid()
      ensures (reply, State()) == EndStep(old(State()), requester, admin)
      ensures audit == AuditStep(old(State()), old(audit), EndOp(requester), admin)
    {
      if requester != admin {
        return AdminOnly;
      }
      var pending := vouchers.Keys;
      while pending != {}
        invariant vouchers.Keys == old(vouchers).Keys
        invariant pending <= vouchers.Keys
        invariant forall t :: t in vouchers && t !in pending ==> vouchers[t] == []
        invariant forall t :: t in pending ==> vouchers[t] == old(vouchers)[t]
        invariant currentRound == old(currentRound) && winners == old(winners)
        invariant usedVouchers == old(usedVouchers) && audit == old(audit)
        decreases pending
      {
        var t :| t in pending;
        vouchers := vouchers[t := []];
        pending := pending - {t};
      }
      assert vouchers == EndStep(old(State()), requester, admin).1.vouchers;
      EndKeepsAudit(old(State()), audit, requester, admin);
      audit := audit.(ended := true);
      reply := Done;
    }
  }
}
