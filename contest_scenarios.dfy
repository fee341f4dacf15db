/// Consequences of the handlers' definitions for particular situations:
/// what one play records, what repeated claims hand out, what happens when
/// some tiers run dry, and the two-winners-one-tier story from the default
/// state.
module ContestScenarios {
  import opened ContestState
  import opened ContestRun

  /** A play that can happen adds at most the playing user to the winners
      ledger, never changes another user's entry, and touches nothing else. */
  lemma PlayRecordsOnlyTheUser(s: Snapshot, u: UserKey, reply: PlayReply)
    requires reply in PlayReplies(s, u)
    ensures var s' := AfterPlay(s, u, reply);
            && s'.currentRound == s.currentRound
            && s'.usedVouchers == s.usedVouchers
            && s'.vouchers == s.vouchers
            && (reply.Played? ==> u !in s.winners && s'.winners.Keys == s.winners.Keys + {u}
                                  && s'.winners[u] == reply.prize)
            && (forall v :: v in s.winners ==> v in s'.winners && s'.winners[v] == s.winners[v])
            && (!reply.Played? ==> s' == s)
  {
  }

  /** Claim never looks at the used-vouchers ledger: a winner who presses the
      button again takes the next code of the tier and overwrites the entry. */
  lemma RepeatClaimTakesNextCode(s: Snapshot, u: UserKey)
    requires u in s.winners && IsPrize(s.winners[u])
    requires s.winners[u] in s.vouchers && |s.vouchers[s.winners[u]]| >= 2
    ensures var pool := s.vouchers[s.winners[u]];
            var (first, s1) := ClaimStep(s, u, u);
            var (second, s2) := ClaimStep(s1, u, u);
            && first == Issued(pool[0])
            && second == Issued(pool[1])
            && s2.usedVouchers[u] == pool[1]
            && s2.vouchers[s.winners[u]] == pool[2..]
  {
  }

  lemma SubsetSize<T>(a: set<T>, b: set<T>)
    requires a <= b
    ensures |a| <= |b|
  {
    assert b == a + (b - a);
  }

  /** The draw raises whenever the population is shorter than the weight
      list. With the inventory's four tiers, once some tier is exhausted
      every new play fails, whatever the other tiers still hold (unless all
      of them are exhausted, when NoPrize is forced). */
  lemma PartialExhaustionBlocksPlay(s: Snapshot, u: UserKey, dry: Tier, left: Tier)
    requires s.vouchers.Keys == Inventory().Keys
    requires dry in s.vouchers && s.vouchers[dry] == []
    requires left in s.vouchers && s.vouchers[left] != []
    requires u !in s.winners
    ensures PlayReplies(s, u) == {DrawFailed}
  {
    var keys := Inventory().Keys;
    assert keys == {"₹10", "₹15", "₹20", "₹50"};
    assert |keys| == 4;
    assert NonEmptyTiers(s.vouchers) <= keys - {dry};
    SubsetSize(NonEmptyTiers(s.vouchers), keys - {dry});
    assert |keys - {dry}| == 3;
  }

  /** In the default state every tier has codes, so the draw is possible and
      any tier may be drawn. */
  lemma DefaultStateCanDraw()
    ensures DrawFits(Inventory())
    ensures forall t :: t in Inventory() ==> Played(t) in PlayReplies(DefaultState(), "")
  {
    assert NonEmptyTiers(Inventory()) == {"₹10", "₹15", "₹20", "₹50"};
  }

  /** The state after users "1", "2" and "3" all drew ₹10 from the default
      state; each of those draws was possible. */
  lemma ThreeTenRupeeWinners() returns (s3: Snapshot)
    ensures var s0 := DefaultState();
            var s1 := AfterPlay(s0, "1", Played("₹10"));
            var s2 := AfterPlay(s1, "2", Played("₹10"));
            && s3 == AfterPlay(s2, "3", Played("₹10"))
            && Played("₹10") in PlayReplies(s0, "1")
            && Played("₹10") in PlayReplies(s1, "2")
            && Played("₹10") in PlayReplies(s2, "3")
            && s3.vouchers == Inventory()
            && s3.winners == map["1" := "₹10", "2" := "₹10", "3" := "₹10"]
  {
    var s0 := DefaultState();
    DefaultStateCanDraw();
    var s1 := AfterPlay(s0, "1", Played("₹10"));
    var s2 := AfterPlay(s1, "2", Played("₹10"));
    assert s1.vouchers == s2.vouchers == Inventory();
    s3 := AfterPlay(s2, "3", Played("₹10"));
  }

  /** Those three winners claim in turn: the first two get TEST10A and
      TEST10B, the third finds the pool exhausted. A fourth user who plays
      after that cannot draw at all, since ₹10 is exhausted while the other
      tiers are not. */
  lemma TwoCodesThreeWinners(s3: Snapshot)
    requires s3.vouchers == Inventory()
    requires s3.winners == map["1" := "₹10", "2" := "₹10", "3" := "₹10"]
    ensures var (c1, s4) := ClaimStep(s3, "1", "1");
            var (c2, s5) := ClaimStep(s4, "2", "2");
            var (c3, s6) := ClaimStep(s5, "3", "3");
            && c1 == Issued("TEST10A")
            && c2 == Issued("TEST10B")
            && c3 == PoolExhausted && s6 == s5
            && PlayReplies(s6, "4") == {DrawFailed}
  {
    var (c1, s4) := ClaimStep(s3, "1", "1");
    assert c1 == Issued("TEST10A") && s4.vouchers["₹10"] == ["TEST10B"];
    var (c2, s5) := ClaimStep(s4, "2", "2");
    assert c2 == Issued("TEST10B") && s5.vouchers["₹10"] == [];
    assert s5.vouchers.Keys == Inventory().Keys && s5.vouchers["₹50"] == ["TEST50A"];
    PartialExhaustionBlocksPlay(s5, "4", "₹10", "₹50");
  }

  /** From the default state, no run issues a code twice within a round or
      returns an issued code to a pool. */
  lemma DefaultNeverIssuesTwice(ops: seq<Op>, admin: int)
    ensures var a := RunAudit(DefaultState(), RoundStart(Inventory()), ops, admin);
            && Audited(Run(DefaultState(), ops, admin), a)
            && UniqueCodes(a.issued)
            && DisjointCodes(a.issued, Run(DefaultState(), ops, admin).vouchers)
  {
    InventoryCodesUnique();
    NoCodeIssuedTwice(DefaultState(), ops, admin);
  }
}
