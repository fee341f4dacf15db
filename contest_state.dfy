/// The contest bot's shared state (the module-level `data` dictionary of
/// main.py) and the effect of each state-changing handler on it, as pure
/// functions of a state snapshot.
module ContestState {

  /** The label recorded for a user who drew no prize. */
  const NoPrize: string := "Better Luck Next Time"

  /** The weights handed to the random draw: one for NoPrize, four for tiers. */
  const Weights: seq<nat> := [80, 5, 5, 5, 5]

  type UserKey = string  // the decimal text of a Telegram user id
  type Tier = string     // a prize label such as "₹10"
  type Code = string     // a voucher claim code
  type Pools = map<Tier, seq<Code>>

  /** The four fields of `data`. */
  datatype Snapshot = Snapshot(
    currentRound: int,
    winners: map<UserKey, string>,     // user -> tier label or NoPrize
    usedVouchers: map<UserKey, Code>,  // user -> last code issued to them
    vouchers: Pools)                   // tier -> codes still to hand out, head first

  /** The fixed inventory: the fallback when data.json is missing or corrupt,
      and what every round starts with. */
  function Inventory(): Pools {
    map[
      "₹10" := ["TEST10A", "TEST10B"],
      "₹15" := ["TEST15A", "TEST15B"],
      "₹20" := ["TEST20A"],
      "₹50" := ["TEST50A"]
    ]
  }

  /** The state used when no saved state can be loaded. */
  function DefaultState(): Snapshot {
    Snapshot(1, map[], map[], Inventory())
  }

  predicate AllPoolsEmpty(p: Pools) {
    forall t :: t in p ==> p[t] == []
  }

  function NonEmptyTiers(p: Pools): set<Tier> {
    set t | t in p && p[t] != []
  }

  /** The population handed to the random draw: NoPrize and every tier that
      still has codes. */
  function Candidates(p: Pools): set<string> {
    {NoPrize} + NonEmptyTiers(p)
  }

  /** The draw raises unless the population (NoPrize followed by the
      non-empty tiers) is exactly as long as the weight list. */
  predicate DrawFits(p: Pools) {
    1 + |NonEmptyTiers(p)| == |Weights|
  }

  datatype PlayReply =
    | AlreadyPlayed          // the user has a winners entry this round
    | DrawFailed             // the draw raised; the error handler replied
    | Played(prize: string)  // the outcome recorded for the user

  /** Every reply a play by `u` can produce in state `s`; the draw makes
      play nondeterministic, and this set is its range. */
  function PlayReplies(s: Snapshot, u: UserKey): (r: set<PlayReply>)
    ensures r != {}
    ensures u in s.winners <==> AlreadyPlayed in r
    ensures u in s.winners ==> r == {AlreadyPlayed}
    ensures forall p :: Played(p) in r ==>
              u !in s.winners && (p == NoPrize || (p in s.vouchers && s.vouchers[p] != []))
    ensures u !in s.winners && AllPoolsEmpty(s.vouchers) ==> r == {Played(NoPrize)}
    ensures DrawFailed in r <==>
              u !in s.winners && !AllPoolsEmpty(s.vouchers) && !DrawFits(s.vouchers)
    ensures DrawFailed in r ==> r == {DrawFailed}
    ensures forall p :: Played(p) in r && p != NoPrize ==> DrawFits(s.vouchers)
    ensures u !in s.winners && DrawFits(s.vouchers) ==>
              Played(NoPrize) in r &&
              forall t :: t in s.vouchers && s.vouchers[t] != [] ==> Played(t) in r
  {
    if u in s.winners then {AlreadyPlayed}
    else if AllPoolsEmpty(s.vouchers) then {Played(NoPrize)}
    else if !DrawFits(s.vouchers) then {DrawFailed}
    else
      var drawn := set c | c in Candidates(s.vouchers) :: Played(c);
      assert Played(NoPrize) in drawn;
      drawn
  }

  /** The state after a play by `u` that produced `reply`. */
  function AfterPlay(s: Snapshot, u: UserKey, reply: PlayReply): Snapshot {
    if reply.Played? then s.(winners := s.winners[u := reply.prize]) else s
  }

  datatype ClaimReply =
    | NotYourButton   // the presser is not the user the button was made for
    | NoVoucher       // no winners entry, or the entry is not a prize
    | PoolExhausted   // the won tier has no codes left
    | Issued(code: Code)

  /** Whether a winners entry names something to claim; the empty string is
      false in Python, as is a missing entry. */
  predicate IsPrize(entry: string) {
    entry != "" && entry != NoPrize
  }

  /** The claim button pressed by `presser` on a message made for `owner`. */
  function ClaimStep(s: Snapshot, presser: UserKey, owner: UserKey): (r: (ClaimReply, Snapshot))
    ensures r.0 == NotYourButton <==> presser != owner
    ensures r.0 == NoVoucher <==>
              presser == owner && (presser !in s.winners || !IsPrize(s.winners[presser]))
    ensures r.0 == PoolExhausted <==>
              presser == owner && presser in s.winners && IsPrize(s.winners[presser]) &&
              (s.winners[presser] !in s.vouchers || s.vouchers[s.winners[presser]] == [])
    ensures !r.0.Issued? ==> r.1 == s
    ensures r.0.Issued? ==>
              presser in s.winners && s.winners[presser] in s.vouchers &&
              var t := s.winners[presser];
              && r.1.vouchers.Keys == s.vouchers.Keys
              && s.vouchers[t] == [r.0.code] + r.1.vouchers[t]
              && (forall t' :: t' in s.vouchers && t' != t ==> r.1.vouchers[t'] == s.vouchers[t'])
              && r.1.usedVouchers == s.usedVouchers[presser := r.0.code]
              && r.1.winners == s.winners
              && r.1.currentRound == s.currentRound
  {
    if presser != owner then (NotYourButton, s)
    else if presser !in s.winners || !IsPrize(s.winners[presser]) then (NoVoucher, s)
    else
      var prize := s.winners[presser];
      if prize !in s.vouchers || s.vouchers[prize] == [] then (PoolExhausted, s)
      else
        var code := s.vouchers[prize][0];
        (Issued(code), s.(vouchers := s.vouchers[prize := s.vouchers[prize][1..]],
                          usedVouchers := s.usedVouchers[presser := code]))
  }

  datatype AdminReply = AdminOnly | Done

  /** The reset command: a new round with empty ledgers and the inventory. */
  function ResetStep(s: Snapshot, requester: int, admin: int): (r: (AdminReply, Snapshot))
    ensures requester != admin ==> r == (AdminOnly, s)
    ensures requester == admin ==>
              r.0 == Done && r.1 == DefaultState().(currentRound := s.currentRound + 1)
    ensures requester == admin ==> forall u :: AlreadyPlayed !in PlayReplies(r.1, u)
  {
    if requester != admin then (AdminOnly, s)
    else (Done, Snapshot(s.currentRound + 1, map[], map[], Inventory()))
  }

  /** The end command: every pool emptied, ledgers and round untouched. */
  function EndStep(s: Snapshot, requester: int, admin: int): (r: (AdminReply, Snapshot))
    ensures requester != admin ==> r == (AdminOnly, s)
    ensures requester == admin ==>
              && r.0 == Done
              && r.1.vouchers.Keys == s.vouchers.Keys
              && AllPoolsEmpty(r.1.vouchers)
              && r.1.winners == s.winners
              && r.1.usedVouchers == s.usedVouchers
              && r.1.currentRound == s.currentRound
    ensures requester == admin ==>
              forall u, x :: x in PlayReplies(r.1, u) ==> x == AlreadyPlayed || x == Played(NoPrize)
  {
    if requester != admin then (AdminOnly, s)
    else (Done, s.(vouchers := map t | t in s.vouchers :: []))
  }
}
