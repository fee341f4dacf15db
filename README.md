# Contest bot state machine

A Dafny model of the voucher contest kept by the Telegram bot in `main.py`.
All contest state is one dictionary. It holds the round number, the
`winners` ledger (user → tier label or "Better Luck Next Time"), the
`used_vouchers` ledger (user → last code issued) and the `vouchers` pools
(tier → codes, handed out head first). Four handlers change it:

- **play** (`/start`): a user who already has a `winners` entry is turned
  away. If every pool is empty the outcome is "Better Luck Next Time".
  Otherwise the bot draws among "Better Luck Next Time" and the tiers that
  still have codes. The outcome is then recorded.
- **claim** (the claim button): the presser must be the button's user and
  must have won a tier whose pool still has codes. The head code is then
  popped and recorded in `used_vouchers`.
- **reset** (`/reset`, admin only): the round goes up by one, both ledgers
  are cleared and the pools are set back to the fixed inventory.
- **end** (`/end`, admin only): every pool is emptied in a loop over the
  tiers. The ledgers are left alone.

Files:

- `contest_state.dfy` (module `ContestState`): the state as a `Snapshot`,
  the fixed inventory, and each handler's effect as a pure function.
  Play is nondeterministic, so `PlayReplies` gives the set of replies a play
  can produce and `AfterPlay` gives the state a given reply leaves behind.
- `contest_bot.dfy` (module `ContestBot`): class `Contest`. Its fields are
  the dictionary's four entries. Its methods `Play`, `Claim`, `Reset` and
  `End` update them in place, as main.py does. Each method is proved to give
  exactly the reply and new state of the matching pure function. `Play` makes
  the draw with a nondeterministic choice from the candidates. `End` keeps
  the source's loop over the tiers.
- `contest_run.dfy` (module `ContestRun`): runs, meaning sequences of handler
  calls, with a ghost audit log. The log holds the round's starting
  inventory (for a snapshot loaded mid-round, the pools at start-up), the
  codes issued per tier since then, and whether the admin
  ended the contest. The class carries this log as a ghost field, and its
  invariant `Valid()` is the audit predicate `Audited`.
- `contest_scenarios.dfy` (module `ContestScenarios`): consequences for
  particular situations. These cover repeat claims, tiers running dry, and
  three winners of one two-code tier.

Behaviour kept as the code has it:

- **Weight-list mismatch.** The draw passes a fixed list of five weights.
  Python's `random.choices` raises when the population has a different
  length, and the population is "Better Luck Next Time" plus the non-empty
  tiers. So a draw can only happen when exactly four tiers have codes. With
  the default four tiers, as soon as one tier is exhausted but another is
  not, every new play ends in the error handler and nothing is recorded
  (`PartialExhaustionBlocksPlay`).
- **No double-claim guard.** Claim never reads `used_vouchers`. A winner who
  presses the button again takes the next code and overwrites their entry
  (`RepeatClaimTakesNextCode`).
- **Python truthiness.** An empty-string `winners` entry counts as nothing
  to claim, just as a missing one does. A won tier that is absent from
  `vouchers` counts as exhausted.

Claim has no already-claimed rejection (`RepeatClaimTakesNextCode`). A draw
succeeds only while exactly four tiers have codes; then it is over NoPrize
and those four tiers (`PlayReplies`).

## Model

| member | source | states |
|---|---|---|
| `ContestState.Inventory` | main.py:26-31 | The fixed inventory of four tiers and six codes, defined once; it is both the load fallback's pools (main.py:26-31) and the reset literal (main.py:143-148). It has no contract of its own; `InventoryCodesUnique` and `DefaultStateCanDraw` state its properties. |
| `ContestState.DefaultState` | main.py:22-32 | The load fallback: round 1, empty ledgers, the fixed inventory. It has no contract of its own; `ResetStep`'s contract ties the reset state to it. |
| `ContestState.AfterPlay` | main.py:55-69 | The play's state change: the outcome is recorded for the user (main.py:69), and on the AlreadyPlayed and DrawFailed paths (main.py:55-57, 91-93) the state is unchanged. It has no contract of its own; `PlayRecordsOnlyTheUser` gives its frame. |
| `ContestState.PlayReplies` | main.py:55-67 | A user with a winners entry can only be told AlreadyPlayed. With every pool empty the only outcome is NoPrize. Otherwise the draw fails exactly when the candidate count is not the weight count. Any drawn prize is NoPrize or a tier whose pool is non-empty, and every such tier can be drawn. |
| `ContestState.ClaimStep` | main.py:100-117 | Each rejection (wrong presser, no prize, exhausted pool) happens exactly under its condition and leaves the state unchanged. A success returns the head of the won tier's pool and leaves its tail. It sets `used_vouchers[user]` to the code and keeps every other tier, the winners and the round. |
| `ContestState.ResetStep` | main.py:136-148 | A non-admin reset changes nothing. An admin reset yields the default start-up state with the round one higher, after which no user counts as having played. |
| `ContestState.EndStep` | main.py:155-161 | A non-admin end changes nothing. An admin end keeps the tier keys, empties every pool and keeps the ledgers and round, after which every play yields AlreadyPlayed or NoPrize. |
| `ContestBot.Contest.constructor` | main.py:17-32 | The state is the loaded snapshot if there is one, else the default (round 1, empty ledgers, fixed inventory); the audit starts a round on those pools. |
| `ContestBot.Contest.Play` | main.py:55-69 | The reply is one the draw allows in the old state. The new state is the old one with that outcome recorded for the user, or unchanged when nothing was recorded. The audit invariant is kept. |
| `ContestBot.Contest.Claim` | main.py:100-117 | The reply and new state are those of `ClaimStep`; the issued code is appended to the tier's audit log; the audit invariant is kept. |
| `ContestBot.Contest.Reset` | main.py:136-148 | The reply and new state are those of `ResetStep`; an admin reset starts a fresh audit on the fixed inventory. |
| `ContestBot.Contest.End` | main.py:155-161 | The loop over the tiers gives the reply and new state of `EndStep`; an admin end marks the audit as ended; the audit invariant is kept. |
| `ContestRun.RoundStartAudited` | main.py:140-148 | A round that starts from some pools, at start-up or after a reset, satisfies the FIFO audit with nothing issued. |
| `ContestRun.ClaimKeepsAudit` | main.py:115-117 | A claim keeps "issued codes followed by the pool equal the round's inventory" for every tier. |
| `ContestRun.EndKeepsAudit` | main.py:160-161 | Emptying the pools leaves the issued codes a prefix of the round's inventory. |
| `ContestRun.StepKeepsAudit` | main.py:55-161 | Every handler keeps the FIFO audit invariant. |
| `ContestRun.RunKeepsAudit` | main.py:111-117 | Along any run of handler calls, per tier, the codes issued since the round began (or since start-up, for a loaded snapshot) followed by the remaining pool are the round's inventory (a prefix of it once the admin has ended the contest). |
| `ContestRun.RoundCountsResets` | main.py:140 | A run's final round number is the starting one plus the number of admin resets in it. |
| `ContestRun.StepIssuedGrows` | main.py:115-117 | Any handler call except an admin reset keeps the round's inventory and only appends to the issued codes. |
| `ContestRun.IssuedOnlyGrowsWithinRound` | main.py:111-117 | Within a round (round number unchanged), the round's inventory stays fixed and each tier's issued codes only grow; a code is never taken back. |
| `ContestRun.AuditedCodesUnique` | main.py:115 | If the round's inventory has distinct codes, no code is issued twice and no issued code is still in any pool. |
| `ContestRun.InventoryCodesUnique` | main.py:26-31 | The fixed inventory's six codes are pairwise distinct. |
| `ContestRun.StockIsLoadedOrInventory` | main.py:143-148 | The inventory the audit starts from is the loaded one (the pools at start-up, for a loaded snapshot) or, after any admin reset, the fixed inventory. |
| `ContestRun.NoCodeIssuedTwice` | main.py:115-117 | From a state whose pools hold distinct codes, no run issues a code twice in a round or puts an issued code back in a pool. |
| `ContestRun.OutcomeFixedWithinRound` | main.py:55-69 | Once a user has an outcome, every possible run within the round keeps that same outcome; it is never re-rolled or erased. |
| `ContestRun.PoolsStayEmptyWithinRound` | main.py:59-61 | Once every pool is empty (as after end), the pools stay empty for the rest of the round and every play yields AlreadyPlayed or NoPrize. |
| `ContestScenarios.PlayRecordsOnlyTheUser` | main.py:55-69 | A possible play adds at most the playing user to the winners ledger. It changes no other entry and leaves the pools, the used-vouchers ledger and the round unchanged. |
| `ContestScenarios.RepeatClaimTakesNextCode` | main.py:106-117 | A winner pressing claim twice gets the first and then the second code of the tier; `used_vouchers` ends with the second. |
| `ContestScenarios.PartialExhaustionBlocksPlay` | main.py:63-67 | With the inventory's four tiers, one exhausted and another not, every new play fails in the draw. |
| `ContestScenarios.DefaultStateCanDraw` | main.py:63-67 | In the default state the draw fits the weight list and every tier can be drawn. |
| `ContestScenarios.ThreeTenRupeeWinners` | main.py:55-69 | From the default state, three users can each draw ₹10 in turn. |
| `ContestScenarios.TwoCodesThreeWinners` | main.py:106-117 | Those three claim in turn and get TEST10A, then TEST10B, then the exhausted-pool rejection. A fourth player's draw then fails. |
| `ContestScenarios.DefaultNeverIssuesTwice` | main.py:22-32 | From the default state no run issues a code twice in a round or returns it to a pool. |

## Left out

- Telegram transport: updates, replies, message edits, inline keyboards and message texts. These are presentation only. Each handler's outcome is a reply value instead.
- The channel-membership check (main.py:42-53) is a network call. `Contest.Play` stands for a play whose membership check has passed.
- Reading and writing data.json (main.py:18-21, 34-36). The loaded state is a constructor parameter, with `None` standing for a missing or corrupt file. A failed `save_data` is not modelled. In `start`, `handle_callback` and `admin_reset` (main.py:70, 118, 149) a failed save is caught by the handler's `except` (main.py:91-93, 130-132, 151-153): the in-memory change stays and the user is told an error occurred, while the model replies `Played`, `Issued` or `Done`. In `end_contest` (main.py:162) a failed save is not caught and the exception leaves the handler after the pools were emptied; the model replies `Done`. A loaded file is assumed to have the four fields with their expected types.
- `BOT_TOKEN` and `ADMIN_ID` come from the environment. The admin id is a constructor parameter and the token is not used.
- Contest.Play: the model states only which outcomes the draw can produce, not their probabilities. The weights matter only through the length of their list.
- The redeem URL built from the code (main.py:116) is output formatting.
- The claim button's callback data split at ':' (main.py:100) is not modelled. The button's user is a parameter, and a malformed callback string taking the error path is not represented.
- Dictionary order is not kept. The draw's population is a set, since only its members and its size matter. `End` empties the tiers in any order, which gives the same result.
- `main()` handler registration and `run_polling` (main.py:165-174). Each state-changing block runs without an intervening `await`, so each handler is one atomic step, and concurrency is not modelled.
