# Raffle lifecycle engine of raffle-web3-bot, in Dafny

This project models the back end of a Telegram Mini App that runs TON raffles
of three kinds (EXPRESS, STANDARD, PREMIUM), and proves properties of that model.

**A raffle's lifecycle:**

- It is created ACTIVE with its type's minimum number of players, entry fee
  and prize pool.
- Players join by paying the entry fee. Each payment is checked against the
  TON ledger and recorded once.
- When the participant count reaches the minimum, the raffle turns WAITING
  with a deadline.
- A scheduler tick draws every WAITING raffle whose deadline has passed.
  - The status is DRAWING while the randomness oracle picks an index.
  - The winner is marked and credited.
  - The prize is paid when the winner has a wallet.
  - The raffle is COMPLETED, a fresh raffle of the same type is opened, and
    every WebSocket client is told.
  - A failure anywhere in the draw resets the raffle to WAITING.

**Also modelled:**

- the Telegram init-data check that signs users in;
- the startup seeding that opens one raffle per type;
- the CORS origin setting.

**Files:**

| file | contents |
|---|---|
| `wrappers.dfy` | `Option` and `Result` |
| `strings.dfy` | the parts of Python's `str` the code uses: split, join, strip, ordering |
| `models.dfy` | the record types and enums; amounts in integer nanotons, times in integer seconds |
| `config.dfy` | the settings and their defaults, `cors_origins_list` |
| `crud.dfy` | the tables as a `Database` class with `seq` fields; the queries as functions over them, the inserts as methods |
| `ton.dfy` | the matching loop of `verify_transaction` over a fetched page of ledger records |
| `raffle_service.dfy` | configuration, creation, join, the threshold check, the draw and the prize payout |
| `websocket.dfy` | the `ConnectionManager` class and its message shapes |
| `scheduler.dfy` | one tick of `check_raffles_ready_to_draw` |
| `init_raffles.dfy` | the startup seeding |
| `auth.dfy` | `verify_telegram_webapp_data` and `verify_telegram_auth` |

**Stateful operations** are methods on the `Database` and `ConnectionManager`
classes. Each is proved against a pure specification function of the old
state:

- `Draw` for `DrawRaffle`, and `Settle`, the part after the oracle's pick, for `SettleDraw`;
- `SendPrizeSpec` for `SendPrize`;
- `Tick` for `CheckRafflesReadyToDraw` and its loop `RunTick`;
- `SeedFrom` for `InitRaffles`;
- `Keep` for `Broadcast`.

The lemmas state the source's promises about those functions.

**Inputs.** Everything outside the process is a parameter:

- the clock (`now`);
- the ledger page the TON API returns (`Fetch`);
- the oracle's answer as a function of the population size, together with the
  payout's outcome and whether the follow-up insert fails (`DrawEnv`);
- which WebSocket clients fail to receive (`broken`);
- the query-string parser, UTF-8 encoder, HMAC-SHA-256 (RFC 2104), hex
  encoder and JSON decoder (`Auth.Foreign`).

**Behaviour kept as written:**

- **Overshoot.** A WAITING raffle still accepts joins (`WaitingAcceptsJoins`).
- **Stale count.** The threshold check sees the participant collection as it
  was loaded before the insert. A join therefore turns the raffle WAITING only
  when the minimum was already present before it, so it takes the
  (minimum + 1)-th player (`ThresholdSeesLoadedCount`).
- **Stuck in DRAWING.** A raffle left in DRAWING can never be drawn, joined or
  timed again (`DrawingIsStuck`).
- **Rollback after completion.** When creating the next raffle fails, the
  draw resets a raffle that was already COMPLETED and credited back to
  WAITING, with its winner still set (`RollbackAfterCompletion`). A later
  draw then credits the prize pool a second time (`RedrawCreditsTwice`: with
  the participants in the model's fixed order, the same pick credits the same
  user twice).
- **Oracle index.** The index is used as Python indexes a list. An index in
  [-n, -1] wraps around to the end. Any other out-of-range index raises, and
  the draw is rolled back (`PyIndex`). This follows the code, which does not
  check the index at all.
- **Duplicate joins.** No storage constraint stops a second participant for
  the same (raffle, user). Only the check in `join_raffle` does.

## Model

| member | source | states |
|---|---|---|
| Strings.Split | backend/app/config.py:56 | `str.split` on one character gives one piece more than there are separators, and no piece contains the separator |
| Strings.JoinSplit | backend/app/config.py:56 | joining the pieces of a split with the separator gives the original string back |
| Strings.SplitJoin | backend/app/api/auth.py:40-42 | splitting a newline-joined list whose lines have no newline gives the lines back |
| Strings.Strip | backend/app/config.py:56 | `strip()` returns an infix of the input with only whitespace cut from either end, and the result neither starts nor ends with whitespace |
| Strings.StrLeTotal | backend/app/api/auth.py:41 | any two keys are comparable under Python's string order |
| Strings.StrLeTrans | backend/app/api/auth.py:41 | Python's string order is transitive |
| Strings.StrLeAntisym | backend/app/api/auth.py:41 | two strings ordered both ways are equal |
| Config.CorsOriginsList | backend/app/config.py:52-56 | `"*"` yields exactly `["*"]`; otherwise one entry per comma-separated segment (commas + 1), with no comma inside an entry and no surrounding whitespace |
| Config.CorsOriginsListSegments | backend/app/config.py:56 | the entries are, in order, the stripped pieces of a cutting of the setting whose comma-join is the setting itself, so empty segments stay as empty strings |
| RaffleService.DefaultRaffleConfigs | backend/app/config.py:34-46 | the defaults: EXPRESS is 5 players at 1 TON for 1 minute, STANDARD 10 at 2 TON for 2, PREMIUM 30 at 5 TON for 5, with 10% commission; the pools are 4.5, 18 and 135 TON |
| RaffleService.GetRaffleConfig | backend/app/services/raffle_service.py:19-39 | each type's minimum, entry fee and timer are read from that type's settings; `DefaultRaffleConfigs` states the values under the default settings |
| RaffleService.PrizePool | backend/app/services/raffle_service.py:45-47 | entry fee × minimum × (100 − commission) / 100 in whole nanotons; `PrizePoolWithinTakings` bounds it by what the players pay in, and `DefaultRaffleConfigs` gives the default pools |
| RaffleService.PrizePoolWithinTakings | backend/app/services/raffle_service.py:45-47 | for a commission between 0% and 100%, the prize pool lies between 0 and entry fee × minimum players |
| RaffleService.CreateRaffle | backend/app/services/raffle_service.py:41-61 | appends exactly one ACTIVE raffle under the next id, with its type's minimum, fee, prize pool and commission; nothing else changes |
| RaffleService.JoinCheck | backend/app/services/raffle_service.py:86-121 | an accepted join names an existing open raffle and user, a pair that has not joined, an unrecorded hash, and a transfer the verifier accepted for the raffle's entry fee from the user's linked wallet |
| RaffleService.JoinCheckOrder | backend/app/services/raffle_service.py:86-109 | rejections come in source order: unknown raffle, not ACTIVE or WAITING, already joined, hash already used, unknown user; a join is admitted iff every check passes and the verified transfer names both wallets |
| RaffleService.JoinRaffle | backend/app/services/raffle_service.py:64-141 | a rejected join writes nothing; an accepted one adds exactly one ENTRY transaction under the hash and one participant, adds 1 participation and the entry fee to the user, then applies the threshold rule; nothing else changes |
| RaffleService.Admit | backend/app/services/raffle_service.py:111-138 | the write set of an accepted join, keeping every table invariant (unique hashes, autoincrement ids, participant hashes recorded in the ledger) |
| RaffleService.CheckRaffleReady | backend/app/services/raffle_service.py:144-162 | a no-op unless ACTIVE; an ACTIVE raffle whose count reached the minimum becomes WAITING with a deadline of now + its type's timer |
| RaffleService.DeadlineSetOnce | backend/app/services/raffle_service.py:146-155 | once WAITING, a further threshold check never moves the deadline |
| RaffleService.WaitingAcceptsJoins | backend/app/services/raffle_service.py:90 | a WAITING raffle passes the status check, and a join keeps it WAITING with the same deadline |
| RaffleService.ThresholdSeesLoadedCount | backend/app/services/raffle_service.py:137-155 | for every ACTIVE raffle and timer, a join appends the participant and turns the raffle WAITING iff the collection loaded before the insert already held the minimum, so the (minimum + 1)-th join fires; then the deadline is now + timer × 60, and an earlier join changes nothing else |
| RaffleService.PyIndex | backend/app/services/raffle_service.py:186-187 | `participants[i]` succeeds iff -n ≤ i < n, and then names a position below n |
| RaffleService.DrawPrecheck | backend/app/services/raffle_service.py:167-175 | UnknownRaffle iff no raffle has the id; a passing raffle exists, is WAITING, has a deadline, and the deadline has passed |
| RaffleService.DrawRaffle | backend/app/services/raffle_service.py:165-222 | the tables after the draw, and the error it raises, are those of `Draw` on the tables before it; the table invariants are kept |
| RaffleService.SettleDraw | backend/app/services/raffle_service.py:186-222 | once the oracle picked a participant of the DRAWING raffle, the tables after the rest of the draw, and the error it raises, are those of `Settle` |
| RaffleService.SendPrize | backend/app/services/raffle_service.py:225-265 | the tables after the payout are those of `SendPrizeSpec` |
| RaffleService.SendPrizeEffects | backend/app/services/raffle_service.py:231-265 | users are never touched; the payout writes iff the winner has a wallet, the transfer returned a hash and that hash is new; then the participant is marked sent with that hash and one PRIZE transaction for the pool, from the raffle wallet to the winner, is appended; otherwise nothing changes |
| RaffleService.DrawFrame | backend/app/services/raffle_service.py:165-222 | a draw touches only the raffle with its id, appends at most one raffle (ACTIVE, next id), keeps the user count, only appends transactions, and never leaves a raffle DRAWING |
| RaffleService.SettleFrame | backend/app/services/raffle_service.py:186-222 | after the pick, only the drawn raffle changes, keeping its id and never left DRAWING; at most one ACTIVE raffle under the next id is appended; the user count is kept and transactions are only appended |
| RaffleService.DrawCompletes | backend/app/services/raffle_service.py:186-216 | a passing draw succeeds iff the oracle answered, the index is valid, the winner's row exists and the next raffle is created; then the raffle is COMPLETED with that winner, proof, URL and time, only that participant is marked, the winner gets +1 win and +pool, and a fresh raffle of the same type is appended |
| RaffleService.RollbackAfterCompletion | backend/app/services/raffle_service.py:212-222 | when creating the next raffle fails, the raffle ends WAITING with its winner, proof and credited totals kept |
| RaffleService.DrawingIsStuck | backend/app/services/raffle_service.py:171-179 | a DRAWING raffle is refused by the draw and by a join, and the threshold rule leaves it alone |
| RaffleService.RedrawCreditsTwice | backend/app/services/raffle_service.py:199-222 | a rolled-back completion followed by a successful redraw with the same pick credits the winner two wins and twice the pool |
| RaffleService.RedrawReady | backend/app/services/raffle_service.py:212-222 | after a rollback past completion the raffle passes the precheck again with the same participants, pool and winner row, the winner already credited once |
| RaffleService.PayoutDoesNotDecideDraw | backend/app/services/raffle_service.py:211-216 | whether the payout succeeds changes neither the error of the draw nor the raffle's status or winner |
| RaffleService.SettlePayout | backend/app/services/raffle_service.py:211-216 | after the pick, the payout's outcome changes neither the error nor any raffle's status or winner nor the users; a winner without a wallet leaves the ledger as it was |
| RaffleService.SendPrizeKeepsDecision | backend/app/services/raffle_service.py:225-265 | a payout changes no user and no raffle's status or winner |
| Crud.UserIndex | backend/app/database/crud.py:22-26 | `get_by_id`: the found row has the id; none means no row has it |
| Crud.TelegramIndex | backend/app/database/crud.py:16-20 | `get_by_telegram_id`: the found row has the Telegram id; none means no row has it |
| Crud.RaffleIndex | backend/app/database/crud.py:58-66 | `get_by_id` for raffles: the found row has the id; none means no row has it |
| Crud.GetByHash | backend/app/database/crud.py:178-184 | the found transaction is in the ledger with the hash; none means no record has it |
| Crud.FindParticipant | backend/app/database/crud.py:136-146 | within one collection, a found participant has both ids; none means no participant has both |
| Crud.GetByRaffleAndUser | backend/app/database/crud.py:136-146 | a found participant has both ids and belongs to some raffle; none means no participant anywhere has both |
| Crud.OpenOfTypeIndices | backend/app/database/crud.py:68-78 | exactly the positions of the open raffles of the type, increasing |
| Crud.GetActiveByType | backend/app/database/crud.py:68-78 | `scalar_one_or_none`: no row iff no open raffle of the type; one row iff it is the only one; an error when there are two |
| Crud.OpenRaffles | backend/app/database/crud.py:86 | exactly the ACTIVE and WAITING raffles |
| Crud.InsertNewestFirst | backend/app/database/crud.py:87 | inserting into a newest-first list keeps it newest-first and adds exactly that raffle |
| Crud.SortNewestFirst | backend/app/database/crud.py:87 | the result is newest-first and a permutation of the input |
| Crud.GetAllActive | backend/app/database/crud.py:80-89 | `get_all_active`: newest first by creation time, and a permutation of the open raffles |
| Crud.Database.GetOrCreate | backend/app/database/crud.py:41-52 | an existing user gets `last_active` set and, for a non-empty name, the new username; otherwise one user is appended under the next id with zero totals |
| Crud.Database.CreateRaffle | backend/app/database/crud.py:91-112 | appends one ACTIVE raffle under the next id with the given fields and no participants |
| Crud.Database.CreateTransaction | backend/app/database/crud.py:152-176 | a duplicate hash is a unique violation and a missing wallet a not-null violation, and neither writes; otherwise one PENDING record is appended under the next id |
| Crud.Database.CreateParticipant | backend/app/database/crud.py:118-134 | a hash already held by a participant is a unique violation; otherwise one participant is appended to the raffle's collection |
| Crud.AppendParticipantValid | backend/app/database/models.py:104-116 | appending a participant whose hash is recorded in the ledger and unused keeps participant hashes unique and recorded |
| Crud.TxHashesAppend | backend/app/database/models.py:131 | appending a record adds exactly its hash to the set of recorded hashes |
| Ton.FindFirst | backend/app/services/ton_service.py:61-62 | the first record of the page carrying the hash; none means no record carries it |
| Ton.VerifyTransaction | backend/app/services/ton_service.py:49-95 | an accepted hash comes back confirmed, with the hash, from a fetched page that carries it |
| Ton.VerifyAcceptsIff | backend/app/services/ton_service.py:61-89 | a hash is accepted iff the page fetched, the API said ok, and the first record carrying the hash matches the amount within 0.01 TON, pays the raffle wallet and, when the user linked a wallet, comes from it |
| Ton.CheckRecord | backend/app/services/ton_service.py:63-89 | the matched record is accepted iff its value parses, its amount is within 0.01 TON of the fee, it pays the raffle wallet and, when the user linked a wallet, comes from it; an accepted record yields its own source, destination and amount, confirmed; an unparsable value is reported as malformed |
| Ton.FirstMatchUnique | backend/app/services/ton_service.py:61-62 | the first matching record is unique, so later records with the same hash are never looked at |
| Ton.VerifyNotFound | backend/app/services/ton_service.py:91 | a page without the hash gives "Transaction not found" |
| WebSocket.ToJson | backend/app/api/websocket.py:49-71 | each typed message is a three-field object: the type tag, the raffle id, then the kind's own field |
| WebSocket.ToJsonInjective | backend/app/api/websocket.py:49-71 | different messages have different JSON, and the type tag alone tells the three kinds apart |
| WebSocket.RemoveFirst | backend/app/api/websocket.py:20-23 | an absent connection changes nothing; a present one shortens the list by one |
| WebSocket.RemoveFirstAt | backend/app/api/websocket.py:22-23 | exactly the first occurrence is cut out |
| WebSocket.RemoveFirstCount | backend/app/api/websocket.py:22-23 | one copy of the connection leaves the list's contents |
| WebSocket.Keep | backend/app/api/websocket.py:34-47 | the connections a broadcast keeps are no more than the list |
| WebSocket.KeepMembers | backend/app/api/websocket.py:34-47 | a connection is kept iff it was in the list and its send did not fail |
| WebSocket.Failed | backend/app/api/websocket.py:36-43 | the failed and the kept connections together account for the whole list |
| WebSocket.FailedBroken | backend/app/api/websocket.py:39-43 | every collected connection is one whose send failed |
| WebSocket.DropStep | backend/app/api/websocket.py:46-47 | disconnecting the next collected connection advances the removal loop by one step |
| WebSocket.DropAll | backend/app/api/websocket.py:46-47 | once every collected connection is disconnected, exactly the kept ones remain, in order |
| WebSocket.KeepIdempotent | backend/app/api/websocket.py:34-47 | a second broadcast with the same failing clients drops nothing more |
| WebSocket.ConnectionManager.constructor | backend/app/api/websocket.py:11-12 | the registry starts empty |
| WebSocket.ConnectionManager.Connect | backend/app/api/websocket.py:14-18 | the accepted connection goes at the end |
| WebSocket.ConnectionManager.Disconnect | backend/app/api/websocket.py:20-24 | the first occurrence goes, if there is one |
| WebSocket.ConnectionManager.SendPersonalMessage | backend/app/api/websocket.py:26-32 | delivered iff the send works; a failed send disconnects that connection |
| WebSocket.ConnectionManager.Broadcast | backend/app/api/websocket.py:34-47 | the message reaches exactly the clients whose send works, and afterwards the registry holds exactly those, in order |
| WebSocket.ConnectionManager.BroadcastRaffleUpdate | backend/app/api/websocket.py:49-55 | a `raffle_update` with the id and data goes to the working clients |
| WebSocket.ConnectionManager.BroadcastRaffleStarted | backend/app/api/websocket.py:57-63 | a `raffle_started` with the id and deadline goes to the working clients |
| WebSocket.ConnectionManager.BroadcastRaffleCompleted | backend/app/api/websocket.py:65-71 | a `raffle_completed` with the id and winner goes to the working clients |
| Scheduler.CheckRafflesReadyToDraw | backend/app/services/scheduler_service.py:48-76 | a failed query does nothing; otherwise the tables and messages are those of `Tick` over the open raffles newest first, and the registry loses the failing clients once anything was announced |
| Scheduler.RunTick | backend/app/services/scheduler_service.py:55-73 | the loop over the loaded ids leaves the tables and messages of `Tick`, and the registry loses the failing clients once anything was announced |
| Scheduler.Iterate | backend/app/services/scheduler_service.py:55-73 | one pass of the loop extends the messages so far and leaves what `Tick` gives for the ids so far plus this one |
| Scheduler.RunStep | backend/app/services/scheduler_service.py:56-73 | one iteration is `Step`: a raffle that is not due is skipped; a draw that raises is swallowed with its rollback; a successful draw is announced with the winner read after the draw |
| Scheduler.TickSnoc | backend/app/services/scheduler_service.py:55 | the iterations up to one more are the iterations so far followed by that one |
| Scheduler.StepFrame | backend/app/services/scheduler_service.py:56-64 | one iteration touches at most the due raffle with its id, keeps ids autoincrement, and only appends |
| Scheduler.TickFrame | backend/app/services/scheduler_service.py:53-73 | a raffle the query did not return, or one not due when its turn comes (ACTIVE, DRAWING, or WAITING before the deadline), is left exactly as it was |
| Scheduler.TickAnnouncesCompletions | backend/app/services/scheduler_service.py:62-70 | every message a tick sends names a raffle the query returned, which the tick leaves COMPLETED with the winner the message carries |
| InitRaffles.SeedOnlyAppends | backend/app/scripts/init_raffles.py:17-32 | seeding keeps every existing row, and each new row is a fresh ACTIVE raffle under the next id, of a checked type that had no open raffle |
| InitRaffles.SeedKeepsPrefix | backend/app/scripts/init_raffles.py:17-32 | seeding keeps the existing rows as a prefix and adds at most one row per checked type |
| InitRaffles.SeedKeepsOpen | backend/app/scripts/init_raffles.py:17-32 | a type that already has an open raffle keeps one, and no raffle of that type is created |
| InitRaffles.SeedOneKeepsOpen | backend/app/scripts/init_raffles.py:17-20 | one block keeps an open raffle of another type and the existing rows, and appends none of that type |
| InitRaffles.SeedOpensEveryType | backend/app/scripts/init_raffles.py:17-35 | a run that raises nothing leaves an open raffle of every type it checked |
| InitRaffles.InitRaffles | backend/app/scripts/init_raffles.py:12-40 | the table and the type whose lookup raised are those of `SeedFrom` over EXPRESS, STANDARD, PREMIUM; rounds created before a failure stay, since creating a round commits |
| InitRaffles.EnsureOpen | backend/app/scripts/init_raffles.py:17-20 | one block: several open raffles of the type raise and change nothing; none creates one; one leaves the table unchanged |
| Auth.Lookup | backend/app/api/auth.py:34-37 | `'hash' in parsed` and `parsed['hash']`: absent iff no entry has the key, otherwise the entry's value list |
| Auth.Pop | backend/app/api/auth.py:37 | after `pop('hash')` the dict holds exactly the entries of the other keys |
| Auth.PopQueryDict | backend/app/api/auth.py:37 | popping a key leaves a dict: distinct keys, none without a value |
| Auth.Insert | backend/app/api/auth.py:41 | an insertion step of `sorted` adds exactly the entry |
| Auth.SortByKey | backend/app/api/auth.py:41 | `sorted(parsed.items())` is a permutation of the entries |
| Auth.InsertSorted | backend/app/api/auth.py:41 | inserting an entry with a new key keeps the list strictly ordered by key |
| Auth.SortByKeySorted | backend/app/api/auth.py:41 | `sorted(parsed.items())` is strictly ordered by key and holds each entry once |
| Auth.SortedUnique | backend/app/api/auth.py:41 | two key-sorted lists with the same entries are equal |
| Auth.SortByKeyMembers | backend/app/api/auth.py:41 | sorting keeps exactly the entries it was given |
| Auth.DataCheckStringOrderFree | backend/app/api/auth.py:39-42 | the data-check string depends only on the fields, not on the order the parser listed them in |
| Auth.DataCheckStringLines | backend/app/api/auth.py:39-42 | when no key or first value holds a newline, the data-check string splits back into exactly one `k=v[0]` line per field, in strictly increasing key order |
| Auth.LookupByContent | backend/app/api/auth.py:34-37 | dicts with the same entries give every key the same values |
| Auth.LookupPop | backend/app/api/auth.py:37-63 | popping `hash` does not change what `user` looks up |
| Auth.VerifyWebAppDataCases | backend/app/api/auth.py:16-70 | no hash field gives "Hash not found"; a hash other than the hex HMAC-SHA-256 of the data-check string under HMAC("WebAppData", token) gives "Invalid hash"; the data is accepted iff the hash matches and the user field is present and decodes, and then the result is the decoded user; with a matching hash, "User data not found" iff the user field is missing, and the decoder's error iff the field is present but does not decode |
| Auth.VerifyWebAppDataOrderFree | backend/app/api/auth.py:16-70 | the verdict depends only on the fields and their values, not on their order |
| Auth.VerifyWebAppData | backend/app/api/auth.py:16-70 | `verify_telegram_webapp_data` on the parsed init data: hash present, then matching, then a user field that decodes; each outcome as an iff is stated by `VerifyWebAppDataCases`, and its independence from field order by `VerifyWebAppDataOrderFree` |
| Auth.VerifyTelegramAuth | backend/app/api/auth.py:73-107 | a missing or empty header gets 401 "Authentication required" before any check; a failed check gets 401 with its message and writes nothing; a verified user without an id escapes uncaught; otherwise an existing account is returned with `last_active` refreshed and the username replaced only by a non-empty one, every other user unchanged, and a new account gets the next id, the given username and zero totals |

## Left out

- **Floating point.** TON amounts are integer nanotons and the 0.01 TON tolerance is 10^7 nanotons. The prize pool is computed over integers, with integer division by 100, where the source computes it in floats.
- **Clock.** `datetime.utcnow()` is an integer number of seconds passed in, and timer minutes are multiplied by 60.
- Scheduler.CheckRafflesReadyToDraw: one `now` serves the whole tick, where the source reads the clock again for every raffle and inside every draw. A raffle whose deadline passes while the tick runs is therefore not drawn in that tick.
- Scheduler.CheckRafflesReadyToDraw: one `broken` set of failing clients serves every broadcast of the tick. A client that receives one completion message and fails on the next cannot be expressed; the registry after the tick is `Keep` of that one set.
- **I/O and foreign code:**
  - the HTTP calls to the TON API and to Random.org;
  - the APScheduler cadence;
  - FastAPI routing;
  - the bot handlers and the front end.
  - These appear only through the inputs listed above. Random.org's default of index 0 on missing data is part of the oracle input.
- **Concurrency.** Operations run one after another. Races between concurrent joins, a client connecting during a broadcast, and async interleavings are not modelled.
- RaffleService.SendPrize: a duplicate prize hash is modelled as a swallowed failure with no effect. In Python the failed flush poisons the SQLAlchemy session, so later commits in the same draw would fail too.
- RaffleService.DrawRaffle: the rollback's commit is assumed to succeed, and commits never fail.
- RaffleService.DrawRaffle: DRAWING is visible only between the status write and the oracle call inside the method. `Draw` relates only the committed states before and after.
- RaffleService.DrawRaffle: the oracle's answer is a function of the population size alone.
- RaffleService.DrawRaffle: the participant collection is kept in insertion order. The relationship declares no `order_by` (backend/app/database/models.py:94), so which participant an index names depends on the order the database returns; `RedrawCreditsTwice` relies on the model's fixed order.
- Auth.VerifyTelegramAuth: the model assumes the caller supplies a database session. In the source the `db` parameter defaults to `None` with no `Depends(get_db)` (backend/app/api/auth.py:75), so the dependency as declared receives no session. A user object whose `id` is present but not an integer is not modelled, nor is a decoded `user` value that is not a JSON object (for example `user=5`): indexing it with `['id']` raises a TypeError at backend/app/api/auth.py:100, which escapes the `except ValueError` like the KeyError does, and the decoded-user type cannot express such a value. parse_qs is assumed to return a dict in which every key has at least one value, as it does by default.
- WebSocket.ConnectionManager.Connect: a failing `accept()` is not modelled.
- Crud.GetByRaffleAndUser: returns the first match. The `MultipleResultsFound` error cannot arise, because only the sequential join check prevents duplicates and it always runs.
- Crud.GetAllActive: raffles created at the same instant come in one fixed order, where the database may return them in any order.
- **`current_participants`** (backend/app/database/models.py:99-101) is the length of the participant list. It is used directly and has no row of its own.
- **Outside the model:**
  - `get_wallet_balance` and the `send_prize` placeholder's hash text in ton_service.py;
  - `check_transaction_statuses` in scheduler_service.py, which is a no-op;
  - the session and engine wiring.
