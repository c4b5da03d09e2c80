/**
 * The raffle lifecycle engine: per-type configuration, creating a round,
 * the join protocol with its ordered rejections and single write set, the
 * ACTIVE -> WAITING threshold transition, the draw
 * WAITING -> DRAWING -> COMPLETED with its rollback to WAITING, and the
 * prize payout.
 *
 * The outside world enters as inputs: the clock as `now`, the fetched
 * ledger page as a `Fetch`, and for a draw a `DrawEnv` holding the
 * randomness oracle (a function from the population size to a response),
 * the outcome of the payout call and whether creating the next round fails.
 */
module RaffleService {
  import opened Wrappers
  import opened Models
  import opened Config
  import opened Crud
  import opened Ton

  /** get_raffle_config: the static parameters of one raffle type. */
  datatype RaffleConfig = RaffleConfig(minParticipants: int, entryFee: Nanotons, timerMinutes: int)

  function GetRaffleConfig(cfg: Settings, t: RaffleType): RaffleConfig
  {
    match t
    case Express => RaffleConfig(cfg.expressMinParticipants, cfg.expressEntryFee, cfg.expressTimerMinutes)
    case Standard => RaffleConfig(cfg.standardMinParticipants, cfg.standardEntryFee, cfg.standardTimerMinutes)
    case Premium => RaffleConfig(cfg.premiumMinParticipants, cfg.premiumEntryFee, cfg.premiumTimerMinutes)
  }

  /** entry_fee * min_participants * (1 - commission / 100), in whole nanotons. */
  function PrizePool(c: RaffleConfig, commissionPercent: int): Nanotons
  {
    c.entryFee * c.minParticipants * (100 - commissionPercent) / 100
  }

  /**
   * With the default settings: EXPRESS is 5 players at 1 TON with a 1-minute
   * timer and a 4.5 TON pool, STANDARD 10 at 2 TON, 2 minutes, 18 TON, and
   * PREMIUM 30 at 5 TON, 5 minutes, 135 TON; the commission is 10%.
   */
  lemma DefaultRaffleConfigs(wallet: Wallet, token: string)
    ensures var s := DefaultSettings(wallet, token);
      && s.commissionPercent == 10
      && GetRaffleConfig(s, Express) == RaffleConfig(5, 1_000_000_000, 1)
      && GetRaffleConfig(s, Standard) == RaffleConfig(10, 2_000_000_000, 2)
      && GetRaffleConfig(s, Premium) == RaffleConfig(30, 5_000_000_000, 5)
      && PrizePool(GetRaffleConfig(s, Express), 10) == 4_500_000_000
      && PrizePool(GetRaffleConfig(s, Standard), 10) == 18_000_000_000
      && PrizePool(GetRaffleConfig(s, Premium), 10) == 135_000_000_000
  {
  }

  /** For a commission between 0 and 100 percent the pool is between nothing and everything paid in. */
  lemma PrizePoolWithinTakings(c: RaffleConfig, commissionPercent: int)
    requires c.entryFee >= 0 && c.minParticipants >= 0
    requires 0 <= commissionPercent <= 100
    ensures 0 <= PrizePool(c, commissionPercent) <= c.entryFee * c.minParticipants
  {
    var total := c.entryFee * c.minParticipants;
    assert total >= 0;
    assert 0 <= total * (100 - commissionPercent) <= total * 100;
  }

  /**
   * The round create_raffle inserts: ACTIVE, of the given type, with that
   * type's minimum, fee and prize pool and the configured commission, and
   * no participants, deadline, winner or proof.
   */
  function NewRaffle(cfg: Settings, t: RaffleType, id: nat, now: Time): Raffle
  {
    var c := GetRaffleConfig(cfg, t);
    Raffle(id, t, Active, c.minParticipants, c.entryFee, PrizePool(c, cfg.commissionPercent),
           cfg.commissionPercent, now, None, None, None, None, None, [])
  }

  /** create_raffle: appends the fresh round of the type under the next id. */
  method CreateRaffle(db: Database, cfg: Settings, t: RaffleType, now: Time) returns (r: Raffle)
    requires db.Valid()
    modifies db`raffles
    ensures db.Valid()
    ensures r == NewRaffle(cfg, t, |old(db.raffles)| + 1, now)
    ensures db.raffles == old(db.raffles) + [r]
  {
    var c := GetRaffleConfig(cfg, t);
    var pool := PrizePool(c, cfg.commissionPercent);
    r := db.CreateRaffle(t, c.minParticipants, c.entryFee, pool, cfg.commissionPercent, now);
  }

  // ------------------------------------------------------------------ join

  datatype JoinError =
    | RaffleNotFound
    | NotAcceptingParticipants
    | AlreadyJoined
    | TransactionAlreadyUsed
    | UserNotFound
    | PaymentRejected(cause: VerifyError)
    | StorageRejected(storage: StorageError)

  /** What a join that passed every check writes: where, and the verified transfer. */
  datatype Admission = Admission(raffleIndex: nat, userIndex: nat, details: TxDetails)

  /**
   * The checks of join_raffle, in order: the raffle exists; it is ACTIVE
   * or WAITING; the user has no participant in it; the hash is not in the
   * ledger; the user row exists; the payment verifier accepts the hash for
   * the raffle's entry fee from the user's wallet; the ledger insert has
   * both wallets.
   */
  function JoinCheck(users: seq<User>, raffles: seq<Raffle>, transactions: seq<Transaction>, raffleId: nat,
                     userId: nat, txHash: TxHash, fetch: Fetch, raffleWallet: Wallet): (r: Result<Admission, JoinError>)
    ensures r.Ok? ==> Admissible(users, raffles, transactions, r.value, raffleId, userId, txHash)
    ensures r.Ok? ==> VerifyTransaction(fetch, txHash, raffles[r.value.raffleIndex].entryFee,
                                        users[r.value.userIndex].tonWallet, raffleWallet) == Ok(r.value.details)
  {
    match RaffleIndex(raffles, raffleId)
    case None => Err(RaffleNotFound)
    case Some(ri) =>
      if !IsOpen(raffles[ri].status) then Err(NotAcceptingParticipants)
      else if GetByRaffleAndUser(raffles, raffleId, userId).Some? then Err(AlreadyJoined)
      else if GetByHash(transactions, txHash).Some? then Err(TransactionAlreadyUsed)
      else
        match UserIndex(users, userId)
        case None => Err(UserNotFound)
        case Some(ui) =>
          match VerifyTransaction(fetch, txHash, raffles[ri].entryFee, users[ui].tonWallet, raffleWallet)
          case Err(e) => Err(PaymentRejected(e))
          case Ok(d) =>
            if d.from.None? || d.to.None? then Err(StorageRejected(NotNullViolation))
            else
              assert forall t | t in transactions :: t.txHash != txHash;
              Ok(Admission(ri, ui, d))
  }

  /**
   * The rejections of join_raffle in their order: each error is returned
   * exactly when every check before it passed and its own failed, and a
   * join is admitted exactly when all checks pass.
   */
  lemma JoinCheckOrder(users: seq<User>, raffles: seq<Raffle>, transactions: seq<Transaction>, raffleId: nat,
                       userId: nat, txHash: TxHash, fetch: Fetch, raffleWallet: Wallet)
    ensures var r := JoinCheck(users, raffles, transactions, raffleId, userId, txHash, fetch, raffleWallet);
            var ri := RaffleIndex(raffles, raffleId);
            var passedLookups := ri.Some? && IsOpen(raffles[ri.value].status)
                                 && GetByRaffleAndUser(raffles, raffleId, userId).None?
                                 && txHash !in TxHashes(transactions);
      && (r == Err(RaffleNotFound) <==> ri.None?)
      && (r == Err(NotAcceptingParticipants) <==> ri.Some? && !IsOpen(raffles[ri.value].status))
      && (r == Err(AlreadyJoined) <==>
            ri.Some? && IsOpen(raffles[ri.value].status) && GetByRaffleAndUser(raffles, raffleId, userId).Some?)
      && (r == Err(TransactionAlreadyUsed) <==>
            ri.Some? && IsOpen(raffles[ri.value].status) && GetByRaffleAndUser(raffles, raffleId, userId).None?
            && txHash in TxHashes(transactions))
      && (r == Err(UserNotFound) <==> passedLookups && UserIndex(users, userId).None?)
      && (r.Ok? <==>
            && passedLookups && UserIndex(users, userId).Some?
            && var v := VerifyTransaction(fetch, txHash, raffles[ri.value].entryFee,
                                          users[UserIndex(users, userId).value].tonWallet, raffleWallet);
               v.Ok? && v.value.from.Some? && v.value.to.Some?)
  {
    var h := GetByHash(transactions, txHash);
    if h.Some? {
      assert txHash in TxHashes(transactions);
    }
    if txHash in TxHashes(transactions) {
      var t :| t in transactions && t.txHash == txHash;
      var i :| 0 <= i < |transactions| && transactions[i] == t;
    }
  }

  /**
   * A join that may write: the raffle and user rows exist, the raffle is
   * open, the user has no participant in it, the hash is not in the ledger
   * and the verified transfer names both wallets.
   */
  predicate Admissible(users: seq<User>, raffles: seq<Raffle>, transactions: seq<Transaction>, a: Admission,
                       raffleId: nat, userId: nat, txHash: TxHash)
  {
    && a.raffleIndex < |raffles| && raffles[a.raffleIndex].id == raffleId
    && IsOpen(raffles[a.raffleIndex].status)
    && GetByRaffleAndUser(raffles, raffleId, userId).None?
    && txHash !in TxHashes(transactions)
    && a.userIndex < |users| && users[a.userIndex].id == userId
    && a.details.from.Some? && a.details.to.Some?
  }

  /**
   * The threshold rule of check_raffle_ready on one raffle, given the
   * participant count it sees: only an ACTIVE raffle whose count reached
   * the minimum changes, to WAITING with a deadline timer minutes ahead.
   */
  function AfterReadyCheck(r: Raffle, count: int, timerMinutes: int, now: Time): Raffle
  {
    if r.status == Active && count >= r.minParticipants
    then r.(status := Waiting, waitingUntil := Some(now + timerMinutes * 60))
    else r
  }

  /**
   * The raffle after a successful join: the participant appended, then the
   * threshold rule applied to the count of the collection as it was loaded
   * before the insert.
   */
  function Admitted(r: Raffle, p: Participant, timerMinutes: int, now: Time): Raffle
  {
    AfterReadyCheck(r.(participants := r.participants + [p]), |r.participants|, timerMinutes, now)
  }

  /**
   * join_raffle. A rejected join writes nothing. A successful one adds
   * exactly one ENTRY ledger record under the hash and one participant,
   * adds one participation and the entry fee to the user's totals, and then
   * applies the threshold rule; nothing else changes.
   */
  method JoinRaffle(db: Database, cfg: Settings, raffleId: nat, userId: nat, txHash: TxHash, fetch: Fetch,
                    now: Time) returns (res: Result<Participant, JoinError>)
    requires db.Valid()
    modifies db
    ensures db.Valid()
    ensures var check := JoinCheck(old(db.users), old(db.raffles), old(db.transactions), raffleId, userId, txHash,
                                   fetch, cfg.raffleWalletAddress);
      && (check.Err? ==> res == Err(check.error) && db.users == old(db.users) && db.raffles == old(db.raffles)
                         && db.transactions == old(db.transactions)
                         && db.nextParticipantId == old(db.nextParticipantId))
      && (check.Ok? ==>
            var a := check.value;
            var r := old(db.raffles)[a.raffleIndex];
            var u := old(db.users)[a.userIndex];
            && res == Ok(Participant(old(db.nextParticipantId), raffleId, userId, now, Some(txHash), false, false, None))
            && db.transactions == old(db.transactions) + [Transaction(|old(db.transactions)| + 1, userId, Some(raffleId),
                 txHash, a.details.from.value, a.details.to.value, a.details.amount, Entry, Pending, now, None)]
            && db.raffles == old(db.raffles)[a.raffleIndex := Admitted(r, res.value,
                 GetRaffleConfig(cfg, r.rtype).timerMinutes, now)]
            && db.users == old(db.users)[a.userIndex := u.(totalParticipations := u.totalParticipations + 1,
                                                            totalSpent := u.totalSpent + r.entryFee)]
            && db.nextParticipantId == old(db.nextParticipantId) + 1)
  {
    var check := JoinCheck(db.users, db.raffles, db.transactions, raffleId, userId, txHash, fetch,
                           cfg.raffleWalletAddress);
    if check.Err? {
      return Err(check.error);
    }
    var participant := Admit(db, cfg, check.value, raffleId, userId, txHash, now);
    res := Ok(participant);
  }

  /**
   * The write set of a join that passed its checks, then the threshold
   * check against the count of the collection as loaded before the insert.
   */
  method Admit(db: Database, cfg: Settings, a: Admission, raffleId: nat, userId: nat, txHash: TxHash, now: Time)
    returns (participant: Participant)
    requires db.Valid()
    requires Admissible(db.users, db.raffles, db.transactions, a, raffleId, userId, txHash)
    modifies db
    ensures db.Valid()
    ensures var r := old(db.raffles)[a.raffleIndex];
            var u := old(db.users)[a.userIndex];
      && participant == Participant(old(db.nextParticipantId), raffleId, userId, now, Some(txHash), false, false, None)
      && db.transactions == old(db.transactions) + [Transaction(|old(db.transactions)| + 1, userId, Some(raffleId),
           txHash, a.details.from.value, a.details.to.value, a.details.amount, Entry, Pending, now, None)]
      && db.raffles == old(db.raffles)[a.raffleIndex := Admitted(r, participant,
           GetRaffleConfig(cfg, r.rtype).timerMinutes, now)]
      && db.users == old(db.users)[a.userIndex := u.(totalParticipations := u.totalParticipations + 1,
                                                      totalSpent := u.totalSpent + r.entryFee)]
      && db.nextParticipantId == old(db.nextParticipantId) + 1
  {
    var ri, ui, d := a.raffleIndex, a.userIndex, a.details;
    var raffle := db.raffles[ri];
    var loadedCount := CurrentParticipants(raffle);
    ghost var users0, raffles0, transactions0 := db.users, db.raffles, db.transactions;

    var tx := db.CreateTransaction(userId, Some(raffleId), txHash, d.from, d.to, d.amount, Entry, now);
    assert tx.Ok?;

    NoParticipantHoldsUnrecordedHash(db.raffles, transactions0, txHash);
    FindParticipantNone(db.raffles, raffleId, userId, ri);
    var created := db.CreateParticipant(ri, userId, txHash, now);
    assert created.Ok?;
    participant := created.value;
    assert db.raffles == raffles0[ri := raffle.(participants := raffle.participants + [participant])];

    var user := db.users[ui];
    var user' := user.(totalParticipations := user.totalParticipations + 1,
                       totalSpent := user.totalSpent + raffle.entryFee);
    db.users := db.users[ui := user'];
    assert UsersValid(db.users) by {
      assert forall i :: 0 <= i < |db.users| ==>
        db.users[i].id == users0[i].id && db.users[i].telegramId == users0[i].telegramId;
    }

    CheckRaffleReady(db, cfg, ri, loadedCount, now);
  }

  /** A hash missing from the ledger is held by no participant, since every participant hash is recorded. */
  lemma NoParticipantHoldsUnrecordedHash(raffles: seq<Raffle>, transactions: seq<Transaction>, h: TxHash)
    requires RafflesValid(raffles, transactions)
    requires h !in TxHashes(transactions)
    ensures !HashHeld(raffles, h)
  {
    forall i, k | 0 <= i < |raffles| && 0 <= k < |raffles[i].participants|
      ensures raffles[i].participants[k].transactionHash != Some(h)
    {
      assert CollectionValid(raffles[i], transactions);
    }
  }

  /** No participant anywhere for (raffle, user) means none in that raffle's own collection. */
  lemma FindParticipantNone(raffles: seq<Raffle>, raffleId: nat, userId: nat, ri: nat)
    requires ri < |raffles|
    requires GetByRaffleAndUser(raffles, raffleId, userId).None?
    ensures FindParticipant(raffles[ri].participants, raffleId, userId).None?
  {
    var ps := raffles[ri].participants;
    assert forall k :: 0 <= k < |ps| ==> !(ps[k].raffleId == raffleId && ps[k].userId == userId);
  }

  /** Replacing one raffle by one with the same id and the same participant keys keeps the table valid. */
  lemma ReplaceRaffleValid(raffles: seq<Raffle>, transactions: seq<Transaction>, ri: nat, r': Raffle)
    requires RafflesValid(raffles, transactions)
    requires ri < |raffles| && r'.id == raffles[ri].id
    requires |r'.participants| == |raffles[ri].participants|
    requires forall k :: 0 <= k < |r'.participants| ==> SameKeys(r'.participants[k], raffles[ri].participants[k])
    ensures RafflesValid(raffles[ri := r'], transactions)
  {
    var rs := raffles[ri := r'];
    forall i, k, j, l |
      && 0 <= i < |rs| && 0 <= k < |rs[i].participants|
      && 0 <= j < |rs| && 0 <= l < |rs[j].participants|
      && rs[i].participants[k].transactionHash.Some?
      && rs[i].participants[k].transactionHash == rs[j].participants[l].transactionHash
      ensures i == j && k == l
    {
      assert rs[i].participants[k].transactionHash == raffles[i].participants[k].transactionHash;
      assert rs[j].participants[l].transactionHash == raffles[j].participants[l].transactionHash;
    }
  }

  /** The columns the storage constraints are about. */
  predicate SameKeys(p: Participant, q: Participant)
  {
    p.raffleId == q.raffleId && p.userId == q.userId && p.transactionHash == q.transactionHash
  }

  // ------------------------------------------------------------- threshold

  /**
   * check_raffle_ready on the raffle at raffleIndex with the participant
   * count it sees: a no-op unless the raffle is ACTIVE; it becomes WAITING
   * with waiting_until = now + the type's timer exactly when the count
   * reached min_participants. A WAITING raffle keeps its deadline.
   */
  method CheckRaffleReady(db: Database, cfg: Settings, raffleIndex: nat, count: int, now: Time)
    requires db.Valid()
    requires raffleIndex < |db.raffles|
    modifies db`raffles
    ensures db.Valid()
    ensures var r := old(db.raffles)[raffleIndex];
      db.raffles == old(db.raffles)[raffleIndex := AfterReadyCheck(r, count, GetRaffleConfig(cfg, r.rtype).timerMinutes, now)]
    ensures old(db.raffles)[raffleIndex].status != Active ==> db.raffles == old(db.raffles)
  {
    var raffle := db.raffles[raffleIndex];
    if raffle.status != Active {
      assert db.raffles[raffleIndex := raffle] == db.raffles;
      return;
    }
    if count >= raffle.minParticipants {
      var c := GetRaffleConfig(cfg, raffle.rtype);
      var updated := raffle.(status := Waiting, waitingUntil := Some(now + c.timerMinutes * 60));
      ReplaceRaffleValid(db.raffles, db.transactions, raffleIndex, updated);
      db.raffles := db.raffles[raffleIndex := updated];
    } else {
      assert db.raffles[raffleIndex := raffle] == db.raffles;
    }
  }

  /**
   * The deadline is set once: a raffle the rule has made WAITING is left
   * alone by every later application, whatever count and clock it sees.
   */
  lemma {:induction false} DeadlineSetOnce(r: Raffle, count1: int, count2: int, timer1: int, timer2: int,
                                           now1: Time, now2: Time)
    ensures var r1 := AfterReadyCheck(r, count1, timer1, now1);
      r1.status == Waiting ==> AfterReadyCheck(r1, count2, timer2, now2) == r1
  {
  }

  /**
   * Joins are still accepted while WAITING (overshoot): the status check
   * lets a WAITING raffle through, and a successful join keeps it WAITING
   * with the same deadline.
   */
  lemma WaitingAcceptsJoins(users: seq<User>, raffles: seq<Raffle>, transactions: seq<Transaction>, raffleId: nat,
                            userId: nat, txHash: TxHash, fetch: Fetch, raffleWallet: Wallet, p: Participant,
                            timerMinutes: int, now: Time)
    requires forall i :: 0 <= i < |raffles| ==> raffles[i].id == i + 1
    requires 1 <= raffleId <= |raffles| && raffles[raffleId - 1].status == Waiting
    ensures JoinCheck(users, raffles, transactions, raffleId, userId, txHash, fetch, raffleWallet)
            != Err(NotAcceptingParticipants)
    ensures Admitted(raffles[raffleId - 1], p, timerMinutes, now).status == Waiting
    ensures Admitted(raffles[raffleId - 1], p, timerMinutes, now).waitingUntil == raffles[raffleId - 1].waitingUntil
  {
    var ri := RaffleIndex(raffles, raffleId);
    assert ri == Some(raffleId - 1);
  }

  /**
   * The count the threshold rule sees is the collection as loaded before
   * the insert, so an ACTIVE raffle turns WAITING exactly on the join that
   * finds min_participants already in it, the one that makes the collection
   * one longer than the minimum; that join starts the timer from now. Any
   * earlier join only appends.
   */
  lemma ThresholdSeesLoadedCount(r: Raffle, p: Participant, timerMinutes: int, now: Time)
    requires r.status == Active
    ensures var a := Admitted(r, p, timerMinutes, now);
      && a.participants == r.participants + [p]
      && (a.status == Waiting <==> |r.participants| >= r.minParticipants)
      && (|r.participants| >= r.minParticipants ==> a.waitingUntil == Some(now + timerMinutes * 60))
      && (|r.participants| < r.minParticipants ==> a == r.(participants := r.participants + [p]))
  {
  }

  // ------------------------------------------------------------------ draw

  /** What the randomness oracle answers for a population of n: an index and its proof, or a failure. */
  datatype OracleResponse =
    | Picked(index: int, signature: Option<string>, verificationUrl: Option<string>)
    | OracleFailed

  /** The outcome of the payout call: the hash of the sent transfer, or a failure. */
  datatype Payout = Sent(hash: TxHash) | PayoutFailed

  /**
   * The outside world as one draw sees it: the oracle as a function of the
   * population size, the payout call, and whether inserting the next round
   * fails.
   */
  datatype DrawEnv = DrawEnv(pick: nat -> OracleResponse, payout: Payout, createFails: bool)

  datatype DrawError =
    | UnknownRaffle
    | NotReadyForDrawing
    | NoDeadline         // comparing the clock with a missing waiting_until raises
    | TimerNotExpired
    | OracleError
    | IndexError         // the oracle's index is outside the participant list
    | WinnerNotFound     // the winning participant's user row is missing
    | CreateFailed       // inserting the next round failed

  /** The tables after a draw, and the error it raised, if any. */
  datatype Outcome = Outcome(after: Tables, error: Option<DrawError>)

  /**
   * Python list indexing: an index in [-n, n) selects an element, a
   * negative one counting from the end; any other raises IndexError.
   */
  function PyIndex(i: int, n: nat): (k: Option<nat>)
    ensures k.Some? <==> -(n as int) <= i < n
    ensures k.Some? ==> k.value < n
  {
    if 0 <= i < n then Some(i)
    else if -(n as int) <= i < 0 then Some(i + n)
    else None
  }

  /** The checks draw_raffle makes before touching the raffle, in order; on success, the raffle's index. */
  function DrawPrecheck(raffles: seq<Raffle>, raffleId: nat, now: Time): (r: Result<nat, DrawError>)
    ensures r == Err(UnknownRaffle) <==> forall i :: 0 <= i < |raffles| ==> raffles[i].id != raffleId
    ensures r.Ok? ==> r.value < |raffles| && raffles[r.value].id == raffleId && ReadyToDraw(raffles[r.value], now)
    ensures (forall i :: 0 <= i < |raffles| ==> raffles[i].id == i + 1) ==>
              (r.Ok? <==> 1 <= raffleId <= |raffles| && ReadyToDraw(raffles[raffleId - 1], now))
  {
    match RaffleIndex(raffles, raffleId)
    case None => Err(UnknownRaffle)
    case Some(ri) =>
      var r := raffles[ri];
      if r.status != Waiting then Err(NotReadyForDrawing)
      else if r.waitingUntil.None? then Err(NoDeadline)
      else if now < r.waitingUntil.value then Err(TimerNotExpired)
      else Ok(ri)
  }

  /** WAITING with a deadline that has passed. */
  predicate ReadyToDraw(r: Raffle, now: Time)
  {
    r.status == Waiting && r.waitingUntil.Some? && now >= r.waitingUntil.value
  }

  /**
   * The raffle once the k-th participant has won: winner, proof, draw time
   * and COMPLETED status recorded, and that participant marked the winner.
   */
  function MarkWinner(r: Raffle, k: nat, signature: Option<string>, url: Option<string>, now: Time): Raffle
    requires k < |r.participants|
  {
    r.(winnerId := Some(r.participants[k].userId), signature := signature, verificationUrl := url,
       drawnAt := Some(now), status := Completed,
       participants := r.participants[k := r.participants[k].(isWinner := true)])
  }

  /** The winner's statistics after a win. */
  function Credit(u: User, prize: Nanotons): User
  {
    u.(totalWins := u.totalWins + 1, totalWon := u.totalWon + prize)
  }

  /** The except branch of draw_raffle: the raffle goes back to WAITING and everything else stays. */
  function RollBack(t: Tables, ri: nat): Tables
    requires ri < |t.raffles|
  {
    t.(raffles := t.raffles[ri := t.raffles[ri].(status := Waiting)])
  }

  /**
   * send_prize for the k-th participant of the raffle at ri. The winner is
   * looked up again and must have a wallet; the payout call returns a hash;
   * the participant is marked paid with that hash and one PRIZE ledger
   * record of the prize pool is added, from the raffle wallet to the
   * winner's. Every failure, a hash the ledger already holds included, is
   * swallowed and leaves the tables as they were.
   */
  function SendPrizeSpec(t: Tables, ri: nat, k: nat, payout: Payout, raffleWallet: Wallet, now: Time): Tables
    requires ri < |t.raffles| && k < |t.raffles[ri].participants|
  {
    var r := t.raffles[ri];
    var p := r.participants[k];
    match UserIndex(t.users, p.userId)
    case None => t
    case Some(ui) =>
      var winner := t.users[ui];
      if !HasWallet(winner.tonWallet) then t
      else
        match payout
        case PayoutFailed => t
        case Sent(h) =>
          if h in TxHashes(t.transactions) then t
          else
            var paid := r.(participants := r.participants[k := p.(prizeSent := true, prizeTxHash := Some(h))]);
            t.(raffles := t.raffles[ri := paid],
               transactions := t.transactions + [PrizeRecord(t.transactions, winner, r, h, raffleWallet, now)])
  }

  /** The PRIZE ledger record of a payout. */
  function PrizeRecord(transactions: seq<Transaction>, winner: User, r: Raffle, h: TxHash, raffleWallet: Wallet,
                       now: Time): Transaction
    requires winner.tonWallet.Some?
  {
    Transaction(|transactions| + 1, winner.id, Some(r.id), h, raffleWallet, winner.tonWallet.value, r.prizePool,
                Prize, Pending, now, None)
  }

  /**
   * draw_raffle as a function of the committed tables. A failed precheck
   * changes nothing. An oracle failure or an index outside the list rolls
   * the raffle back to WAITING, where it was. With a winning index the
   * raffle is marked; a missing winner row rolls back to WAITING with the
   * winner fields kept; otherwise the winner is credited, paid when they
   * have a wallet, and the next round of the type is created; when that
   * insert fails the completed raffle is rolled back to WAITING.
   */
  function Draw(t: Tables, cfg: Settings, raffleId: nat, env: DrawEnv, now: Time): Outcome
  {
    match DrawPrecheck(t.raffles, raffleId, now)
    case Err(e) => Outcome(t, Some(e))
    case Ok(ri) =>
      var r := t.raffles[ri];
      var n := |r.participants|;
      match env.pick(n)
      case OracleFailed => Outcome(t, Some(OracleError))
      case Picked(i, signature, url) =>
        match PyIndex(i, n)
        case None => Outcome(t, Some(IndexError))
        case Some(k) => Settle(t, cfg, ri, k, signature, url, env, now)
  }

  /**
   * The rest of draw_raffle once the oracle picked the k-th participant of
   * the raffle at ri: the raffle is marked; a missing winner row rolls back
   * to WAITING; otherwise the winner is credited, paid when they have a
   * wallet, and the next round is created, or rolled back when that fails.
   */
  function Settle(t: Tables, cfg: Settings, ri: nat, k: nat, signature: Option<string>, url: Option<string>,
                  env: DrawEnv, now: Time): Outcome
    requires ri < |t.raffles| && k < |t.raffles[ri].participants|
  {
    var r := t.raffles[ri];
    var marked := t.(raffles := t.raffles[ri := MarkWinner(r, k, signature, url, now)]);
    match UserIndex(t.users, r.participants[k].userId)
    case None => Outcome(RollBack(marked, ri), Some(WinnerNotFound))
    case Some(ui) =>
      var winner := t.users[ui];
      var credited := marked.(users := t.users[ui := Credit(winner, r.prizePool)]);
      var paid := if HasWallet(winner.tonWallet)
                  then SendPrizeSpec(credited, ri, k, env.payout, cfg.raffleWalletAddress, now)
                  else credited;
      if env.createFails then Outcome(RollBack(paid, ri), Some(CreateFailed))
      else Outcome(paid.(raffles := paid.raffles + [NewRaffle(cfg, r.rtype, |paid.raffles| + 1, now)]), None)
  }

  /** Assigns the status of the raffle at ri, as the draw does before and after calling the oracle. */
  method SetStatus(db: Database, ri: nat, status: RaffleStatus)
    requires db.Valid() && ri < |db.raffles|
    modifies db`raffles
    ensures db.Valid()
    ensures db.raffles == old(db.raffles)[ri := old(db.raffles)[ri].(status := status)]
  {
    var updated := db.raffles[ri].(status := status);
    ReplaceRaffleValid(db.raffles, db.transactions, ri, updated);
    db.raffles := db.raffles[ri := updated];
  }

  /** send_prize, on the store: see SendPrizeSpec. */
  method SendPrize(db: Database, cfg: Settings, ri: nat, k: nat, payout: Payout, now: Time)
    requires db.Valid() && ri < |db.raffles| && k < |db.raffles[ri].participants|
    modifies db`raffles, db`transactions
    ensures db.Valid()
    ensures db.Snapshot() == SendPrizeSpec(old(db.Snapshot()), ri, k, payout, cfg.raffleWalletAddress, now)
  {
    var raffle := db.raffles[ri];
    var p := raffle.participants[k];
    var ui := UserIndex(db.users, p.userId);
    if ui.None? {
      return;
    }
    var winner := db.users[ui.value];
    if !HasWallet(winner.tonWallet) {
      return;
    }
    if payout.PayoutFailed? {
      return;
    }
    var h := payout.hash;
    ghost var transactions0 := db.transactions;
    var tx := db.CreateTransaction(winner.id, Some(raffle.id), h, Some(cfg.raffleWalletAddress), winner.tonWallet,
                                   raffle.prizePool, Prize, now);
    if tx.Err? {
      return;
    }
    assert tx.value == PrizeRecord(transactions0, winner, raffle, h, cfg.raffleWalletAddress, now);
    var paid := raffle.(participants := raffle.participants[k := p.(prizeSent := true, prizeTxHash := Some(h))]);
    ReplaceRaffleValid(db.raffles, db.transactions, ri, paid);
    db.raffles := db.raffles[ri := paid];
  }

  /**
   * draw_raffle, on the store: the tables it leaves and the error it
   * raises are those of Draw. The raffle is DRAWING while the oracle is
   * consulted, and every exception of the try block assigns WAITING.
   */
  method DrawRaffle(db: Database, cfg: Settings, raffleId: nat, env: DrawEnv, now: Time)
    returns (error: Option<DrawError>)
    requires db.Valid()
    modifies db`users, db`raffles, db`transactions
    ensures db.Valid()
    ensures Outcome(db.Snapshot(), error) == Draw(old(db.Snapshot()), cfg, raffleId, env, now)
  {
    ghost var t0 := db.Snapshot();
    var pre := DrawPrecheck(db.raffles, raffleId, now);
    if pre.Err? {
      return Some(pre.error);
    }
    var ri := pre.value;
    var raffle := db.raffles[ri];
    SetStatus(db, ri, Drawing);

    var n := |raffle.participants|;
    var response := env.pick(n);
    if response.OracleFailed? {
      SetStatus(db, ri, Waiting);
      assert db.raffles == t0.raffles;
      return Some(OracleError);
    }
    var k := PyIndex(response.index, n);
    if k.None? {
      SetStatus(db, ri, Waiting);
      assert db.raffles == t0.raffles;
      return Some(IndexError);
    }

    error := SettleDraw(db, cfg, ri, k.value, raffle, response.signature, response.verificationUrl, env, now, t0);
  }

  /**
   * The rest of draw_raffle on the store, once the oracle picked the k-th
   * participant of the raffle at ri, which is DRAWING: see Settle.
   */
  method SettleDraw(db: Database, cfg: Settings, ri: nat, k: nat, raffle: Raffle, signature: Option<string>,
                    url: Option<string>, env: DrawEnv, now: Time, ghost t0: Tables)
    returns (error: Option<DrawError>)
    requires db.Valid()
    requires ri < |t0.raffles| && raffle == t0.raffles[ri] && k < |raffle.participants|
    requires db.Snapshot() == t0.(raffles := t0.raffles[ri := raffle.(status := Drawing)])
    modifies db`users, db`raffles, db`transactions
    ensures db.Valid()
    ensures Outcome(db.Snapshot(), error) == Settle(t0, cfg, ri, k, signature, url, env, now)
  {
    var marked := MarkWinner(raffle, k, signature, url, now);
    ReplaceRaffleValid(db.raffles, db.transactions, ri, marked);
    db.raffles := db.raffles[ri := marked];
    assert db.raffles == t0.raffles[ri := marked];

    var ui := UserIndex(db.users, raffle.participants[k].userId);
    if ui.None? {
      SetStatus(db, ri, Waiting);
      return Some(WinnerNotFound);
    }
    var winner := db.users[ui.value];
    ReplaceUserValid(db.users, ui.value, Credit(winner, raffle.prizePool));
    db.users := db.users[ui.value := Credit(winner, raffle.prizePool)];
    ghost var credited := db.Snapshot();
    assert credited == t0.(raffles := t0.raffles[ri := marked],
                           users := t0.users[ui.value := Credit(winner, raffle.prizePool)]);

    if HasWallet(winner.tonWallet) {
      SendPrize(db, cfg, ri, k, env.payout, now);
    }
    assert db.Snapshot() == if HasWallet(winner.tonWallet)
                            then SendPrizeSpec(credited, ri, k, env.payout, cfg.raffleWalletAddress, now)
                            else credited;

    if env.createFails {
      SetStatus(db, ri, Waiting);
      return Some(CreateFailed);
    }
    var next := CreateRaffle(db, cfg, raffle.rtype, now);
    error := None;
  }

  /** Replacing a user by one with the same id and Telegram id keeps the users table valid. */
  lemma ReplaceUserValid(users: seq<User>, ui: nat, u': User)
    requires UsersValid(users) && ui < |users|
    requires u'.id == users[ui].id && u'.telegramId == users[ui].telegramId
    ensures UsersValid(users[ui := u'])
  {
    var us := users[ui := u'];
    assert forall i :: 0 <= i < |us| ==> us[i].id == users[i].id && us[i].telegramId == users[i].telegramId;
  }

  // ------------------------------------------------------------ draw lemmas

  /**
   * What send_prize can do: at most the winning participant's paid flag and
   * prize hash change, and at most one PRIZE record of the prize pool,
   * under that hash, from the raffle wallet to the winner's wallet, is
   * appended; it pays exactly when the winner row has a wallet, the payout
   * returned a hash and the ledger does not hold that hash yet.
   */
  lemma SendPrizeEffects(t: Tables, ri: nat, k: nat, payout: Payout, raffleWallet: Wallet, now: Time)
    requires ri < |t.raffles| && k < |t.raffles[ri].participants|
    ensures var t' := SendPrizeSpec(t, ri, k, payout, raffleWallet, now);
            var r := t.raffles[ri];
            var p := r.participants[k];
            var ui := UserIndex(t.users, p.userId);
            var pays := ui.Some? && HasWallet(t.users[ui.value].tonWallet) && payout.Sent?
                        && payout.hash !in TxHashes(t.transactions);
      && t'.users == t.users
      && |t'.raffles| == |t.raffles|
      && (forall j :: 0 <= j < |t.raffles| && j != ri ==> t'.raffles[j] == t.raffles[j])
      && (!pays ==> t' == t)
      && (pays ==>
            && t'.raffles[ri] == r.(participants := r.participants[k := p.(prizeSent := true,
                                                                            prizeTxHash := Some(payout.hash))])
            && |t'.transactions| == |t.transactions| + 1
            && t'.transactions[..|t.transactions|] == t.transactions
            && var tx := t'.transactions[|t.transactions|];
               && tx.txHash == payout.hash && tx.ttype == Prize && tx.amount == r.prizePool
               && tx.userId == p.userId && tx.raffleId == Some(r.id)
               && tx.fromWallet == raffleWallet && Some(tx.toWallet) == t.users[ui.value].tonWallet)
  {
    var r := t.raffles[ri];
    var p := r.participants[k];
    var ui := UserIndex(t.users, p.userId);
    if ui.Some? && HasWallet(t.users[ui.value].tonWallet) && payout.Sent? && payout.hash !in TxHashes(t.transactions) {
      var t' := SendPrizeSpec(t, ri, k, payout, raffleWallet, now);
      assert t'.transactions[..|t.transactions|] == t.transactions;
    }
  }

  /**
   * A draw touches only its own raffle: every other raffle keeps its row,
   * at most one new round is appended, the ledger is only appended to, and
   * no raffle is left DRAWING that was not DRAWING before.
   */
  lemma {:induction false} DrawFrame(t: Tables, cfg: Settings, raffleId: nat, env: DrawEnv, now: Time)
    ensures var o := Draw(t, cfg, raffleId, env, now);
      && |t.raffles| <= |o.after.raffles| <= |t.raffles| + 1
      && (forall j :: 0 <= j < |t.raffles| && t.raffles[j].id != raffleId ==> o.after.raffles[j] == t.raffles[j])
      && (forall j :: |t.raffles| <= j < |o.after.raffles| ==>
            o.after.raffles[j].status == Active && o.after.raffles[j].id == j + 1)
      && (forall j :: 0 <= j < |t.raffles| ==> o.after.raffles[j].id == t.raffles[j].id)
      && (forall j :: 0 <= j < |t.raffles| && o.after.raffles[j].status == Drawing ==> t.raffles[j].status == Drawing)
      && |o.after.users| == |t.users|
      && |t.transactions| <= |o.after.transactions|
      && o.after.transactions[..|t.transactions|] == t.transactions
  {
    var pre := DrawPrecheck(t.raffles, raffleId, now);
    if pre.Ok? {
      var r := t.raffles[pre.value];
      var resp := env.pick(|r.participants|);
      if resp.Picked? && PyIndex(resp.index, |r.participants|).Some? {
        SettleFrame(t, cfg, pre.value, PyIndex(resp.index, |r.participants|).value, resp.signature,
                    resp.verificationUrl, env, now);
      }
    }
  }

  /** The frame of Settle: see DrawFrame. */
  lemma SettleFrame(t: Tables, cfg: Settings, ri: nat, k: nat, signature: Option<string>, url: Option<string>,
                    env: DrawEnv, now: Time)
    requires ri < |t.raffles| && k < |t.raffles[ri].participants|
    ensures var o := Settle(t, cfg, ri, k, signature, url, env, now);
      && |t.raffles| <= |o.after.raffles| <= |t.raffles| + 1
      && (forall j :: 0 <= j < |t.raffles| && j != ri ==> o.after.raffles[j] == t.raffles[j])
      && (forall j :: |t.raffles| <= j < |o.after.raffles| ==>
            o.after.raffles[j].status == Active && o.after.raffles[j].id == j + 1)
      && o.after.raffles[ri].id == t.raffles[ri].id
      && o.after.raffles[ri].status != Drawing
      && |o.after.users| == |t.users|
      && |t.transactions| <= |o.after.transactions|
      && o.after.transactions[..|t.transactions|] == t.transactions
  {
    var r := t.raffles[ri];
    var marked := t.(raffles := t.raffles[ri := MarkWinner(r, k, signature, url, now)]);
    var ui := UserIndex(t.users, r.participants[k].userId);
    if ui.Some? {
      var winner := t.users[ui.value];
      var credited := marked.(users := t.users[ui.value := Credit(winner, r.prizePool)]);
      SendPrizeEffects(credited, ri, k, env.payout, cfg.raffleWalletAddress, now);
    }
  }

  /**
   * A draw that passed its precheck completes exactly when the oracle
   * answers with an index inside the participant list, the winner's user
   * row exists and the next round can be inserted. Then the raffle is
   * COMPLETED with that participant's user as winner, the oracle's proof
   * and the draw time, only that participant is marked the winner (and
   * perhaps paid), the winner is credited one win and the prize pool, and
   * a fresh ACTIVE round of the same type is appended.
   */
  lemma {:induction false} DrawCompletes(t: Tables, cfg: Settings, raffleId: nat, env: DrawEnv, now: Time)
    requires DrawPrecheck(t.raffles, raffleId, now).Ok?
    ensures var ri := DrawPrecheck(t.raffles, raffleId, now).value;
            var r := t.raffles[ri];
            var resp := env.pick(|r.participants|);
      Draw(t, cfg, raffleId, env, now).error.None? <==>
        && resp.Picked? && PyIndex(resp.index, |r.participants|).Some?
        && UserIndex(t.users, r.participants[PyIndex(resp.index, |r.participants|).value].userId).Some?
        && !env.createFails
    ensures var ri := DrawPrecheck(t.raffles, raffleId, now).value;
            var r := t.raffles[ri];
            var resp := env.pick(|r.participants|);
            var o := Draw(t, cfg, raffleId, env, now);
      o.error.None? ==>
        var k := PyIndex(resp.index, |r.participants|).value;
        var ui := UserIndex(t.users, r.participants[k].userId).value;
        var done := o.after.raffles[ri];
        && done.status == Completed
        && done.winnerId == Some(r.participants[k].userId)
        && done.signature == resp.signature && done.verificationUrl == resp.verificationUrl
        && done.drawnAt == Some(now)
        && |done.participants| == |r.participants|
        && done.participants[k].isWinner
        && (forall l :: 0 <= l < |r.participants| && l != k ==> done.participants[l] == r.participants[l])
        && o.after.users == t.users[ui := Credit(t.users[ui], r.prizePool)]
        && |o.after.raffles| == |t.raffles| + 1
        && o.after.raffles[|t.raffles|] == NewRaffle(cfg, r.rtype, |t.raffles| + 1, now)
  {
    var ri := DrawPrecheck(t.raffles, raffleId, now).value;
    var r := t.raffles[ri];
    var n := |r.participants|;
    var resp := env.pick(n);
    if resp.OracleFailed? || PyIndex(resp.index, n).None? {
      return;
    }
    var k := PyIndex(resp.index, n).value;
    var marked := t.(raffles := t.raffles[ri := MarkWinner(r, k, resp.signature, resp.verificationUrl, now)]);
    var ui := UserIndex(t.users, r.participants[k].userId);
    if ui.None? {
      return;
    }
    var winner := t.users[ui.value];
    var credited := marked.(users := t.users[ui.value := Credit(winner, r.prizePool)]);
    SendPrizeEffects(credited, ri, k, env.payout, cfg.raffleWalletAddress, now);
  }

  /**
   * Rollback after completion, as written: when inserting the next round
   * fails, the raffle that was already marked COMPLETED goes back to
   * WAITING with its winner, proof and draw time still set and the win
   * still credited, no next round exists, and since its deadline has passed
   * it is ready to be drawn again.
   */
  lemma {:induction false} RollbackAfterCompletion(t: Tables, cfg: Settings, raffleId: nat, env: DrawEnv, now: Time)
    requires DrawPrecheck(t.raffles, raffleId, now).Ok?
    requires var r := t.raffles[DrawPrecheck(t.raffles, raffleId, now).value];
             var resp := env.pick(|r.participants|);
      && resp.Picked? && PyIndex(resp.index, |r.participants|).Some?
      && UserIndex(t.users, r.participants[PyIndex(resp.index, |r.participants|).value].userId).Some?
    requires env.createFails
    ensures var ri := DrawPrecheck(t.raffles, raffleId, now).value;
            var r := t.raffles[ri];
            var k := PyIndex(env.pick(|r.participants|).index, |r.participants|).value;
            var ui := UserIndex(t.users, r.participants[k].userId).value;
            var o := Draw(t, cfg, raffleId, env, now);
      && o.error == Some(CreateFailed)
      && o.after.raffles[ri].status == Waiting
      && o.after.raffles[ri].winnerId == Some(r.participants[k].userId)
      && o.after.raffles[ri].drawnAt == Some(now)
      && o.after.raffles[ri].prizePool == r.prizePool
      && |o.after.raffles[ri].participants| == |r.participants|
      && o.after.raffles[ri].participants[k].isWinner
      && o.after.raffles[ri].participants[k].userId == r.participants[k].userId
      && o.after.users == t.users[ui := Credit(t.users[ui], r.prizePool)]
      && |o.after.raffles| == |t.raffles|
      && ReadyToDraw(o.after.raffles[ri], now)
  {
    var ri := DrawPrecheck(t.raffles, raffleId, now).value;
    var r := t.raffles[ri];
    var resp := env.pick(|r.participants|);
    var k := PyIndex(resp.index, |r.participants|).value;
    var marked := t.(raffles := t.raffles[ri := MarkWinner(r, k, resp.signature, resp.verificationUrl, now)]);
    var ui := UserIndex(t.users, r.participants[k].userId).value;
    var credited := marked.(users := t.users[ui := Credit(t.users[ui], r.prizePool)]);
    SendPrizeEffects(credited, ri, k, env.payout, cfg.raffleWalletAddress, now);
  }

  /**
   * A DRAWING raffle is stuck: the draw refuses it, the join refuses it and
   * the threshold rule leaves it alone, so no operation moves it.
   */
  lemma DrawingIsStuck(t: Tables, cfg: Settings, ri: nat, env: DrawEnv, now: Time, userId: nat, txHash: TxHash,
                       fetch: Fetch, count: int, timerMinutes: int)
    requires forall i :: 0 <= i < |t.raffles| ==> t.raffles[i].id == i + 1
    requires ri < |t.raffles| && t.raffles[ri].status == Drawing
    ensures Draw(t, cfg, ri + 1, env, now) == Outcome(t, Some(NotReadyForDrawing))
    ensures JoinCheck(t.users, t.raffles, t.transactions, ri + 1, userId, txHash, fetch, cfg.raffleWalletAddress)
            == Err(NotAcceptingParticipants)
    ensures AfterReadyCheck(t.raffles[ri], count, timerMinutes, now) == t.raffles[ri]
  {
    assert RaffleIndex(t.raffles, ri + 1) == Some(ri);
  }

  /**
   * The consequence of the rollback after completion: the next draw of the
   * same raffle runs again, and when the oracle returns the same index the
   * prize pool is credited a second time for one round. The participants
   * keep their order here between the two draws, so the same index names
   * the same user, who gets a second win and a second pool.
   */
  lemma {:induction false} RedrawCreditsTwice(t: Tables, cfg: Settings, raffleId: nat, env1: DrawEnv, env2: DrawEnv,
                                               now: Time)
    requires forall i :: 0 <= i < |t.raffles| ==> t.raffles[i].id == i + 1
    requires forall i :: 0 <= i < |t.users| ==> t.users[i].id == i + 1
    requires DrawPrecheck(t.raffles, raffleId, now).Ok?
    requires var r := t.raffles[DrawPrecheck(t.raffles, raffleId, now).value];
             var resp := env1.pick(|r.participants|);
      && resp.Picked? && PyIndex(resp.index, |r.participants|).Some?
      && UserIndex(t.users, r.participants[PyIndex(resp.index, |r.participants|).value].userId).Some?
    requires env1.createFails && !env2.createFails
    requires var r := t.raffles[DrawPrecheck(t.raffles, raffleId, now).value];
      env2.pick(|r.participants|) == env1.pick(|r.participants|)
    ensures var r := t.raffles[DrawPrecheck(t.raffles, raffleId, now).value];
            var k := PyIndex(env1.pick(|r.participants|).index, |r.participants|).value;
            var ui := UserIndex(t.users, r.participants[k].userId).value;
            var first := Draw(t, cfg, raffleId, env1, now);
            var second := Draw(first.after, cfg, raffleId, env2, now);
      && first.error == Some(CreateFailed)
      && second.error.None?
      && ui < |second.after.users|
      && second.after.users[ui].totalWins == t.users[ui].totalWins + 2
      && second.after.users[ui].totalWon == t.users[ui].totalWon + 2 * r.prizePool
  {
    var ri := DrawPrecheck(t.raffles, raffleId, now).value;
    var r := t.raffles[ri];
    var n := |r.participants|;
    var k := PyIndex(env1.pick(n).index, n).value;
    var ui := UserIndex(t.users, r.participants[k].userId).value;
    RedrawReady(t, cfg, raffleId, env1, now);
    var t1 := Draw(t, cfg, raffleId, env1, now).after;
    var second := Draw(t1, cfg, raffleId, env2, now);
    assert second.error.None? && second.after.users == t1.users[ui := Credit(t1.users[ui], r.prizePool)] by {
      DrawCompletes(t1, cfg, raffleId, env2, now);
    }
  }

  /**
   * After a rollback past completion the raffle passes the precheck again,
   * with the same participants under the same positions, the same prize
   * pool and the winner's row at the same place, credited once.
   */
  lemma RedrawReady(t: Tables, cfg: Settings, raffleId: nat, env: DrawEnv, now: Time)
    requires forall i :: 0 <= i < |t.raffles| ==> t.raffles[i].id == i + 1
    requires forall i :: 0 <= i < |t.users| ==> t.users[i].id == i + 1
    requires DrawPrecheck(t.raffles, raffleId, now).Ok?
    requires var r := t.raffles[DrawPrecheck(t.raffles, raffleId, now).value];
             var resp := env.pick(|r.participants|);
      && resp.Picked? && PyIndex(resp.index, |r.participants|).Some?
      && UserIndex(t.users, r.participants[PyIndex(resp.index, |r.participants|).value].userId).Some?
    requires env.createFails
    ensures var ri := DrawPrecheck(t.raffles, raffleId, now).value;
            var r := t.raffles[ri];
            var k := PyIndex(env.pick(|r.participants|).index, |r.participants|).value;
            var ui := UserIndex(t.users, r.participants[k].userId).value;
            var first := Draw(t, cfg, raffleId, env, now);
            var t1 := first.after;
      && first.error == Some(CreateFailed)
      && DrawPrecheck(t1.raffles, raffleId, now) == Ok(ri)
      && |t1.raffles[ri].participants| == |r.participants|
      && t1.raffles[ri].participants[k].userId == r.participants[k].userId
      && t1.raffles[ri].prizePool == r.prizePool
      && UserIndex(t1.users, r.participants[k].userId) == Some(ui)
      && t1.users[ui] == Credit(t.users[ui], r.prizePool)
  {
    var ri := DrawPrecheck(t.raffles, raffleId, now).value;
    var r := t.raffles[ri];
    var n := |r.participants|;
    var k := PyIndex(env.pick(n).index, n).value;
    var ui := UserIndex(t.users, r.participants[k].userId).value;
    var t1 := Draw(t, cfg, raffleId, env, now).after;
    var r1 := t1.raffles[ri];
    assert Draw(t, cfg, raffleId, env, now).error == Some(CreateFailed)
           && |t1.raffles| == |t.raffles| && ReadyToDraw(r1, now)
           && r1.prizePool == r.prizePool && |r1.participants| == n
           && r1.participants[k].userId == r.participants[k].userId
           && t1.users == t.users[ui := Credit(t.users[ui], r.prizePool)] by {
      RollbackAfterCompletion(t, cfg, raffleId, env, now);
    }
    assert forall i :: 0 <= i < |t1.raffles| ==> t1.raffles[i].id == i + 1 by {
      DrawFrame(t, cfg, raffleId, env, now);
    }
    forall i | 0 <= i < |t1.users| ensures t1.users[i].id == i + 1 {
      assert t1.users[i].id == t.users[i].id;
    }
    assert ri == raffleId - 1;
    var pre1 := DrawPrecheck(t1.raffles, raffleId, now);
    assert pre1.Ok? && t1.raffles[pre1.value].id == raffleId;
    assert t1.users[ui].id == r.participants[k].userId;
    var u1 := UserIndex(t1.users, r.participants[k].userId);
    assert u1.Some? && t1.users[u1.value].id == u1.value + 1;
  }



  /**
   * The payout never decides the draw: whatever the payout call does, the
   * draw raises the same error, leaves every raffle with the same status
   * and winner, and credits the same users. A winner without a wallet is
   * never paid: the ledger is left as it was.
   */
  lemma {:induction false} PayoutDoesNotDecideDraw(t: Tables, cfg: Settings, raffleId: nat, env: DrawEnv,
                                                    payout: Payout, now: Time)
    ensures var o1 := Draw(t, cfg, raffleId, env, now);
            var o2 := Draw(t, cfg, raffleId, env.(payout := payout), now);
      && o1.error == o2.error
      && o1.after.users == o2.after.users
      && |o1.after.raffles| == |o2.after.raffles|
      && (forall j :: 0 <= j < |o1.after.raffles| ==>
            o1.after.raffles[j].status == o2.after.raffles[j].status
            && o1.after.raffles[j].winnerId == o2.after.raffles[j].winnerId)
    ensures var o := Draw(t, cfg, raffleId, env, now);
      DrawPrecheck(t.raffles, raffleId, now).Ok? ==>
        var r := t.raffles[DrawPrecheck(t.raffles, raffleId, now).value];
        var resp := env.pick(|r.participants|);
        resp.Picked? && PyIndex(resp.index, |r.participants|).Some? ==>
          var ui := UserIndex(t.users, r.participants[PyIndex(resp.index, |r.participants|).value].userId);
          ui.Some? && !HasWallet(t.users[ui.value].tonWallet) ==> o.after.transactions == t.transactions
  {
    var pre := DrawPrecheck(t.raffles, raffleId, now);
    if pre.Ok? {
      var r := t.raffles[pre.value];
      var resp := env.pick(|r.participants|);
      if resp.Picked? && PyIndex(resp.index, |r.participants|).Some? {
        SettlePayout(t, cfg, pre.value, PyIndex(resp.index, |r.participants|).value, resp.signature,
                     resp.verificationUrl, env, payout, now);
      }
    }
  }

  /** PayoutDoesNotDecideDraw for the part of the draw after the pick. */
  lemma SettlePayout(t: Tables, cfg: Settings, ri: nat, k: nat, signature: Option<string>, url: Option<string>,
                     env: DrawEnv, payout: Payout, now: Time)
    requires ri < |t.raffles| && k < |t.raffles[ri].participants|
    ensures var o1 := Settle(t, cfg, ri, k, signature, url, env, now);
            var o2 := Settle(t, cfg, ri, k, signature, url, env.(payout := payout), now);
      && o1.error == o2.error
      && o1.after.users == o2.after.users
      && |o1.after.raffles| == |o2.after.raffles|
      && (forall j :: 0 <= j < |o1.after.raffles| ==>
            o1.after.raffles[j].status == o2.after.raffles[j].status
            && o1.after.raffles[j].winnerId == o2.after.raffles[j].winnerId)
    ensures var ui := UserIndex(t.users, t.raffles[ri].participants[k].userId);
      ui.Some? && !HasWallet(t.users[ui.value].tonWallet) ==>
        Settle(t, cfg, ri, k, signature, url, env, now).after.transactions == t.transactions
  {
    var r := t.raffles[ri];
    var marked := t.(raffles := t.raffles[ri := MarkWinner(r, k, signature, url, now)]);
    var ui := UserIndex(t.users, r.participants[k].userId);
    if ui.Some? {
      var winner := t.users[ui.value];
      var credited := marked.(users := t.users[ui.value := Credit(winner, r.prizePool)]);
      SendPrizeKeepsDecision(credited, ri, k, env.payout, cfg.raffleWalletAddress, now);
      SendPrizeKeepsDecision(credited, ri, k, payout, cfg.raffleWalletAddress, now);
    }
  }

  /** send_prize changes no user, no raffle count, and no raffle's status or winner. */
  lemma SendPrizeKeepsDecision(t: Tables, ri: nat, k: nat, payout: Payout, raffleWallet: Wallet, now: Time)
    requires ri < |t.raffles| && k < |t.raffles[ri].participants|
    ensures var t' := SendPrizeSpec(t, ri, k, payout, raffleWallet, now);
      && t'.users == t.users
      && |t'.raffles| == |t.raffles|
      && forall j :: 0 <= j < |t.raffles| ==>
           t'.raffles[j].status == t.raffles[j].status && t'.raffles[j].winnerId == t.raffles[j].winnerId
  {
  }

}
