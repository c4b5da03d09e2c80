/**
 * The persisted records of the raffle system: users, raffles with the
 * participants they own, and ledger transactions, with their enumerations.
 * Times are integer seconds read from the UTC clock; amounts are integer
 * nanotons (1 TON = 10^9 nanotons).
 */
module Models {
  import opened Wrappers

  type Time = int
  type Nanotons = int
  type TxHash = string
  type Wallet = string

  const NanotonsPerTon: int := 1_000_000_000

  datatype RaffleType = Express | Standard | Premium

  datatype RaffleStatus = Active | Waiting | Drawing | Completed | Cancelled

  datatype TransactionType = Entry | Prize

  datatype TransactionStatus = Pending | Confirmed | Failed

  /** A Telegram user with an optional linked payout wallet and cumulative statistics. */
  datatype User = User(
    id: nat,
    telegramId: int,
    username: Option<string>,
    tonWallet: Option<Wallet>,
    createdAt: Time,
    lastActive: Time,
    totalParticipations: int,
    totalWins: int,
    totalSpent: Nanotons,
    totalWon: Nanotons)

  /** A user's entry in one raffle. */
  datatype Participant = Participant(
    id: nat,
    raffleId: nat,
    userId: nat,
    joinedAt: Time,
    transactionHash: Option<TxHash>,
    isWinner: bool,
    prizeSent: bool,
    prizeTxHash: Option<TxHash>)

  /**
   * One drawing round. `participants` is the owned relationship collection
   * (cascade delete), in insertion order.
   */
  datatype Raffle = Raffle(
    id: nat,
    rtype: RaffleType,
    status: RaffleStatus,
    minParticipants: int,
    entryFee: Nanotons,
    prizePool: Nanotons,
    commissionPercent: int,
    createdAt: Time,
    waitingUntil: Option<Time>,
    drawnAt: Option<Time>,
    winnerId: Option<nat>,
    signature: Option<string>,
    verificationUrl: Option<string>,
    participants: seq<Participant>)

  /** A ledger record of a verified transfer; its hash is unique and not null. */
  datatype Transaction = Transaction(
    id: nat,
    userId: nat,
    raffleId: Option<nat>,
    txHash: TxHash,
    fromWallet: Wallet,
    toWallet: Wallet,
    amount: Nanotons,
    ttype: TransactionType,
    status: TransactionStatus,
    createdAt: Time,
    confirmedAt: Option<Time>)

  /** Raffle.current_participants: the size of the participants collection. */
  function CurrentParticipants(r: Raffle): nat
  {
    |r.participants|
  }

  /** The statuses in which a raffle counts as open (ACTIVE or WAITING). */
  predicate IsOpen(s: RaffleStatus)
  {
    s == Active || s == Waiting
  }

  /** Python truthiness of an optional wallet: None and "" are both "no wallet". */
  predicate HasWallet(w: Option<Wallet>)
  {
    w.Some? && w.value != ""
  }
}
