/**
 * The payment verifier: the search through the raffle wallet's recent
 * transactions for the one a joining user names, and the checks on it.
 * The HTTP fetch itself is an input (`Fetch`); the payout call is an input of
 * the draw (see RaffleService.DrawEnv).
 */
module Ton {
  import opened Wrappers
  import opened Models

  /** 0.01 TON, the tolerance of the amount check. */
  const AmountTolerance: Nanotons := 10_000_000

  /** The in_msg value field: absent (read as 0), a decimal count of nanotons, or text int() rejects. */
  datatype ValueField = Missing | Nano(n: int) | Unparsable

  /** One entry of the fetched list: transaction_id.hash and the in_msg fields. */
  datatype LedgerTx = LedgerTx(
    hash: Option<TxHash>,
    value: ValueField,
    source: Option<Wallet>,
    destination: Option<Wallet>)

  /** What the getTransactions request produced. */
  datatype Fetch = Fetched(records: seq<LedgerTx>) | HttpFailure | ApiNotOk

  datatype FailureReason =
    | FetchFailed
    | ApiError
    | MalformedValue
    | AmountMismatch
    | WrongDestination
    | SenderMismatch
    | NotFound

  /** Every failure surfaces as one error, "Transaction verification failed: <reason>". */
  datatype VerifyError = VerificationFailed(reason: FailureReason)

  /** The details returned for a verified transfer. */
  datatype TxDetails = TxDetails(
    hash: TxHash,
    from: Option<Wallet>,
    to: Option<Wallet>,
    amount: Nanotons,
    confirmed: bool)

  function Abs(x: int): nat
  {
    if x < 0 then -x else x
  }

  /** Index of the first record whose hash is h, if any. */
  function FindFirst(records: seq<LedgerTx>, h: TxHash): (k: Option<nat>)
    ensures k.Some? ==> IsFirstMatch(records, h, k.value)
    ensures k.None? ==> forall j :: 0 <= j < |records| ==> records[j].hash != Some(h)
  {
    if records == [] then None
    else if records[0].hash == Some(h) then Some(0)
    else
      match FindFirst(records[1..], h)
      case None => None
      case Some(k) => Some(k + 1)
  }

  predicate IsFirstMatch(records: seq<LedgerTx>, h: TxHash, k: nat)
  {
    && k < |records|
    && records[k].hash == Some(h)
    && forall j :: 0 <= j < k ==> records[j].hash != Some(h)
  }

  /** The checks on the matched record, in the order the verifier makes them. */
  function CheckRecord(rec: LedgerTx, h: TxHash, expectedAmount: Nanotons, sender: Option<Wallet>,
                       raffleWallet: Wallet): (r: Result<TxDetails, VerifyError>)
    ensures r.Ok? <==> Passes(rec, expectedAmount, sender, raffleWallet)
    ensures r.Ok? ==> r.value == TxDetails(h, rec.source, rec.destination, AmountOf(rec), true)
    ensures rec.value.Unparsable? ==> r == Err(VerificationFailed(MalformedValue))
  {
    if rec.value.Unparsable? then Err(VerificationFailed(MalformedValue))
    else
      var amount := if rec.value.Nano? then rec.value.n else 0;
      if Abs(amount - expectedAmount) > AmountTolerance then Err(VerificationFailed(AmountMismatch))
      else if rec.destination != Some(raffleWallet) then Err(VerificationFailed(WrongDestination))
      else if HasWallet(sender) && rec.source != sender then Err(VerificationFailed(SenderMismatch))
      else Ok(TxDetails(h, rec.source, rec.destination, amount, true))
  }

  /**
   * verify_transaction over the fetched list: only the first record with
   * the hash is examined; a success carries that record's source,
   * destination and amount and is within the tolerance, addressed to the
   * raffle wallet and, when the user has a wallet, sent from it.
   */
  function VerifyTransaction(fetch: Fetch, h: TxHash, expectedAmount: Nanotons, sender: Option<Wallet>,
                             raffleWallet: Wallet): (r: Result<TxDetails, VerifyError>)
    ensures r.Ok? ==> && r.value.hash == h && r.value.confirmed
                      && r.value.to == Some(raffleWallet)
                      && Abs(r.value.amount - expectedAmount) <= AmountTolerance
                      && (HasWallet(sender) ==> r.value.from == sender)
    ensures r.Ok? ==> fetch.Fetched? && exists k: nat :: IsFirstMatch(fetch.records, h, k)
  {
    match fetch
    case HttpFailure => Err(VerificationFailed(FetchFailed))
    case ApiNotOk => Err(VerificationFailed(ApiError))
    case Fetched(records) =>
      match FindFirst(records, h)
      case None => Err(VerificationFailed(NotFound))
      case Some(k) => CheckRecord(records[k], h, expectedAmount, sender, raffleWallet)
  }

  /** The amount a record carries, when it can be read. */
  function AmountOf(rec: LedgerTx): int
  {
    match rec.value
    case Nano(n) => n
    case _ => 0
  }

  /** A record that passes every check of the verifier. */
  predicate Passes(rec: LedgerTx, expectedAmount: Nanotons, sender: Option<Wallet>, raffleWallet: Wallet)
  {
    && !rec.value.Unparsable?
    && Abs(AmountOf(rec) - expectedAmount) <= AmountTolerance
    && rec.destination == Some(raffleWallet)
    && (HasWallet(sender) ==> rec.source == sender)
  }

  /**
   * The verifier accepts exactly when the list was fetched and the first
   * record carrying the hash passes every check; a later record with the
   * same hash is never looked at.
   */
  lemma VerifyAcceptsIff(fetch: Fetch, h: TxHash, expectedAmount: Nanotons, sender: Option<Wallet>,
                         raffleWallet: Wallet)
    ensures VerifyTransaction(fetch, h, expectedAmount, sender, raffleWallet).Ok?
        <==> (fetch.Fetched? && (exists k: nat :: IsFirstMatch(fetch.records, h, k)
                                                 && Passes(fetch.records[k], expectedAmount, sender, raffleWallet)))
  {
    if fetch.Fetched? {
      var found := FindFirst(fetch.records, h);
      if found.Some? {
        forall k | IsFirstMatch(fetch.records, h, k) ensures k == found.value {
          FirstMatchUnique(fetch.records, h, k, found.value);
        }
      }
    }
  }

  lemma FirstMatchUnique(records: seq<LedgerTx>, h: TxHash, k1: nat, k2: nat)
    requires IsFirstMatch(records, h, k1) && IsFirstMatch(records, h, k2)
    ensures k1 == k2
  {
  }

  /** A hash that no fetched record carries is reported as not found. */
  lemma VerifyNotFound(records: seq<LedgerTx>, h: TxHash, expectedAmount: Nanotons, sender: Option<Wallet>,
                       raffleWallet: Wallet)
    requires forall j :: 0 <= j < |records| ==> records[j].hash != Some(h)
    ensures VerifyTransaction(Fetched(records), h, expectedAmount, sender, raffleWallet)
            == Err(VerificationFailed(NotFound))
  {
  }
}
