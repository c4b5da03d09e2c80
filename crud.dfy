/**
 * The persistence tables as an in-memory store. Each table is a sequence
 * in insertion order and ids are autoincrement positions (row i has id
 * i + 1). Participants are kept in the owning raffle's collection. Lookups
 * are functions over the tables; inserts are methods of `Database` that
 * enforce the storage constraints the service relies on: unique and
 * non-null transaction hashes, unique participant transaction hashes and
 * unique Telegram ids.
 */
module Crud {
  import opened Wrappers
  import opened Models

  /** A rejected insert. */
  datatype StorageError = UniqueViolation | NotNullViolation

  /** The result of scalar_one_or_none(): no row, one row, or an error for several. */
  datatype QueryOne<T> = NoRow | OneRow(row: T) | MultipleRows

  // ---------------------------------------------------------------- lookups

  /** UserCRUD.get_by_id: the position of the user with this id. */
  function UserIndex(users: seq<User>, id: nat): (k: Option<nat>)
    ensures k.Some? ==> k.value < |users| && users[k.value].id == id
    ensures k.None? ==> forall i :: 0 <= i < |users| ==> users[i].id != id
  {
    if users == [] then None
    else if users[|users| - 1].id == id then Some(|users| - 1)
    else UserIndex(users[..|users| - 1], id)
  }

  /** UserCRUD.get_by_telegram_id: the position of the user with this Telegram id. */
  function TelegramIndex(users: seq<User>, telegramId: int): (k: Option<nat>)
    ensures k.Some? ==> k.value < |users| && users[k.value].telegramId == telegramId
    ensures k.None? ==> forall i :: 0 <= i < |users| ==> users[i].telegramId != telegramId
  {
    if users == [] then None
    else if users[|users| - 1].telegramId == telegramId then Some(|users| - 1)
    else TelegramIndex(users[..|users| - 1], telegramId)
  }

  /** RaffleCRUD.get_by_id: the position of the raffle with this id. */
  function RaffleIndex(raffles: seq<Raffle>, id: nat): (k: Option<nat>)
    ensures k.Some? ==> k.value < |raffles| && raffles[k.value].id == id
    ensures k.None? ==> forall i :: 0 <= i < |raffles| ==> raffles[i].id != id
  {
    if raffles == [] then None
    else if raffles[|raffles| - 1].id == id then Some(|raffles| - 1)
    else RaffleIndex(raffles[..|raffles| - 1], id)
  }

  /** TransactionCRUD.get_by_hash: the transaction recorded under this hash. */
  function GetByHash(transactions: seq<Transaction>, h: TxHash): (r: Option<Transaction>)
    ensures r.Some? ==> r.value in transactions && r.value.txHash == h
    ensures r.None? ==> forall i :: 0 <= i < |transactions| ==> transactions[i].txHash != h
  {
    if transactions == [] then None
    else if transactions[0].txHash == h then Some(transactions[0])
    else GetByHash(transactions[1..], h)
  }

  /** The participant of one collection with these raffle and user ids. */
  function FindParticipant(ps: seq<Participant>, raffleId: nat, userId: nat): (r: Option<Participant>)
    ensures r.Some? ==> r.value in ps && r.value.raffleId == raffleId && r.value.userId == userId
    ensures r.None? ==> forall k :: 0 <= k < |ps| ==> !(ps[k].raffleId == raffleId && ps[k].userId == userId)
  {
    if ps == [] then None
    else if ps[0].raffleId == raffleId && ps[0].userId == userId then Some(ps[0])
    else FindParticipant(ps[1..], raffleId, userId)
  }

  /**
   * ParticipantCRUD.get_by_raffle_and_user: a participant, in any raffle's
   * collection, whose raffle id and user id are both the given ones.
   */
  function GetByRaffleAndUser(raffles: seq<Raffle>, raffleId: nat, userId: nat): (r: Option<Participant>)
    ensures r.Some? ==> r.value.raffleId == raffleId && r.value.userId == userId
                        && exists i :: 0 <= i < |raffles| && r.value in raffles[i].participants
    ensures r.None? ==> forall i, k :: 0 <= i < |raffles| && 0 <= k < |raffles[i].participants| ==>
                          !(raffles[i].participants[k].raffleId == raffleId && raffles[i].participants[k].userId == userId)
  {
    if raffles == [] then None
    else
      match FindParticipant(raffles[0].participants, raffleId, userId)
      case Some(p) => Some(p)
      case None =>
        var rest := GetByRaffleAndUser(raffles[1..], raffleId, userId);
        assert forall i :: 1 <= i < |raffles| ==> raffles[i] == raffles[1..][i - 1];
        rest
  }

  /** A raffle that get_active_by_type looks for: of type t and open. */
  predicate OpenOfType(r: Raffle, t: RaffleType)
  {
    r.rtype == t && IsOpen(r.status)
  }

  /** Positions, in increasing order, of the open raffles of type t. */
  function OpenOfTypeIndices(raffles: seq<Raffle>, t: RaffleType): (ix: seq<nat>)
    ensures forall k :: 0 <= k < |ix| ==> ix[k] < |raffles| && OpenOfType(raffles[ix[k]], t)
    ensures forall i :: 0 <= i < |raffles| && OpenOfType(raffles[i], t) ==> i in ix
    ensures forall k, l :: 0 <= k < l < |ix| ==> ix[k] < ix[l]
  {
    if raffles == [] then []
    else
      var n := |raffles| - 1;
      var front := OpenOfTypeIndices(raffles[..n], t);
      assert forall i :: 0 <= i < n ==> raffles[..n][i] == raffles[i];
      if OpenOfType(raffles[n], t) then front + [n] else front
  }

  /**
   * RaffleCRUD.get_active_by_type: the one open raffle of the type, none, or
   * an error when there are several.
   */
  function GetActiveByType(raffles: seq<Raffle>, t: RaffleType): (q: QueryOne<Raffle>)
    ensures q.NoRow? <==> forall i :: 0 <= i < |raffles| ==> !OpenOfType(raffles[i], t)
    ensures q.OneRow? ==> exists i :: 0 <= i < |raffles| && raffles[i] == q.row && OpenOfType(q.row, t)
                                      && forall j :: 0 <= j < |raffles| && OpenOfType(raffles[j], t) ==> j == i
    ensures q.MultipleRows? ==> exists i, j :: 0 <= i < j < |raffles| && OpenOfType(raffles[i], t)
                                               && OpenOfType(raffles[j], t)
  {
    var ix := OpenOfTypeIndices(raffles, t);
    if |ix| == 0 then NoRow
    else if |ix| == 1 then
      assert forall j :: 0 <= j < |raffles| && OpenOfType(raffles[j], t) ==> j == ix[0];
      OneRow(raffles[ix[0]])
    else
      assert ix[0] < ix[1] && OpenOfType(raffles[ix[0]], t) && OpenOfType(raffles[ix[1]], t);
      MultipleRows
  }

  /** The open raffles in table order. */
  function OpenRaffles(raffles: seq<Raffle>): (r: seq<Raffle>)
    ensures forall x :: x in r <==> x in raffles && IsOpen(x.status)
  {
    if raffles == [] then []
    else (if IsOpen(raffles[0].status) then [raffles[0]] else []) + OpenRaffles(raffles[1..])
  }

  predicate NewestFirst(s: seq<Raffle>)
  {
    forall i, j :: 0 <= i < j < |s| ==> s[i].createdAt >= s[j].createdAt
  }

  function InsertNewestFirst(x: Raffle, s: seq<Raffle>): (r: seq<Raffle>)
    requires NewestFirst(s)
    ensures NewestFirst(r)
    ensures multiset(r) == multiset(s) + multiset{x}
    ensures |r| == |s| + 1 && forall k :: 0 <= k < |r| ==> r[k] == x || r[k] in s
  {
    if s == [] || x.createdAt >= s[0].createdAt then [x] + s
    else
      var rest := InsertNewestFirst(x, s[1..]);
      assert s == [s[0]] + s[1..];
      assert forall k :: 0 <= k < |rest| ==> s[0].createdAt >= rest[k].createdAt;
      [s[0]] + rest
  }

  function SortNewestFirst(s: seq<Raffle>): (r: seq<Raffle>)
    ensures NewestFirst(r)
    ensures multiset(r) == multiset(s)
  {
    if s == [] then []
    else
      assert s == [s[0]] + s[1..];
      InsertNewestFirst(s[0], SortNewestFirst(s[1..]))
  }

  /**
   * RaffleCRUD.get_all_active: exactly the open raffles (each as often as
   * in the table), newest first by creation time.
   */
  function GetAllActive(raffles: seq<Raffle>): (r: seq<Raffle>)
    ensures NewestFirst(r)
    ensures forall x :: x in r <==> x in raffles && IsOpen(x.status)
    ensures multiset(r) == multiset(OpenRaffles(raffles))
  {
    var open := OpenRaffles(raffles);
    var r := SortNewestFirst(open);
    assert forall x :: x in r <==> x in open by {
      forall x ensures x in r <==> x in open {
        assert x in r <==> x in multiset(r);
      }
    }
    r
  }

  // ------------------------------------------------------------------ store

  /** The set of transaction hashes recorded in the ledger table. */
  function TxHashes(transactions: seq<Transaction>): set<TxHash>
  {
    set t | t in transactions :: t.txHash
  }

  /** The committed contents of the three tables, as a value. */
  datatype Tables = Tables(users: seq<User>, raffles: seq<Raffle>, transactions: seq<Transaction>)

  /** The store: the users, raffles and transactions tables. */
  class Database {
    var users: seq<User>
    var raffles: seq<Raffle>
    var transactions: seq<Transaction>
    var nextParticipantId: nat

    /**
     * The constraints of the schema and the relationships: autoincrement
     * ids, unique Telegram ids, unique transaction hashes, each raffle
     * owning only its own participants, at most one participant per
     * (raffle, user) pair, and unique participant transaction hashes, each
     * recorded in the ledger.
     */
    ghost predicate Valid()
      reads this
    {
      && UsersValid(users)
      && TransactionsValid(transactions)
      && RafflesValid(raffles, transactions)
    }

    function Snapshot(): Tables
      reads this
    {
      Tables(users, raffles, transactions)
    }

    constructor ()
      ensures Valid()
      ensures users == [] && raffles == [] && transactions == []
    {
      users, raffles, transactions := [], [], [];
      nextParticipantId := 1;
    }

    /**
     * UserCRUD.get_or_create: the user with this Telegram id, created when
     * there is none; an existing user's last_active is refreshed and the
     * username replaced only when a non-empty one is given.
     */
    method GetOrCreate(telegramId: int, username: Option<string>, now: Time) returns (u: User)
      requires Valid()
      modifies this`users
      ensures Valid()
      ensures u in users && u.telegramId == telegramId
      ensures match TelegramIndex(old(users), telegramId)
        case Some(k) =>
          && u == old(users)[k].(lastActive := now,
                                  username := if username.Some? && username.value != "" then username
                                              else old(users)[k].username)
          && users == old(users)[k := u]
        case None =>
          && u == User(|old(users)| + 1, telegramId, username, None, now, now, 0, 0, 0, 0)
          && users == old(users) + [u]
    {
      var found := TelegramIndex(users, telegramId);
      match found
      case Some(k) =>
        u := users[k].(lastActive := now);
        if username.Some? && username.value != "" {
          u := u.(username := username);
        }
        users := users[k := u];
        assert users[k] == u;
      case None =>
        u := User(|users| + 1, telegramId, username, None, now, now, 0, 0, 0, 0);
        users := users + [u];
    }

    /**
     * RaffleCRUD.create: a new ACTIVE raffle with the given parameters and
     * no participants, deadline, winner or proof.
     */
    method CreateRaffle(rtype: RaffleType, minParticipants: int, entryFee: Nanotons, prizePool: Nanotons,
                        commissionPercent: int, now: Time) returns (r: Raffle)
      requires Valid()
      modifies this`raffles
      ensures Valid()
      ensures r == Raffle(|old(raffles)| + 1, rtype, Active, minParticipants, entryFee, prizePool,
                          commissionPercent, now, None, None, None, None, None, [])
      ensures raffles == old(raffles) + [r]
    {
      r := Raffle(|raffles| + 1, rtype, Active, minParticipants, entryFee, prizePool,
                  commissionPercent, now, None, None, None, None, None, []);
      raffles := raffles + [r];
    }

    /**
     * TransactionCRUD.create: appends a PENDING ledger record; the store
     * rejects a hash it already holds and a missing wallet.
     */
    method CreateTransaction(userId: nat, raffleId: Option<nat>, txHash: TxHash, fromWallet: Option<Wallet>,
                             toWallet: Option<Wallet>, amount: Nanotons, ttype: TransactionType, now: Time)
      returns (res: Result<Transaction, StorageError>)
      requires Valid()
      modifies this`transactions
      ensures Valid()
      ensures txHash in TxHashes(old(transactions)) ==> res == Err(UniqueViolation)
      ensures txHash !in TxHashes(old(transactions)) && (fromWallet.None? || toWallet.None?)
              ==> res == Err(NotNullViolation)
      ensures txHash !in TxHashes(old(transactions)) && fromWallet.Some? && toWallet.Some? ==> res.Ok?
      ensures res.Err? ==> transactions == old(transactions)
      ensures res.Ok? ==>
        && res.value == Transaction(|old(transactions)| + 1, userId, raffleId, txHash, fromWallet.value,
                                    toWallet.value, amount, ttype, Pending, now, None)
        && transactions == old(transactions) + [res.value]
    {
      if txHash in TxHashes(transactions) {
        return Err(UniqueViolation);
      }
      if fromWallet.None? || toWallet.None? {
        return Err(NotNullViolation);
      }
      var t := Transaction(|transactions| + 1, userId, raffleId, txHash, fromWallet.value, toWallet.value,
                           amount, ttype, Pending, now, None);
      TxHashesAppend(transactions, t);
      transactions := transactions + [t];
      res := Ok(t);
    }

    /**
     * ParticipantCRUD.create: appends a participant, not a winner and with
     * no prize sent, to the raffle's collection; the store rejects a
     * transaction hash another participant already holds.
     */
    method CreateParticipant(raffleIndex: nat, userId: nat, txHash: TxHash, now: Time)
      returns (res: Result<Participant, StorageError>)
      requires Valid()
      requires raffleIndex < |raffles|
      requires txHash in TxHashes(transactions)
      requires FindParticipant(raffles[raffleIndex].participants, raffleIndex + 1, userId).None?
      modifies this`raffles, this`nextParticipantId
      ensures Valid()
      ensures HashHeld(old(raffles), txHash) ==> res == Err(UniqueViolation)
      ensures !HashHeld(old(raffles), txHash) ==> res.Ok?
      ensures res.Err? ==> raffles == old(raffles) && nextParticipantId == old(nextParticipantId)
      ensures res.Ok? ==>
        && res.value == Participant(old(nextParticipantId), raffleIndex + 1, userId, now, Some(txHash),
                                    false, false, None)
        && raffles == old(raffles)[raffleIndex := old(raffles)[raffleIndex].(
                        participants := old(raffles)[raffleIndex].participants + [res.value])]
        && nextParticipantId == old(nextParticipantId) + 1
    {
      if HashHeldBy(raffles, txHash) {
        return Err(UniqueViolation);
      }
      var p := Participant(nextParticipantId, raffleIndex + 1, userId, now, Some(txHash), false, false, None);
      var r := raffles[raffleIndex];
      AppendParticipantValid(raffles, transactions, raffleIndex, p);
      raffles := raffles[raffleIndex := r.(participants := r.participants + [p])];
      nextParticipantId := nextParticipantId + 1;
      res := Ok(p);
    }
  }

  /** Autoincrement ids and unique Telegram ids. */
  ghost predicate UsersValid(users: seq<User>)
  {
    && (forall i :: 0 <= i < |users| ==> users[i].id == i + 1)
    && (forall i, j :: 0 <= i < j < |users| ==> users[i].telegramId != users[j].telegramId)
  }

  /** Autoincrement ids and unique transaction hashes. */
  ghost predicate TransactionsValid(transactions: seq<Transaction>)
  {
    && (forall i :: 0 <= i < |transactions| ==> transactions[i].id == i + 1)
    && (forall i, j :: 0 <= i < j < |transactions| ==> transactions[i].txHash != transactions[j].txHash)
  }

  /**
   * Autoincrement ids; each raffle owns only its own participants, at most
   * one per user; participant transaction hashes are unique and recorded in
   * the ledger.
   */
  ghost predicate RafflesValid(raffles: seq<Raffle>, transactions: seq<Transaction>)
  {
    && (forall i :: 0 <= i < |raffles| ==> raffles[i].id == i + 1)
    && (forall i :: 0 <= i < |raffles| ==> CollectionValid(raffles[i], transactions))
    && ParticipantHashesUnique(raffles)
  }

  /** One raffle's collection: owned by it, one entry per user, hashes in the ledger. */
  ghost predicate CollectionValid(r: Raffle, transactions: seq<Transaction>)
  {
    && (forall k :: 0 <= k < |r.participants| ==> r.participants[k].raffleId == r.id)
    && (forall k, l :: 0 <= k < l < |r.participants| ==> r.participants[k].userId != r.participants[l].userId)
    && (forall k :: 0 <= k < |r.participants| && r.participants[k].transactionHash.Some? ==>
          r.participants[k].transactionHash.value in TxHashes(transactions))
  }

  /** Some participant of some raffle holds hash h. */
  ghost predicate HashHeld(raffles: seq<Raffle>, h: TxHash)
  {
    exists i, k :: 0 <= i < |raffles| && 0 <= k < |raffles[i].participants|
                   && raffles[i].participants[k].transactionHash == Some(h)
  }

  /** The unique-constraint check of the participants table, as a scan. */
  function HashHeldBy(raffles: seq<Raffle>, h: TxHash): (b: bool)
    ensures b <==> HashHeld(raffles, h)
  {
    if raffles == [] then false
    else
      var here := exists k :: 0 <= k < |raffles[0].participants| && raffles[0].participants[k].transactionHash == Some(h);
      assert forall i :: 1 <= i < |raffles| ==> raffles[i] == raffles[1..][i - 1];
      here || HashHeldBy(raffles[1..], h)
  }

  /** No two participants, in the same raffle or not, hold the same transaction hash. */
  ghost predicate ParticipantHashesUnique(raffles: seq<Raffle>)
  {
    forall i, k, j, l ::
      && 0 <= i < |raffles| && 0 <= k < |raffles[i].participants|
      && 0 <= j < |raffles| && 0 <= l < |raffles[j].participants|
      && raffles[i].participants[k].transactionHash.Some?
      && raffles[i].participants[k].transactionHash == raffles[j].participants[l].transactionHash
      ==> i == j && k == l
  }

  /** Appending a participant with a fresh, recorded hash and a new user keeps the raffles table valid. */
  lemma AppendParticipantValid(raffles: seq<Raffle>, transactions: seq<Transaction>, ri: nat, p: Participant)
    requires RafflesValid(raffles, transactions)
    requires ri < |raffles| && p.raffleId == ri + 1
    requires p.transactionHash.Some? && p.transactionHash.value in TxHashes(transactions)
    requires !HashHeld(raffles, p.transactionHash.value)
    requires FindParticipant(raffles[ri].participants, ri + 1, p.userId).None?
    ensures RafflesValid(raffles[ri := raffles[ri].(participants := raffles[ri].participants + [p])], transactions)
  {
    var r := raffles[ri];
    var r' := r.(participants := r.participants + [p]);
    var rs := raffles[ri := r'];
    assert CollectionValid(r', transactions) by {
      forall k | 0 <= k < |r.participants| ensures r.participants[k].userId != p.userId {
        assert r.participants[k].raffleId == ri + 1;
      }
    }
    forall i, k, j, l |
      && 0 <= i < |rs| && 0 <= k < |rs[i].participants|
      && 0 <= j < |rs| && 0 <= l < |rs[j].participants|
      && rs[i].participants[k].transactionHash.Some?
      && rs[i].participants[k].transactionHash == rs[j].participants[l].transactionHash
      ensures i == j && k == l
    {
      assert !(i == ri && k == |r.participants|) ==> rs[i].participants[k] == raffles[i].participants[k];
      assert !(j == ri && l == |r.participants|) ==> rs[j].participants[l] == raffles[j].participants[l];
    }
  }

  lemma TxHashesAppend(transactions: seq<Transaction>, t: Transaction)
    ensures TxHashes(transactions + [t]) == TxHashes(transactions) + {t.txHash}
  {
    assert forall x :: x in transactions + [t] <==> x in transactions || x == t;
  }
}
