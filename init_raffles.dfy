/**
 * Startup seeding: for EXPRESS, STANDARD and PREMIUM in that order, create
 * a round of the type unless an open one exists. The lookup raises when
 * it finds several open rounds of a type; the run then stops, and the
 * rounds it already created stay, since creating a round commits.
 */
module InitRaffles {
  import opened Wrappers
  import opened Models
  import opened Config
  import opened Crud
  import opened RaffleService

  /** The raffles table after seeding, and the type whose lookup raised, if any. */
  datatype SeedOutcome = SeedOutcome(raffles: seq<Raffle>, failedOn: Option<RaffleType>)

  /** The types in the order the seeding checks them. */
  const SeedOrder: seq<RaffleType> := [Express, Standard, Premium]

  /**
   * One block: the table after checking type t, or None when the lookup
   * raises because several open rounds of the type exist.
   */
  function SeedOne(raffles: seq<Raffle>, cfg: Settings, t: RaffleType, now: Time): Option<seq<Raffle>>
  {
    match GetActiveByType(raffles, t)
    case MultipleRows => None
    case OneRow(_) => Some(raffles)
    case NoRow => Some(raffles + [NewRaffle(cfg, t, |raffles| + 1, now)])
  }

  /** Seeding the given types in order, starting from the given table. */
  function SeedFrom(raffles: seq<Raffle>, cfg: Settings, types: seq<RaffleType>, now: Time): SeedOutcome
    decreases |types|
  {
    if types == [] then SeedOutcome(raffles, None)
    else
      match SeedOne(raffles, cfg, types[0], now)
      case None => SeedOutcome(raffles, Some(types[0]))
      case Some(next) => SeedFrom(next, cfg, types[1..], now)
  }

  /** There is an ACTIVE or WAITING raffle of type t. */
  predicate HasOpen(raffles: seq<Raffle>, t: RaffleType)
  {
    exists i :: 0 <= i < |raffles| && OpenOfType(raffles[i], t)
  }

  /** Seeding keeps the existing rows and adds at most one row per type checked. */
  lemma {:induction false} SeedKeepsPrefix(raffles: seq<Raffle>, cfg: Settings, types: seq<RaffleType>, now: Time)
    ensures var out := SeedFrom(raffles, cfg, types, now);
      && |raffles| <= |out.raffles| <= |raffles| + |types|
      && out.raffles[..|raffles|] == raffles
    decreases |types|
  {
    if types != [] {
      match SeedOne(raffles, cfg, types[0], now)
      case None =>
      case Some(next) =>
        SeedKeepsPrefix(next, cfg, types[1..], now);
        var out := SeedFrom(next, cfg, types[1..], now);
        assert next[..|raffles|] == raffles;
        assert out.raffles[..|raffles|] == out.raffles[..|next|][..|raffles|];
    }
  }

  /**
   * Seeding only appends: the existing rows stay as they were, and each new
   * row is a fresh ACTIVE round, under the next id, of a type that had no
   * open round when it was checked.
   */
  lemma {:induction false} SeedOnlyAppends(raffles: seq<Raffle>, cfg: Settings, types: seq<RaffleType>, now: Time)
    ensures var out := SeedFrom(raffles, cfg, types, now);
      && |raffles| <= |out.raffles| <= |raffles| + |types|
      && out.raffles[..|raffles|] == raffles
      && (forall j :: |raffles| <= j < |out.raffles| ==>
            var t := out.raffles[j].rtype;
            t in types && !HasOpen(raffles, t) && out.raffles[j] == NewRaffle(cfg, t, j + 1, now))
    decreases |types|
  {
    SeedKeepsPrefix(raffles, cfg, types, now);
    if types != [] {
      var t := types[0];
      var q := GetActiveByType(raffles, t);
      if q.OneRow? {
        SeedOnlyAppends(raffles, cfg, types[1..], now);
      } else if q.NoRow? {
        var grown := raffles + [NewRaffle(cfg, t, |raffles| + 1, now)];
        assert !HasOpen(raffles, t);
        SeedOnlyAppends(grown, cfg, types[1..], now);
        var out := SeedFrom(grown, cfg, types[1..], now);
        assert SeedFrom(raffles, cfg, types, now) == out;
        forall j | |raffles| <= j < |out.raffles|
          ensures var u := out.raffles[j].rtype;
                  u in types && !HasOpen(raffles, u) && out.raffles[j] == NewRaffle(cfg, u, j + 1, now)
        {
          var u := out.raffles[j].rtype;
          if j == |raffles| {
            assert out.raffles[j] == out.raffles[..|grown|][j] == grown[j];
          } else {
            assert u in types[1..] && !HasOpen(grown, u);
            NoOpenInPrefix(raffles, grown, u);
          }
        }
      }
    }
  }

  /** A table with no open round of type u has none in any prefix. */
  lemma NoOpenInPrefix(raffles: seq<Raffle>, grown: seq<Raffle>, u: RaffleType)
    requires !HasOpen(grown, u) && |raffles| <= |grown| && grown[..|raffles|] == raffles
    ensures !HasOpen(raffles, u)
  {
    forall i | 0 <= i < |raffles| ensures !OpenOfType(raffles[i], u) {
      assert grown[i] == raffles[i];
    }
  }

  /** A type that has an open round keeps having one while seeding goes on. */
  lemma {:induction false} SeedKeepsOpen(raffles: seq<Raffle>, cfg: Settings, types: seq<RaffleType>, now: Time,
                                         t: RaffleType)
    requires HasOpen(raffles, t)
    ensures HasOpen(SeedFrom(raffles, cfg, types, now).raffles, t)
    ensures forall j :: |raffles| <= j < |SeedFrom(raffles, cfg, types, now).raffles| ==>
              SeedFrom(raffles, cfg, types, now).raffles[j].rtype != t
    decreases |types|
  {
    if types != [] {
      match SeedOne(raffles, cfg, types[0], now)
      case None =>
      case Some(next) =>
        SeedOneKeepsOpen(raffles, cfg, types[0], now, t);
        SeedKeepsOpen(next, cfg, types[1..], now, t);
        SeedKeepsPrefix(next, cfg, types[1..], now);
        var out := SeedFrom(next, cfg, types[1..], now);
        forall j | |raffles| <= j < |out.raffles| ensures out.raffles[j].rtype != t {
          if j < |next| {
            assert out.raffles[j] == out.raffles[..|next|][j] == next[j];
          }
        }
    }
  }

  /** One block keeps an open round of t, and what it appends is not of type t. */
  lemma SeedOneKeepsOpen(raffles: seq<Raffle>, cfg: Settings, u: RaffleType, now: Time, t: RaffleType)
    requires HasOpen(raffles, t)
    ensures SeedOne(raffles, cfg, u, now).Some? ==>
      var next := SeedOne(raffles, cfg, u, now).value;
      && HasOpen(next, t)
      && |raffles| <= |next|
      && next[..|raffles|] == raffles
      && forall j :: |raffles| <= j < |next| ==> next[j].rtype != t
  {
    var i :| 0 <= i < |raffles| && OpenOfType(raffles[i], t);
    if GetActiveByType(raffles, u).NoRow? {
      assert !OpenOfType(raffles[i], u);
      var next := raffles + [NewRaffle(cfg, u, |raffles| + 1, now)];
      assert next[i] == raffles[i];
    }
  }

  /**
   * A run that raises nothing leaves an open round of every type it checked
   * and creates a round only for a type that had none.
   */
  lemma {:induction false} SeedOpensEveryType(raffles: seq<Raffle>, cfg: Settings, types: seq<RaffleType>, now: Time)
    ensures var out := SeedFrom(raffles, cfg, types, now);
      out.failedOn.None? ==> forall t :: t in types ==> HasOpen(out.raffles, t)
    decreases |types|
  {
    if types != [] {
      var t := types[0];
      var q := GetActiveByType(raffles, t);
      if q.OneRow? {
        SeedOpensEveryType(raffles, cfg, types[1..], now);
        SeedKeepsOpen(raffles, cfg, types[1..], now, t);
      } else if q.NoRow? {
        var grown := raffles + [NewRaffle(cfg, t, |raffles| + 1, now)];
        assert OpenOfType(grown[|raffles|], t);
        SeedOpensEveryType(grown, cfg, types[1..], now);
        SeedKeepsOpen(grown, cfg, types[1..], now, t);
      }
    }
  }

  /** init_raffles: the three checks in order, each creating the type's round when it has none. */
  method InitRaffles(db: Database, cfg: Settings, now: Time) returns (failedOn: Option<RaffleType>)
    requires db.Valid()
    modifies db`raffles
    ensures db.Valid()
    ensures SeedOutcome(db.raffles, failedOn) == SeedFrom(old(db.raffles), cfg, SeedOrder, now)
  {
    assert SeedOrder[1..] == [Standard, Premium] && SeedOrder[1..][1..] == [Premium] && [Premium][1..] == [];
    var ok := EnsureOpen(db, cfg, Express, now);
    if !ok {
      return Some(Express);
    }
    ok := EnsureOpen(db, cfg, Standard, now);
    if !ok {
      return Some(Standard);
    }
    ok := EnsureOpen(db, cfg, Premium, now);
    if !ok {
      return Some(Premium);
    }
    failedOn := None;
  }

  /** One block of init_raffles: look the type up and create its round when there is none. */
  method EnsureOpen(db: Database, cfg: Settings, t: RaffleType, now: Time) returns (ok: bool)
    requires db.Valid()
    modifies db`raffles
    ensures db.Valid()
    ensures ok <==> SeedOne(old(db.raffles), cfg, t, now).Some?
    ensures ok ==> db.raffles == SeedOne(old(db.raffles), cfg, t, now).value
    ensures !ok ==> db.raffles == old(db.raffles)
  {
    var existing := GetActiveByType(db.raffles, t);
    if existing.MultipleRows? {
      return false;
    }
    if existing.NoRow? {
      var created := CreateRaffle(db, cfg, t, now);
    }
    ok := true;
  }
}
