/**
 * Telegram Mini App authentication: the init data carried in the
 * X-Telegram-Init-Data header is accepted when its hash field equals the
 * HMAC-SHA-256 (RFC 2104) of the data-check string, the remaining fields
 * as key=value lines sorted by key and joined by newlines, under the key
 * HMAC("WebAppData", bot token); the user field then names the account.
 *
 * Query-string parsing, UTF-8 encoding, HMAC, hex encoding and JSON
 * decoding are not modelled here: they are fields of Foreign.
 */
module Auth {
  import opened Wrappers
  import opened Strings
  import opened Models
  import opened Crud

  /** A parsed query string: each key with its list of values, in first-seen order. */
  type Pairs = seq<(string, seq<string>)>

  /** The fields of the JSON user object the sign-in reads. */
  datatype UserJson = UserJson(id: Option<int>, username: Option<string>)

  /** The library calls the check relies on. */
  datatype Foreign = Foreign(
    parseQs: string -> Pairs,
    utf8: string -> seq<bv8>,
    hmacSha256: (seq<bv8>, seq<bv8>) -> seq<bv8>,
    hexDigest: seq<bv8> -> string,
    jsonLoads: string -> Result<UserJson, string>)

  /** What parse_qs returns: a dict, so no key twice, and no key without a value. */
  predicate IsQueryDict(p: Pairs)
  {
    && (forall i, j :: 0 <= i < j < |p| ==> p[i].0 != p[j].0)
    && (forall i :: 0 <= i < |p| ==> |p[i].1| > 0)
  }

  /** The query parser of the library behaves as parse_qs on every input. */
  ghost predicate WellFormed(f: Foreign)
  {
    forall s :: IsQueryDict(f.parseQs(s))
  }

  /** The value list of key k, if the dict has it. */
  function Lookup(p: Pairs, k: string): (r: Option<seq<string>>)
    ensures r.None? <==> forall i :: 0 <= i < |p| ==> p[i].0 != k
    ensures r.Some? ==> (k, r.value) in p
  {
    if p == [] then None
    else if p[0].0 == k then Some(p[0].1)
    else Lookup(p[1..], k)
  }

  /** The dict with key k popped: the entries of every other key. */
  function Pop(p: Pairs, k: string): (r: Pairs)
    ensures forall x :: x in r <==> x in p && x.0 != k
  {
    if p == [] then []
    else
      assert forall x :: x in p <==> x == p[0] || x in p[1..];
      (if p[0].0 == k then [] else [p[0]]) + Pop(p[1..], k)
  }

  /** Popping a key leaves a dict. */
  lemma {:induction false} PopQueryDict(p: Pairs, k: string)
    requires IsQueryDict(p)
    ensures IsQueryDict(Pop(p, k))
  {
    if p != [] {
      assert IsQueryDict(p[1..]) by {
        forall i, j | 0 <= i < j < |p[1..]| ensures p[1..][i].0 != p[1..][j].0 {
          assert p[1..][i] == p[i + 1] && p[1..][j] == p[j + 1];
        }
      }
      PopQueryDict(p[1..], k);
      var rest := Pop(p[1..], k);
      if p[0].0 != k {
        forall j | 0 <= j < |rest| ensures p[0].0 != rest[j].0 {
          assert rest[j] in rest;
          KeyAfterHead(p, rest[j]);
        }
        assert Pop(p, k) == [p[0]] + rest;
      }
    }
  }

  /** In a dict, an entry after the first has another key than the first. */
  lemma KeyAfterHead(p: Pairs, y: (string, seq<string>))
    requires IsQueryDict(p) && p != [] && y in p[1..]
    ensures y.0 != p[0].0
  {
    var i :| 0 <= i < |p[1..]| && p[1..][i] == y;
    assert p[i + 1] == y;
  }

  /** Python's ordering of the (key, values) items with distinct keys: strictly by key. */
  predicate SortedByKey(s: Pairs)
  {
    forall i, j :: 0 <= i < j < |s| ==> StrLe(s[i].0, s[j].0) && s[i].0 != s[j].0
  }

  /** x placed before the first entry whose key it does not exceed. */
  function Insert(x: (string, seq<string>), s: Pairs): (r: Pairs)
    ensures multiset(r) == multiset(s) + multiset{x}
  {
    if s == [] then [x]
    else if StrLe(x.0, s[0].0) then [x] + s
    else
      assert s == [s[0]] + s[1..];
      [s[0]] + Insert(x, s[1..])
  }

  /** sorted(items): the entries of p in key order. */
  function SortByKey(p: Pairs): (r: Pairs)
    ensures multiset(r) == multiset(p)
  {
    if p == [] then []
    else
      assert p == [p[0]] + p[1..];
      Insert(p[0], SortByKey(p[1..]))
  }

  /** Inserting an entry whose key is new keeps the order strict. */
  lemma {:induction false} InsertSorted(x: (string, seq<string>), s: Pairs)
    requires SortedByKey(s)
    requires forall i :: 0 <= i < |s| ==> s[i].0 != x.0
    ensures SortedByKey(Insert(x, s))
  {
    if s != [] {
      if StrLe(x.0, s[0].0) {
        forall j | 0 <= j < |s| ensures StrLe(x.0, s[j].0) {
          if j > 0 {
            StrLeTrans(x.0, s[0].0, s[j].0);
          }
        }
      } else {
        StrLeTotal(x.0, s[0].0);
        InsertSorted(x, s[1..]);
        var rest := Insert(x, s[1..]);
        var r := Insert(x, s);
        assert r == [s[0]] + rest;
        forall j | 0 <= j < |rest| ensures StrLe(s[0].0, rest[j].0) && s[0].0 != rest[j].0 {
          assert multiset(rest)[rest[j]] > 0;
          if rest[j] != x {
            assert rest[j] in s[1..];
            var i :| 0 <= i < |s[1..]| && s[1..][i] == rest[j];
            assert s[i + 1] == rest[j];
          }
        }
      }
    }
  }

  /** The order of sorted(items) is strict by key, and it holds each entry of the dict once. */
  lemma {:induction false} SortByKeySorted(p: Pairs)
    requires IsQueryDict(p)
    ensures SortedByKey(SortByKey(p)) && multiset(SortByKey(p)) == multiset(p)
  {
    if p != [] {
      assert IsQueryDict(p[1..]) by {
        forall i, j | 0 <= i < j < |p[1..]| ensures p[1..][i].0 != p[1..][j].0 {
          assert p[1..][i] == p[i + 1] && p[1..][j] == p[j + 1];
        }
      }
      SortByKeySorted(p[1..]);
      var s := SortByKey(p[1..]);
      forall i | 0 <= i < |s| ensures s[i].0 != p[0].0 {
        assert multiset(s)[s[i]] > 0;
        assert s[i] in p[1..];
        var k :| 0 <= k < |p[1..]| && p[1..][k] == s[i];
        assert p[k + 1] == s[i];
      }
      InsertSorted(p[0], s);
    }
  }

  /**
   * Two key-sorted lists with the same entries are the same list: the
   * order sorted() gives does not depend on the order it was given.
   */
  lemma {:induction false} SortedUnique(a: Pairs, b: Pairs)
    requires SortedByKey(a) && SortedByKey(b)
    requires forall x :: x in a <==> x in b
    ensures a == b
  {
    if a != [] {
      assert a[0] in b;
    }
    if b != [] {
      assert b[0] in a;
    }
    if a != [] && b != [] {
      var i :| 0 <= i < |b| && b[i] == a[0];
      var j :| 0 <= j < |a| && a[j] == b[0];
      if i != 0 && j != 0 {
        StrLeAntisym(a[0].0, b[0].0);
        assert false;
      }
      assert a[0] == b[0];
      forall x ensures x in a[1..] <==> x in b[1..] {
        TailMembers(a, x);
        TailMembers(b, x);
      }
      SortedUnique(a[1..], b[1..]);
    }
  }

  /** In a key-sorted list the first entry does not come again. */
  lemma TailMembers(a: Pairs, x: (string, seq<string>))
    requires SortedByKey(a) && a != []
    ensures x in a[1..] <==> x in a && x != a[0]
  {
    assert a == [a[0]] + a[1..];
    if x in a[1..] {
      var i :| 0 <= i < |a[1..]| && a[1..][i] == x;
      assert a[i + 1] == x;
    }
  }

  /** The key=value lines, with the first value of each key. */
  function Lines(s: Pairs): (r: seq<string>)
    requires forall i :: 0 <= i < |s| ==> |s[i].1| > 0
    ensures |r| == |s|
  {
    if s == [] then [] else [s[0].0 + "=" + s[0].1[0]] + Lines(s[1..])
  }

  /** The data-check string of the dict with its hash popped. */
  function DataCheckString(rest: Pairs): string
    requires IsQueryDict(rest)
  {
    var sorted := SortByKey(rest);
    assert forall i :: 0 <= i < |sorted| ==> sorted[i] in multiset(rest);
    Join(Lines(sorted), '\n')
  }

  /** The data-check string depends on the fields, not on the order the parser listed them in. */
  lemma DataCheckStringOrderFree(p: Pairs, q: Pairs)
    requires IsQueryDict(p) && IsQueryDict(q)
    requires forall x :: x in p <==> x in q
    ensures DataCheckString(p) == DataCheckString(q)
  {
    SortByKeySorted(p);
    SortByKeySorted(q);
    SortByKeyMembers(p);
    SortByKeyMembers(q);
    SortedUnique(SortByKey(p), SortByKey(q));
  }

  /** sorted() keeps exactly the entries it was given. */
  lemma SortByKeyMembers(p: Pairs)
    ensures forall x :: x in SortByKey(p) <==> x in p
  {
    forall x ensures x in SortByKey(p) <==> x in p {
      assert x in SortByKey(p) <==> x in multiset(SortByKey(p));
      assert x in p <==> x in multiset(p);
    }
  }

  /** Two dicts with the same entries give every key the same value list. */
  lemma LookupByContent(p: Pairs, q: Pairs, k: string)
    requires IsQueryDict(p) && IsQueryDict(q)
    requires forall x :: x in p <==> x in q
    ensures Lookup(p, k) == Lookup(q, k)
  {
    var lp, lq := Lookup(p, k), Lookup(q, k);
    if lp.Some? {
      assert (k, lp.value) in q;
    }
    if lq.Some? {
      assert (k, lq.value) in p;
    }
    if lp.Some? && lq.Some? {
      var a :| 0 <= a < |p| && p[a] == (k, lp.value);
      var b :| 0 <= b < |p| && p[b] == (k, lq.value);
      assert a == b;
    }
  }

  /**
   * The verdict on the init data depends on its fields and their values,
   * not on the order they were listed in.
   */
  lemma VerifyWebAppDataOrderFree(p: Pairs, q: Pairs, token: string, f: Foreign)
    requires IsQueryDict(p) && IsQueryDict(q)
    requires forall x :: x in p <==> x in q
    ensures VerifyWebAppData(p, token, f) == VerifyWebAppData(q, token, f)
  {
    LookupByContent(p, q, "hash");
    LookupByContent(p, q, "user");
    VerifyWebAppDataCases(p, token, f);
    VerifyWebAppDataCases(q, token, f);
    DataCheckStringOrderFree(Pop(p, "hash"), Pop(q, "hash"));
  }

  /**
   * When no key and no first value holds a newline, the data-check string
   * splits back into one line per field, in key order: the sorted fields
   * are exactly the ones the string encodes.
   */
  lemma DataCheckStringLines(rest: Pairs)
    requires IsQueryDict(rest) && rest != []
    requires forall i :: 0 <= i < |rest| ==> '\n' !in rest[i].0 && '\n' !in rest[i].1[0]
    ensures var sorted := SortByKey(rest);
      && (forall i :: 0 <= i < |sorted| ==> |sorted[i].1| > 0)
      && Split(DataCheckString(rest), '\n') == Lines(sorted)
      && |Split(DataCheckString(rest), '\n')| == |rest|
      && SortedByKey(sorted)
  {
    var sorted := SortByKey(rest);
    SortByKeySorted(rest);
    assert forall i :: 0 <= i < |sorted| ==> sorted[i] in multiset(rest);
    assert |sorted| == |rest| by {
      assert |multiset(sorted)| == |multiset(rest)|;
    }
    LinesNoNewline(sorted);
    SplitJoin(Lines(sorted), '\n');
  }

  /** A line has no newline when neither its key nor its value has one. */
  lemma {:induction false} LinesNoNewline(s: Pairs)
    requires forall i :: 0 <= i < |s| ==> |s[i].1| > 0 && '\n' !in s[i].0 && '\n' !in s[i].1[0]
    ensures forall i :: 0 <= i < |s| ==> '\n' !in Lines(s)[i]
    ensures forall i :: 0 <= i < |s| ==> Lines(s)[i] == s[i].0 + "=" + s[i].1[0]
  {
    if s != [] {
      LinesNoNewline(s[1..]);
      assert Lines(s) == [s[0].0 + "=" + s[0].1[0]] + Lines(s[1..]);
    }
  }

  /** Why verify_telegram_webapp_data gave up. */
  datatype AuthError = HashNotFound | InvalidHash | UserDataNotFound | BadUserJson(message: string)

  /** The text of the ValueError each failure raises. */
  function Reason(e: AuthError): string
  {
    match e
    case HashNotFound => "Hash not found in init data"
    case InvalidHash => "Invalid hash"
    case UserDataNotFound => "User data not found"
    case BadUserJson(m) => m
  }

  /** Every failure is re-raised under one prefix. */
  function Detail(e: AuthError): (d: string)
    ensures |d| >= |"Authentication failed: "|
    ensures d[..|"Authentication failed: "|] == "Authentication failed: "
    ensures d[|"Authentication failed: "|..] == Reason(e)
  {
    "Authentication failed: " + Reason(e)
  }

  /** The secret key: HMAC-SHA-256 of the bot token under the key "WebAppData". */
  function SecretKey(f: Foreign, token: string): seq<bv8>
  {
    f.hmacSha256(f.utf8("WebAppData"), f.utf8(token))
  }

  /** The hex digest the supplied hash must equal. */
  function ExpectedHash(f: Foreign, token: string, rest: Pairs): string
    requires IsQueryDict(rest)
  {
    f.hexDigest(f.hmacSha256(SecretKey(f, token), f.utf8(DataCheckString(rest))))
  }

  /**
   * verify_telegram_webapp_data on the parsed init data: the hash must be
   * present, then match, then the user field must be present and decode.
   */
  function VerifyWebAppData(p: Pairs, token: string, f: Foreign): Result<UserJson, AuthError>
    requires IsQueryDict(p)
  {
    match Lookup(p, "hash")
    case None => Err(HashNotFound)
    case Some(hashValues) =>
      PopQueryDict(p, "hash");
      var rest := Pop(p, "hash");
      if ExpectedHash(f, token, rest) != hashValues[0] then Err(InvalidHash)
      else
        match Lookup(rest, "user")
        case None => Err(UserDataNotFound)
        case Some(userValues) =>
          match f.jsonLoads(userValues[0])
          case Err(m) => Err(BadUserJson(m))
          case Ok(u) => Ok(u)
  }

  /**
   * The checks in their order: no hash field is HashNotFound; a hash that
   * is not the expected digest is InvalidHash; the init data is accepted
   * exactly when the hash matches and the user field is present and
   * decodes, and then the result is the decoded user; with a matching hash,
   * a missing user field is UserDataNotFound and one that does not decode
   * is BadUserJson with the decoder's message.
   */
  lemma VerifyWebAppDataCases(p: Pairs, token: string, f: Foreign)
    requires IsQueryDict(p)
    ensures IsQueryDict(Pop(p, "hash"))
    ensures var r := VerifyWebAppData(p, token, f);
      && (r == Err(HashNotFound) <==> Lookup(p, "hash").None?)
      && (r == Err(InvalidHash) <==>
            Lookup(p, "hash").Some? && Lookup(p, "hash").value[0] != ExpectedHash(f, token, Pop(p, "hash")))
      && (r.Ok? <==>
            && Lookup(p, "hash").Some?
            && Lookup(p, "hash").value[0] == ExpectedHash(f, token, Pop(p, "hash"))
            && Lookup(p, "user").Some?
            && f.jsonLoads(Lookup(p, "user").value[0]).Ok?)
      && (r.Ok? ==> r.value == f.jsonLoads(Lookup(p, "user").value[0]).value)
      && (r == Err(UserDataNotFound) <==>
            && Lookup(p, "hash").Some?
            && Lookup(p, "hash").value[0] == ExpectedHash(f, token, Pop(p, "hash"))
            && Lookup(p, "user").None?)
      && (forall m :: r == Err(BadUserJson(m)) <==>
            && Lookup(p, "hash").Some?
            && Lookup(p, "hash").value[0] == ExpectedHash(f, token, Pop(p, "hash"))
            && Lookup(p, "user").Some?
            && f.jsonLoads(Lookup(p, "user").value[0]) == Err(m))
  {
    PopQueryDict(p, "hash");
    LookupPop(p, "hash", "user");
  }

  /** Popping one key leaves the lookup of any other key as it was. */
  lemma LookupPop(p: Pairs, k: string, other: string)
    requires IsQueryDict(p) && k != other
    ensures Lookup(Pop(p, k), other) == Lookup(p, other)
  {
    PopQueryDict(p, k);
    var rest := Pop(p, k);
    match Lookup(p, other)
    case None =>
      forall i | 0 <= i < |rest| ensures rest[i].0 != other {
        assert rest[i] in rest;
      }
    case Some(vs) =>
      assert (other, vs) in rest;
      var r := Lookup(rest, other);
      assert (other, r.value) in p;
      var a :| 0 <= a < |p| && p[a] == (other, r.value);
      var b :| 0 <= b < |p| && p[b] == (other, vs);
      assert a == b;
  }

  /** The ways verify_telegram_auth ends without a user. */
  datatype AuthFailure =
    | Unauthorized(detail: string)
      /** user_data['id'] raises a KeyError, which the handler does not catch. */
    | MissingUserId

  /**
   * verify_telegram_auth: a missing or empty header is refused before any
   * check; a failed check is refused with its message; a verified user
   * object without an id escapes as an uncaught error; otherwise the
   * account is found or created by Telegram id.
   */
  method VerifyTelegramAuth(db: Database, header: Option<string>, token: string, f: Foreign, now: Time)
    returns (r: Result<User, AuthFailure>)
    requires db.Valid() && WellFormed(f)
    modifies db`users
    ensures db.Valid()
    ensures header.None? || header.value == "" ==>
      r == Err(Unauthorized("Authentication required")) && db.users == old(db.users)
    ensures header.Some? && header.value != "" ==>
      match VerifyWebAppData(f.parseQs(header.value), token, f)
      case Err(e) => r == Err(Unauthorized(Detail(e))) && db.users == old(db.users)
      case Ok(u) =>
        if u.id.None? then r == Err(MissingUserId) && db.users == old(db.users)
        else
          && r.Ok? && r.value.telegramId == u.id.value && r.value in db.users
          && match TelegramIndex(old(db.users), u.id.value)
             case Some(k) =>
               && r.value == old(db.users)[k].(lastActive := now,
                                                username := if u.username.Some? && u.username.value != "" then u.username
                                                            else old(db.users)[k].username)
               && db.users == old(db.users)[k := r.value]
             case None =>
               && r.value == User(|old(db.users)| + 1, u.id.value, u.username, None, now, now, 0, 0, 0, 0)
               && db.users == old(db.users) + [r.value]
  {
    if header.None? || header.value == "" {
      return Err(Unauthorized("Authentication required"));
    }
    var parsed := f.parseQs(header.value);
    var verified := VerifyWebAppData(parsed, token, f);
    match verified
    case Err(e) =>
      r := Err(Unauthorized(Detail(e)));
    case Ok(u) =>
      if u.id.None? {
        r := Err(MissingUserId);
      } else {
        var user := db.GetOrCreate(u.id.value, u.username, now);
        r := Ok(user);
      }
  }
}
