/** E-mail verification codes (backend/app/application/services/email_service.py):
  * a six-digit code per address, kept in the cache for five minutes,
  * good for one successful check and for no more than three checks in
  * all, and not re-sent within a minute. The cache is a map from keys to
  * entries with the time at which its own TTL drops them; clock readings,
  * the random draw and the SMTP outcome are passed in. */
module EmailVerification {
  import opened Wrappers
  import opened PyStr
  import AuthSchemas

  const Prefix: string := "verification_code:"
  const ExpirySeconds: int := 300
  const MaxAttempts: int := 3
  const ResendSeconds: int := 60
  const ConfigError: string := "Email configuration is incomplete"
  /** The error left by a missing or malformed field that the code does
    * not catch (a `KeyError`, `ValueError` or `TypeError`). */
  const DataError: string := "malformed verification data"

  /** A field of a stored entry: absent (a `KeyError` when read), present
    * but unusable, or a value. On the two times, `Malformed` is a string
    * `fromisoformat` rejects with a `ValueError`, which resending and
    * cleanup catch; a time stored with the wrong type, whose `TypeError`
    * they do not catch, is not represented. On the attempt counter it is
    * a value the comparison with 3 raises on, and on the code a value
    * that never equals the code given. */
  datatype Field<T> = Missing | Malformed | Present(value: T)

  /** The stored `code_data`; `others` marks keys the service never reads. */
  datatype Entry = Entry(code: Field<string>, createdAt: Field<int>, expiresAt: Field<int>, attempts: Field<int>,
                         others: bool)
  {
    /** Python truthiness of the stored dict: it has at least one key. */
    predicate Truthy()
    {
      !code.Missing? || !createdAt.Missing? || !expiresAt.Missing? || !attempts.Missing? || others
    }
  }

  /** A cache entry and the time its TTL runs out. */
  datatype Cached = Cached(data: Entry, deadline: int)

  type Cache = map<string, Cached>

  function Key(email: string): string
  {
    Prefix + email
  }

  /** `cache.get(key)` at time `now`: entries past their TTL are gone. */
  function Get(cache: Cache, key: string, now: int): (r: Option<Entry>)
    ensures r.Some? <==> key in cache && now < cache[key].deadline
    ensures r.Some? ==> r.value == cache[key].data
  {
    if key in cache && now < cache[key].deadline then Some(cache[key].data) else None
  }

  /** `_generate_verification_code` for the draw `n` of
    * `random.randint(100000, 999999)`: six digits, no leading zero, and
    * accepted by the reset-password request schema. */
  function GenerateCode(n: int): (r: string)
    requires 100000 <= n <= 999999
    ensures |r| == 6 && AllDigits(r) && r[0] != '0'
    ensures ParseInt(r) == Some(n)
    ensures AuthSchemas.ValidateCode(r) == Ok(r)
  {
    assert Pow10(5) == 100000 && Pow10(6) == 1000000;
    NatToStrLength(n, 6);
    ParseIntToStr(n);
    NatToStr(n)
  }

  /** The entry `_store_verification_code` writes at time `now`. */
  function FreshEntry(code: string, now: int): (r: Entry)
    ensures r.Truthy() && r.attempts == Present(0) && r.code == Present(code)
    ensures r.expiresAt == Present(now + ExpirySeconds) && r.createdAt == Present(now)
  {
    Entry(Present(code), Present(now), Present(now + ExpirySeconds), Present(0), false)
  }

  /** What `verify_code` does to the cache entry. */
  datatype Action = Keep | Delete | Put(entry: Entry, ttl: int)

  /** `verify_code` on the entry read from the cache at time `now`: the
    * answer (an `Err` for an exception raised by malformed data) and what
    * becomes of the entry. */
  function VerifyOutcome(stored: Option<Entry>, code: string, now: int): (r: (Result<bool, string>, Action))
    ensures stored.None? || !stored.value.Truthy() ==> r == (Ok(false), Keep)
    ensures r.0 == Ok(true) ==> r.1 == Delete && stored.Some? && stored.value.code == Present(code)
    ensures r.0.Err? ==> r.1 == Keep
    ensures r.1.Put? ==> r.0 == Ok(false) && r.1.ttl > 0 && stored.Some?
                         && stored.value.attempts.Present? && stored.value.expiresAt.Present?
                         && r.1.entry == stored.value.(attempts := Present(stored.value.attempts.value + 1))
                         && r.1.ttl == stored.value.expiresAt.value - now
  {
    if stored.None? || !stored.value.Truthy() then (Ok(false), Keep)
    else
      var data := stored.value;
      match data.expiresAt
      case Missing => (Err(DataError), Keep)
      case Malformed => (Err(DataError), Keep)
      case Present(expires) =>
        if now > expires then (Ok(false), Delete)
        else
          match data.attempts
          case Missing => (Err(DataError), Keep)
          case Malformed => (Err(DataError), Keep)
          case Present(attempts) =>
            if attempts >= MaxAttempts then (Ok(false), Delete)
            else
              var updated := data.(attempts := Present(attempts + 1));
              match data.code
              case Missing => (Err(DataError), Keep)
              case Malformed => (Ok(false), if expires - now > 0 then Put(updated, expires - now) else Keep)
              case Present(stored) =>
                if stored == code then (Ok(true), Delete)
                else (Ok(false), if expires - now > 0 then Put(updated, expires - now) else Keep)
  }

  /** An expired entry, or one already checked three times, is deleted and
    * the check fails, whatever code is offered. */
  lemma ExpiredOrExhaustedDeleted(e: Entry, code: string, now: int)
    requires e.Truthy() && e.expiresAt.Present?
    requires now > e.expiresAt.value || (e.attempts.Present? && e.attempts.value >= MaxAttempts)
    ensures VerifyOutcome(Some(e), code, now) == (Ok(false), Delete)
  {
  }

  /** A fresh code is accepted, and thereby used up, by a check within
    * its five minutes. */
  lemma FreshCodeAccepted(code: string, created: int, now: int)
    requires created <= now <= created + ExpirySeconds
    ensures VerifyOutcome(Some(FreshEntry(code, created)), code, now) == (Ok(true), Delete)
  {
  }

  /** The entry a wrong guess leaves behind, if any. */
  function AfterWrongGuess(e: Entry, guess: string, now: int): (r: Option<Entry>)
    ensures r.Some? ==> e.attempts.Present? && r.value == e.(attempts := Present(e.attempts.value + 1))
  {
    match VerifyOutcome(Some(e), guess, now).1
    case Put(next, _) => Some(next)
    case _ => None
  }

  /** Three wrong guesses use a code up: after them not even the right
    * code is accepted, whenever the guesses and the final check are made. */
  lemma {:induction false} ThreeStrikes(code: string, created: int, g1: string, g2: string, g3: string,
                                        t1: int, t2: int, t3: int, t4: int)
    requires g1 != code && g2 != code && g3 != code
    requires AfterWrongGuess(FreshEntry(code, created), g1, t1).Some?
    requires AfterWrongGuess(AfterWrongGuess(FreshEntry(code, created), g1, t1).value, g2, t2).Some?
    requires AfterWrongGuess(AfterWrongGuess(AfterWrongGuess(FreshEntry(code, created), g1, t1).value, g2, t2).value,
                             g3, t3).Some?
    ensures var e3 := AfterWrongGuess(AfterWrongGuess(AfterWrongGuess(FreshEntry(code, created), g1, t1).value, g2, t2).value,
                                      g3, t3).value;
            e3.attempts == Present(3) && VerifyOutcome(Some(e3), code, t4).0 == Ok(false)
  {
    var e0 := FreshEntry(code, created);
    var e1 := AfterWrongGuess(e0, g1, t1).value;
    assert e1 == e0.(attempts := Present(1));
    var e2 := AfterWrongGuess(e1, g2, t2).value;
    assert e2 == e0.(attempts := Present(2));
    var e3 := AfterWrongGuess(e2, g3, t3).value;
    assert e3 == e0.(attempts := Present(3));
  }

  /** `send_verification_code`'s decision before anything is sent: with an
    * incomplete configuration it fails before the cache is read; a
    * readable creation time less than a minute old refuses with the wait
    * left; unreadable data is ignored. */
  function ResendCheck(configComplete: bool, existing: Option<Entry>, now: int): (r: Result<(), string>)
    ensures !configComplete ==> r == Err(ConfigError)
    ensures configComplete && (existing.None? || !existing.value.Truthy() || !existing.value.createdAt.Present?) ==> r.Ok?
    ensures configComplete && existing.Some? && existing.value.Truthy() && existing.value.createdAt.Present? ==>
              (r.Err? <==> now - existing.value.createdAt.value < ResendSeconds)
  {
    if !configComplete then Err(ConfigError)
    else if existing.None? || !existing.value.Truthy() then Ok(())
    else
      match existing.value.createdAt
      case Present(created) =>
        if now - created < ResendSeconds then
          Err("Please wait " + IntToStr(ResendSeconds - (now - created))
              + " seconds before requesting a new verification code")
        else Ok(())
      case _ => Ok(())
  }

  /** Whether `cleanup_expired_codes` deletes the entry at `key`: it is
    * there, truthy, and either expired or without a readable expiry. */
  predicate Doomed(cache: Cache, key: string, now: int)
  {
    var e := Get(cache, key, now);
    e.Some? && e.value.Truthy() && (!e.value.expiresAt.Present? || now > e.value.expiresAt.value)
  }

  class EmailService {
    var cache: Cache

    constructor (cache: Cache)
      ensures this.cache == cache
    {
      this.cache := cache;
    }

    /** `_store_verification_code(email, code)` at time `now`. */
    method StoreCode(email: string, code: string, now: int)
      modifies this
      ensures cache == old(cache)[Key(email) := Cached(FreshEntry(code, now), now + ExpirySeconds)]
    {
      cache := cache[Key(email) := Cached(FreshEntry(code, now), now + ExpirySeconds)];
    }

    /** `verify_code(email, code)` at time `now`. */
    method VerifyCode(email: string, code: string, now: int) returns (r: Result<bool, string>)
      modifies this
      ensures var (answer, action) := VerifyOutcome(Get(old(cache), Key(email), now), code, now);
              r == answer
              && (action.Keep? ==> cache == old(cache))
              && (action.Delete? ==> cache == old(cache) - {Key(email)})
              && (action.Put? ==> cache == old(cache)[Key(email) := Cached(action.entry, now + action.ttl)])
    {
      var key := Key(email);
      var outcome := VerifyOutcome(Get(cache, key, now), code, now);
      r := outcome.0;
      match outcome.1
      case Keep =>
      case Delete =>
        cache := cache - {key};
      case Put(entry, ttl) =>
        cache := cache[key := Cached(entry, now + ttl)];
    }

    /** `send_verification_code(email)` at time `now`, drawing `draw` for
      * the code; `sent` says whether the SMTP exchange succeeded. The code
      * is stored only once it has been sent, and nothing is stored when the
      * request is refused. The source returns nothing; the code in `Ok` is
      * this model's own addition, so that callers can speak about it. */
    method SendVerificationCode(email: string, configComplete: bool, now: int, draw: int, sent: bool)
      returns (r: Result<string, string>)
      requires 100000 <= draw <= 999999
      modifies this
      ensures var check := ResendCheck(configComplete, Get(old(cache), Key(email), now), now);
              if check.Err? then r == Err(check.error) && cache == old(cache)
              else if !sent then r.Err? && cache == old(cache)
              else r == Ok(GenerateCode(draw))
                   && cache == old(cache)[Key(email) := Cached(FreshEntry(GenerateCode(draw), now), now + ExpirySeconds)]
    {
      if !configComplete {
        return Err(ConfigError);
      }
      var check := ResendCheck(configComplete, Get(cache, Key(email), now), now);
      if check.Err? {
        return Err(check.error);
      }
      var code := GenerateCode(draw);
      if !sent {
        return Err("SMTP delivery failed");
      }
      StoreCode(email, code, now);
      return Ok(code);
    }

    /** `cleanup_expired_codes` at time `now`, visiting the keys that
      * `cache.keys` listed: exactly the doomed entries among them go, and
      * every other entry stays as it was. */
    method CleanupExpiredCodes(keys: seq<string>, now: int)
      modifies this
      ensures forall k :: k in cache <==> k in old(cache) && !(k in keys && Doomed(old(cache), k, now))
      ensures forall k :: k in cache ==> cache[k] == old(cache)[k]
    {
      ghost var original := cache;
      var i := 0;
      while i < |keys|
        invariant 0 <= i <= |keys|
        invariant forall k :: k in cache <==> k in original && !(k in keys[..i] && Doomed(original, k, now))
        invariant forall k :: k in cache ==> cache[k] == original[k]
      {
        var key := keys[i];
        var data := Get(cache, key, now);
        if data.Some? && data.value.Truthy() {
          if !data.value.expiresAt.Present? || now > data.value.expiresAt.value {
            cache := cache - {key};
          }
        }
        assert keys[..i + 1] == keys[..i] + [key];
        i := i + 1;
      }
      assert keys[..i] == keys;
    }
  }
}
