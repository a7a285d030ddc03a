/** The store side of the two registration flows, which the client and market
    services write out identically under their own key prefixes: issuing a code
    and checking a submitted code against the pending record. */
module OtpFlow {
  import opened Common
  import opened Crypto
  import opened KeyValue
  import opened Otp

  const Expired: string := "OTP expired"
  const AttemptsExceeded: string := "OTP attempts exceeded"
  const Incorrect: string := "OTP is incorrect"

  /** The entry stored under `key`, expired or not. */
  function EntryAt(entries: map<string, Entry>, key: string): Option<Entry> {
    if key in entries then Some(entries[key]) else None
  }

  /** Writes back the entry a step leaves for `key` (`None`: the key is deleted). */
  function Apply(entries: map<string, Entry>, key: string, next: Option<Entry>): (r: map<string, Entry>)
    ensures forall k :: k != key ==> (k in r <==> k in entries)
    ensures forall k :: k in r && k != key ==> r[k] == entries[k]
    ensures next.None? ==> key !in r
    ensures next.Some? ==> key in r && r[key] == next.value
  {
    if next.Some? then entries[key := next.value] else entries - {key}
  }

  /** What a verification does to one key: the error or success it reports and
      the entry it leaves behind. */
  datatype Step = Step(result: Result<Unit>, next: Option<Entry>)

  /** There is an entry at `now`: present and not past its expiry. */
  predicate Live(e: Option<Entry>, now: int) {
    e.Some? && (e.value.expiry.None? || now < e.value.expiry.value)
  }

  /** Checking `code` against the entry `e` at time `now`:
      - nothing live: "OTP expired", nothing changes;
      - a verified marker where a record was expected: `JSON.parse` yields a
        number, bcrypt is handed an undefined digest and throws;
      - five or more failed attempts: refused before the code is compared;
      - a wrong code: one more attempt, same digest, and the expiry the record
        already had (a fresh 300 seconds only for a record without expiry);
      - the right code: the record is deleted. */
  function CheckStep(hasher: Hasher, e: Option<Entry>, now: int, code: string): (s: Step)
    ensures !Live(e, now) ==> s == Step(Err(BadRequest(Expired)), e)
    ensures s.result.Ok? <==>
      Live(e, now) && e.value.value.OtpRecord? && e.value.value.attempts < MaxAttempts
      && hasher.compare(code, e.value.value.hash)
    ensures s.result.Ok? ==> s.next.None?
    ensures s.next.None? ==> s.result.Ok? || e.None?
    ensures s.result.Err? && s.next != e ==>
      && s.result == Err(BadRequest(Incorrect))
      && s.next.Some? && e.Some? && e.value.value.OtpRecord?
      && s.next.value.value == OtpRecord(e.value.value.hash, e.value.value.attempts + 1)
  {
    if e.None? || (e.value.expiry.Some? && now >= e.value.expiry.value) then Step(Err(BadRequest(Expired)), e)
    else match e.value.value
      case Marker => Step(Err(OtherError("Error")), e)
      case OtpRecord(h, a) =>
        if a >= MaxAttempts then Step(Err(BadRequest(AttemptsExceeded)), e)
        else if !hasher.compare(code, h) then
          var expiry := if e.value.expiry.Some? then e.value.expiry.value else now + OtpTtlSeconds;
          Step(Err(BadRequest(Incorrect)), Some(Entry(OtpRecord(h, a + 1), Some(expiry))))
        else Step(Ok(Unit), None)
  }

  /** A record never goes past five attempts. */
  lemma AttemptsStayBounded(hasher: Hasher, e: Option<Entry>, now: int, code: string)
    requires e.Some? && e.value.value.OtpRecord? && e.value.value.attempts <= MaxAttempts
    ensures var s := CheckStep(hasher, e, now, code);
            s.next.Some? ==> s.next.value.value.OtpRecord? && s.next.value.value.attempts <= MaxAttempts
  {
  }

  /** A failed attempt never extends the life of a record that had an expiry. */
  lemma ExpiryNeverExtended(hasher: Hasher, e: Option<Entry>, now: int, code: string)
    requires e.Some? && e.value.expiry.Some?
    ensures var s := CheckStep(hasher, e, now, code);
            s.next.Some? ==> s.next.value.expiry == e.value.expiry
  {
  }

  /** A wrong code costs exactly one attempt and keeps the digest. */
  lemma WrongCodeCountsOnce(hasher: Hasher, h: string, a: int, expiry: Option<int>, now: int, code: string)
    requires a < MaxAttempts && (expiry.None? || now < expiry.value)
    requires !hasher.compare(code, h)
    ensures var s := CheckStep(hasher, Some(Entry(OtpRecord(h, a), expiry)), now, code);
            s.result == Err(BadRequest(Incorrect)) && s.next.Some? && s.next.value.value == OtpRecord(h, a + 1)
  {
  }

  /** Once exhausted, even the right code is refused and the record stays. */
  lemma ExhaustedRefusesEverything(hasher: Hasher, h: string, a: int, expiry: Option<int>, now: int, code: string)
    requires a >= MaxAttempts && (expiry.None? || now < expiry.value)
    ensures CheckStep(hasher, Some(Entry(OtpRecord(h, a), expiry)), now, code)
            == Step(Err(BadRequest(AttemptsExceeded)), Some(Entry(OtpRecord(h, a), expiry)))
  {
  }

  /** With an ideal bcrypt, a live record with attempts left accepts exactly the
      code its digest was made from: a code issued earlier and overwritten by a
      newer one no longer verifies. */
  lemma OnlyIssuedCodeVerifies(hasher: Hasher, issued: string, a: int, expiry: Option<int>, now: int, code: string)
    requires Crypto.Sound(hasher)
    requires a < MaxAttempts && (expiry.None? || now < expiry.value)
    ensures CheckStep(hasher, Some(Entry(OtpRecord(hasher.hash(issued), a), expiry)), now, code).result.Ok? <==> code == issued
  {
    assert hasher.compare(issued, hasher.hash(issued));
    if hasher.compare(code, hasher.hash(issued)) {
      assert code == issued;
    }
  }

  /** `set(key, JSON.stringify({hash, attempts: 0}), 'EX', 300)` for a fresh
      code: any earlier record under the key is overwritten. */
  method IssueCode(store: Store, hasher: Hasher, key: string, entropy: nat) returns (code: string)
    modifies store
    ensures code == OtpCode(entropy)
    ensures store.entries == old(store.entries)[key := Entry(OtpRecord(hasher.hash(code), 0), Some(old(store.now) + OtpTtlSeconds))]
    ensures store.now == old(store.now)
  {
    code := OtpCode(entropy);
    var hash := hasher.hash(code);
    store.Set(key, OtpRecord(hash, 0), OtpTtlSeconds);
  }

  /** The get / attempts / compare / ttl / set-or-delete sequence of
      `verifyRegisterOtp`, as `CheckStep` describes it. */
  method CheckCode(store: Store, hasher: Hasher, key: string, code: string) returns (r: Result<Unit>)
    modifies store
    ensures r == CheckStep(hasher, EntryAt(old(store.entries), key), old(store.now), code).result
    ensures store.entries == Apply(old(store.entries), key, CheckStep(hasher, EntryAt(old(store.entries), key), old(store.now), code).next)
    ensures store.now == old(store.now)
  {
    var raw := store.Get(key);
    if raw.None? {
      return Err(BadRequest(Expired));
    }
    match raw.value
    case Marker =>
      return Err(OtherError("Error"));
    case OtpRecord(h, a) =>
      if a >= MaxAttempts {
        return Err(BadRequest(AttemptsExceeded));
      }
      var ok := hasher.compare(code, h);
      if !ok {
        var ttl := store.Ttl(key);
        var next := OtpRecord(h, a + 1);
        if ttl > 0 {
          store.Set(key, next, ttl);
        } else {
          store.Set(key, next, OtpTtlSeconds);
        }
        return Err(BadRequest(Incorrect));
      }
      store.Del(key);
      return Ok(Unit);
  }
}
