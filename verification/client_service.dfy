/** `ClientService`: phone registration with one-time codes, bound to a random
    verification token, and the profile update of a client. */
module ClientService {
  import opened Common
  import opened Json
  import opened Strings
  import opened Crypto
  import opened KeyValue
  import opened Otp
  import opened OtpFlow
  import opened Entities
  import opened SuccessResponse

  const PhoneExists: string := "Phone number already exists"
  const UsernameExists: string := "Username already exists"
  const NotVerified: string := "Phone not verified"

  function OtpKey(phone: string): string {
    "otp:client:" + phone
  }

  function VerifiedKey(phone: string, token: string): string {
    "otp:client:verified:" + phone + ":" + token
  }

  /** `${dto.verifyToken}` inside the key template. */
  function Rendered(f: Field<string>): string {
    match f
    case Given(s) => s
    case Absent => "undefined"
    case Null => "null"
  }

  /** `safe(c)`: the row without its password. */
  function Safe(c: ClientAccount): (j: Json)
    ensures j.JObj? && !j.Has("password")
    ensures forall k :: k != "password" ==> j.Get(k) == ClientJson(c).Get(k)
  {
    JObj(Omit(ClientJson(c).fields, "password"))
  }

  /** Some row other than `except` has this phone number. */
  predicate PhoneTaken(rows: map<string, ClientAccount>, phone: string, except: Option<string>) {
    exists k :: k in rows && rows[k].phoneNumber == Some(phone) && Some(k) != except
  }

  predicate UsernameTaken(rows: map<string, ClientAccount>, username: string, except: Option<string>) {
    exists k :: k in rows && rows[k].username == Some(username) && Some(k) != except
  }

  /** The table's constraints on `save`: `fullName`, `username` and `phoneNumber`
      are NOT NULL, `username` and `phoneNumber` UNIQUE. */
  function SaveError(rows: map<string, ClientAccount>, c: ClientAccount): (e: Option<Exception>)
    ensures e.None? <==> c.fullName.Some? && c.username.Some? && c.phoneNumber.Some?
                         && !UsernameTaken(rows, c.username.value, Some(c.id))
                         && !PhoneTaken(rows, c.phoneNumber.value, Some(c.id))
    ensures e.Some? ==> e.value == QueryFailedError(NotNullViolation) || e.value == QueryFailedError(UniqueViolation)
  {
    if c.fullName.None? || c.username.None? || c.phoneNumber.None? then Some(QueryFailedError(NotNullViolation))
    else if UsernameTaken(rows, c.username.value, Some(c.id)) || PhoneTaken(rows, c.phoneNumber.value, Some(c.id)) then
      Some(QueryFailedError(UniqueViolation))
    else None
  }

  /** The table as the database keeps it: rows under their own ids, usernames
      and phone numbers unique. */
  ghost predicate Consistent(rows: map<string, ClientAccount>) {
    && (forall k :: k in rows ==> rows[k].id == k)
    && (forall a, b :: a in rows && b in rows && a != b && rows[a].username.Some? ==> rows[a].username != rows[b].username)
    && (forall a, b :: a in rows && b in rows && a != b && rows[a].phoneNumber.Some? ==> rows[a].phoneNumber != rows[b].phoneNumber)
  }

  /** A save the constraints accept keeps the table consistent. */
  lemma SaveKeepsConsistent(rows: map<string, ClientAccount>, c: ClientAccount)
    requires Consistent(rows) && SaveError(rows, c).None?
    ensures Consistent(rows[c.id := c])
  {
    var r := rows[c.id := c];
    forall a, b | a in r && b in r && a != b && r[a].username.Some?
      ensures r[a].username != r[b].username
    {
      if a == c.id {
        assert !UsernameTaken(rows, c.username.value, Some(c.id));
        assert b in rows;
      } else if b == c.id {
        assert !UsernameTaken(rows, c.username.value, Some(c.id));
      }
    }
    forall a, b | a in r && b in r && a != b && r[a].phoneNumber.Some?
      ensures r[a].phoneNumber != r[b].phoneNumber
    {
      if a == c.id {
        assert !PhoneTaken(rows, c.phoneNumber.value, Some(c.id));
        assert b in rows;
      } else if b == c.id {
        assert !PhoneTaken(rows, c.phoneNumber.value, Some(c.id));
      }
    }
  }

  /** `RegisterClientDto` as the service reads it. */
  datatype RegisterDto = RegisterDto(
    phoneNumber: string,
    verifyToken: Field<string>,
    fullName: Field<string>,
    username: Field<string>,
    password: string,
    language: Option<Language>)

  /** `findOne({ where: { username: dto.username } })`: an undefined or null
      criterion is dropped, so then any row matches; a given one is compared
      untrimmed. */
  predicate RegisterUsernameTaken(rows: map<string, ClientAccount>, username: Field<string>) {
    if username.Given? then UsernameTaken(rows, username.value, None) else |rows| > 0
  }

  /** What `completeRegister` decides on a snapshot of the store and the table:
      the row it saves, or the error it throws. */
  function RegisterOutcome(hasher: Hasher, entries: map<string, Entry>, now: int, rows: map<string, ClientAccount>,
                           dto: RegisterDto, newId: string): (r: Result<ClientAccount>)
    ensures ValueAt(entries, now, VerifiedKey(Trim(dto.phoneNumber), Rendered(dto.verifyToken))).None? ==>
      r == Err(BadRequest(NotVerified))
    ensures (ValueAt(entries, now, VerifiedKey(Trim(dto.phoneNumber), Rendered(dto.verifyToken))).Some? &&
             RegisterUsernameTaken(rows, dto.username)) ==> r == Err(Conflict(UsernameExists))
    ensures (ValueAt(entries, now, VerifiedKey(Trim(dto.phoneNumber), Rendered(dto.verifyToken))).Some? &&
             !RegisterUsernameTaken(rows, dto.username) && PhoneTaken(rows, Trim(dto.phoneNumber), None)) ==>
      r == Err(Conflict(PhoneExists))
    ensures (ValueAt(entries, now, VerifiedKey(Trim(dto.phoneNumber), Rendered(dto.verifyToken))).Some? &&
             !RegisterUsernameTaken(rows, dto.username) && !PhoneTaken(rows, Trim(dto.phoneNumber), None) &&
             !dto.username.Given?) ==> r == Err(TypeError)
    ensures r.Ok? ==>
      && ValueAt(entries, now, VerifiedKey(Trim(dto.phoneNumber), Rendered(dto.verifyToken))).Some?
      && !PhoneTaken(rows, Trim(dto.phoneNumber), None)
      && dto.username.Given?
      && r.value == ClientAccount(newId, dto.fullName.OrNull(), Some(Trim(dto.username.value)), hasher.hash(dto.password),
                                  Some(Trim(dto.phoneNumber)), None, dto.language.GetOr(UZ), Client, true)
      && SaveError(rows, r.value).None?
  {
    var phone := Trim(dto.phoneNumber);
    if ValueAt(entries, now, VerifiedKey(phone, Rendered(dto.verifyToken))).None? then Err(BadRequest(NotVerified))
    else if RegisterUsernameTaken(rows, dto.username) then Err(Conflict(UsernameExists))
    else if PhoneTaken(rows, phone, None) then Err(Conflict(PhoneExists))
    else if !dto.username.Given? then Err(TypeError)
    else
      var c := ClientAccount(newId, dto.fullName.OrNull(), Some(Trim(dto.username.value)), hasher.hash(dto.password),
                             Some(phone), None, dto.language.GetOr(UZ), Client, true);
      match SaveError(rows, c)
      case Some(e) => Err(e)
      case None => Ok(c)
  }

  /** The username is looked up as sent but stored trimmed: a padded copy of an
      existing username passes the service's check and is refused by the
      table's UNIQUE constraint instead. */
  lemma PaddedUsernameHitsConstraint(hasher: Hasher, entries: map<string, Entry>, now: int,
                                     rows: map<string, ClientAccount>, dto: RegisterDto, newId: string, owner: string)
    requires newId !in rows
    requires ValueAt(entries, now, VerifiedKey(Trim(dto.phoneNumber), Rendered(dto.verifyToken))).Some?
    requires !PhoneTaken(rows, Trim(dto.phoneNumber), None)
    requires dto.username.Given? && !UsernameTaken(rows, dto.username.value, None)
    requires owner in rows && rows[owner].username == Some(Trim(dto.username.value))
    requires dto.fullName.Given?
    ensures RegisterOutcome(hasher, entries, now, rows, dto, newId) == Err(QueryFailedError(UniqueViolation))
  {
    var c := ClientAccount(newId, dto.fullName.OrNull(), Some(Trim(dto.username.value)), hasher.hash(dto.password),
                           Some(Trim(dto.phoneNumber)), None, dto.language.GetOr(UZ), Client, true);
    assert SaveError(rows, c) == Some(QueryFailedError(UniqueViolation)) by {
      assert owner in rows && rows[owner].username == Some(Trim(dto.username.value)) && Some(owner) != Some(newId);
      assert UsernameTaken(rows, Trim(dto.username.value), Some(newId));
    }
    assert !RegisterUsernameTaken(rows, dto.username);
    RegisterReachesSave(hasher, entries, now, rows, dto, newId, c);
  }

  /** Past the service's own checks, `completeRegister` ends with the save. */
  lemma RegisterReachesSave(hasher: Hasher, entries: map<string, Entry>, now: int,
                            rows: map<string, ClientAccount>, dto: RegisterDto, newId: string, c: ClientAccount)
    requires ValueAt(entries, now, VerifiedKey(Trim(dto.phoneNumber), Rendered(dto.verifyToken))).Some?
    requires !RegisterUsernameTaken(rows, dto.username) && !PhoneTaken(rows, Trim(dto.phoneNumber), None)
    requires dto.username.Given?
    requires c == ClientAccount(newId, dto.fullName.OrNull(), Some(Trim(dto.username.value)), hasher.hash(dto.password),
                                Some(Trim(dto.phoneNumber)), None, dto.language.GetOr(UZ), Client, true)
    ensures RegisterOutcome(hasher, entries, now, rows, dto, newId) == (if SaveError(rows, c).Some? then Err(SaveError(rows, c).value) else Ok(c))
  {
  }

  /** Two markers for one phone are one key only when their tokens agree. */
  lemma VerifiedKeyDeterminesToken(phone: string, t: string, u: string)
    requires VerifiedKey(phone, t) == VerifiedKey(phone, u)
    ensures t == u
  {
    var n := |"otp:client:verified:" + phone + ":"|;
    assert VerifiedKey(phone, t)[n..] == t;
    assert VerifiedKey(phone, u)[n..] == u;
  }

  /** `RegisterClientDto` declares no `verifyToken`, so the whitelist pipe leaves it
      out and the key is read with the token `undefined`. The marker that
      `verifyRegisterOtp` writes under a real token does not satisfy it: unless a
      marker ending in `:undefined` is already live, registration answers
      "Phone not verified". */
  lemma AbsentTokenNeverVerified(hasher: Hasher, entries: map<string, Entry>, now: int, rows: map<string, ClientAccount>,
                                 dto: RegisterDto, newId: string, token: string, expiry: Option<int>)
    requires dto.verifyToken.Absent? && token != "undefined"
    requires ValueAt(entries, now, VerifiedKey(Trim(dto.phoneNumber), "undefined")).None?
    ensures RegisterOutcome(hasher, entries[VerifiedKey(Trim(dto.phoneNumber), token) := Entry(Marker, expiry)], now, rows, dto, newId)
            == Err(BadRequest(NotVerified))
  {
    var phone := Trim(dto.phoneNumber);
    if VerifiedKey(phone, token) == VerifiedKey(phone, "undefined") {
      VerifiedKeyDeterminesToken(phone, token, "undefined");
    }
  }

  /** The `Safe` projection of a registered client never carries the password. */
  lemma RegisteredViewHidesPassword(c: ClientAccount)
    ensures !SuccessRes(Safe(c), 201).data.Has("password") && SuccessRes(Safe(c), 201).statusCode == 201
  {
  }

  /** `UpdateClientDto` (`role` and `isActive` come from the partial DTO). */
  datatype UpdateDto = UpdateDto(
    fullName: Field<string>,
    username: Field<string>,
    phoneNumber: Field<string>,
    password: Field<string>,
    language: Field<Language>,
    role: Option<UserRole>,
    isActive: Option<bool>)

  /** `dto.phoneNumber?.trim() ?? null` */
  function NewPhone(f: Field<string>): Option<string> {
    if f.Given? then Some(Trim(f.value)) else None
  }

  /** The field assignments of `update`, one function per `if`. */
  function WithUsername(c: ClientAccount, dto: UpdateDto): ClientAccount {
    if Sent(dto.username) then c.(username := Some(Trim(dto.username.value))) else c
  }

  function WithPhone(c: ClientAccount, dto: UpdateDto): ClientAccount {
    if dto.phoneNumber.Defined() then c.(phoneNumber := NewPhone(dto.phoneNumber)) else c
  }

  function WithPassword(hasher: Hasher, c: ClientAccount, dto: UpdateDto): ClientAccount {
    if Sent(dto.password) then c.(password := hasher.hash(dto.password.value)) else c
  }

  function WithFullName(c: ClientAccount, dto: UpdateDto): ClientAccount {
    if dto.fullName.Defined() then c.(fullName := dto.fullName.OrNull()) else c
  }

  function WithLanguage(c: ClientAccount, dto: UpdateDto): ClientAccount {
    if dto.language.Given? then c.(language := dto.language.value) else c
  }

  function Edited(hasher: Hasher, c: ClientAccount, dto: UpdateDto): ClientAccount {
    WithLanguage(WithFullName(WithPassword(hasher, WithPhone(WithUsername(c, dto), dto), dto), dto), dto)
  }

  /** A non-empty username is sent that trims to one another row has. */
  predicate UsernameConflict(rows: map<string, ClientAccount>, id: string, dto: UpdateDto) {
    Sent(dto.username) && UsernameTaken(rows, Trim(dto.username.value), Some(id))
  }

  /** A phone is sent that trims to a non-empty one another row has. */
  predicate PhoneConflict(rows: map<string, ClientAccount>, id: string, dto: UpdateDto) {
    dto.phoneNumber.Given? && Trim(dto.phoneNumber.value) != "" && PhoneTaken(rows, Trim(dto.phoneNumber.value), Some(id))
  }

  /** What `update(id, dto)` decides on a snapshot of the table: the username
      conflict is checked before the phone conflict, both ignore the row itself,
      and the constraints of the table have the last word. A `language` sent as
      `null` is assigned too, and the NOT NULL enum column refuses it. */
  function UpdateOutcome(hasher: Hasher, rows: map<string, ClientAccount>, id: string, dto: UpdateDto): (r: Result<ClientAccount>)
    ensures id !in rows ==> r == Err(NotFound("Not found"))
    ensures r == Err(Conflict(UsernameExists)) <==> id in rows && UsernameConflict(rows, id, dto)
    ensures r == Err(Conflict(PhoneExists)) <==> id in rows && !UsernameConflict(rows, id, dto) && PhoneConflict(rows, id, dto)
    ensures id in rows && !UsernameConflict(rows, id, dto) && !PhoneConflict(rows, id, dto) && dto.language.Null? ==>
              r == Err(QueryFailedError(NotNullViolation))
    ensures r.Ok? ==> id in rows && !dto.language.Null? && r.value == Edited(hasher, rows[id], dto) && SaveError(rows, r.value).None?
  {
    if id !in rows then Err(NotFound("Not found"))
    else if UsernameConflict(rows, id, dto) then Err(Conflict(UsernameExists))
    else if PhoneConflict(rows, id, dto) then Err(Conflict(PhoneExists))
    else if dto.language.Null? then Err(QueryFailedError(NotNullViolation))
    else
      var c := Edited(hasher, rows[id], dto);
      match SaveError(rows, c)
      case Some(e) => Err(e)
      case None => Ok(c)
  }

  /** Only the fields the DTO sends change; `role`, `isActive` and `photoPath`
      never do. */
  lemma UpdatedFields(hasher: Hasher, rows: map<string, ClientAccount>, id: string, dto: UpdateDto)
    requires UpdateOutcome(hasher, rows, id, dto).Ok?
    ensures var c := UpdateOutcome(hasher, rows, id, dto).value;
      && c.id == rows[id].id && c.role == rows[id].role && c.isActive == rows[id].isActive
      && c.photoPath == rows[id].photoPath
      && c.username == (if Sent(dto.username) then Some(Trim(dto.username.value)) else rows[id].username)
      && c.phoneNumber == (if dto.phoneNumber.Defined() then NewPhone(dto.phoneNumber) else rows[id].phoneNumber)
      && c.password == (if Sent(dto.password) then hasher.hash(dto.password.value) else rows[id].password)
      && c.fullName == (if dto.fullName.Defined() then dto.fullName.OrNull() else rows[id].fullName)
      && c.language == (if dto.language.Given? then dto.language.value else rows[id].language)
  {
  }

  /** A client may send back its own username: uniqueness is checked against
      the other rows only. */
  lemma OwnUsernameDoesNotConflict(hasher: Hasher, rows: map<string, ClientAccount>, id: string, dto: UpdateDto)
    requires Consistent(rows) && id in rows
    requires dto.username.Given? && dto.username.value != "" && Trim(dto.username.value) == dto.username.value
    requires rows[id].username == Some(dto.username.value)
    ensures UpdateOutcome(hasher, rows, id, dto) != Err(Conflict(UsernameExists))
  {
  }

  /** `updateMe` drops `role` and `isActive`; `update` never reads them either,
      so both give the same result. */
  function WithoutPrivileged(dto: UpdateDto): (d: UpdateDto)
    ensures d.role.None? && d.isActive.None?
  {
    dto.(role := None, isActive := None)
  }

  lemma UpdateMeSameAsUpdate(hasher: Hasher, rows: map<string, ClientAccount>, id: string, dto: UpdateDto)
    ensures UpdateOutcome(hasher, rows, id, WithoutPrivileged(dto)) == UpdateOutcome(hasher, rows, id, dto)
  {
    var d := WithoutPrivileged(dto);
    assert d.username == dto.username && d.phoneNumber == dto.phoneNumber && d.password == dto.password
        && d.fullName == dto.fullName && d.language == dto.language;
    assert UsernameConflict(rows, id, d) == UsernameConflict(rows, id, dto);
    assert PhoneConflict(rows, id, d) == PhoneConflict(rows, id, dto);
    if id in rows {
      assert Edited(hasher, rows[id], d) == Edited(hasher, rows[id], dto);
    }
  }

  /** Past both conflict checks, `update` ends with the save of the edited row. */
  lemma UpdateReachesSave(hasher: Hasher, rows: map<string, ClientAccount>, id: string, dto: UpdateDto, c: ClientAccount)
    requires id in rows && !UsernameConflict(rows, id, dto) && !PhoneConflict(rows, id, dto)
    requires c == Edited(hasher, rows[id], dto)
    ensures UpdateOutcome(hasher, rows, id, dto) ==
      (if dto.language.Null? then Err(QueryFailedError(NotNullViolation))
       else if SaveError(rows, c).Some? then Err(SaveError(rows, c).value) else Ok(c))
  {
  }

  /** A successful update keeps the table consistent. */
  lemma UpdateKeepsConsistent(hasher: Hasher, rows: map<string, ClientAccount>, id: string, dto: UpdateDto)
    requires Consistent(rows)
    ensures Consistent(Stored(rows, id, UpdateOutcome(hasher, rows, id, dto)))
  {
    var o := UpdateOutcome(hasher, rows, id, dto);
    if o.Ok? {
      assert o.value.id == id by { UpdatedFields(hasher, rows, id, dto); }
      SaveKeepsConsistent(rows, o.value);
    }
  }

  /** So does a successful registration under a fresh id. */
  lemma RegisterKeepsConsistent(hasher: Hasher, entries: map<string, Entry>, now: int,
                                rows: map<string, ClientAccount>, dto: RegisterDto, newId: string)
    requires Consistent(rows) && newId !in rows
    ensures Consistent(Stored(rows, newId, RegisterOutcome(hasher, entries, now, rows, dto, newId)))
  {
    var o := RegisterOutcome(hasher, entries, now, rows, dto, newId);
    if o.Ok? {
      SaveKeepsConsistent(rows, o.value);
    }
  }

  /** The response of `update`: the saved row without its password, or the
      exception. */
  function Reply(o: Result<ClientAccount>): (r: Result<Success>)
    ensures r.Ok? <==> o.Ok?
    ensures o.Err? ==> r == Err(o.error)
    ensures o.Ok? ==> r.value.data == Safe(o.value) && r.value.statusCode == 200
  {
    match o
    case Ok(c) => Ok(SuccessRes(Safe(c)))
    case Err(e) => Err(e)
  }

  class ClientService {
    const store: Store
    const hasher: Hasher
    /** The `client` table by id. */
    var clients: map<string, ClientAccount>

    constructor(store: Store, hasher: Hasher, clients: map<string, ClientAccount>)
      ensures this.store == store && this.hasher == hasher && this.clients == clients
    {
      this.store := store;
      this.hasher := hasher;
      this.clients := clients;
    }

    /** `requestRegisterOtp`: refused for a registered phone, otherwise a fresh
        code replaces any pending one under `otp:client:{phone}`. */
    method RequestRegisterOtp(phoneNumber: string, entropy: nat) returns (r: Result<Success>)
      modifies store
      ensures store.now == old(store.now)
      ensures PhoneTaken(clients, Trim(phoneNumber), None) ==>
        r == Err(Conflict(PhoneExists)) && store.entries == old(store.entries)
      ensures !PhoneTaken(clients, Trim(phoneNumber), None) ==>
        && r == Ok(SuccessRes(JObj(map["otpCode" := JStr(OtpCode(entropy))])))
        && store.entries == old(store.entries)[OtpKey(Trim(phoneNumber)) :=
             Entry(OtpRecord(hasher.hash(OtpCode(entropy)), 0), Some(old(store.now) + OtpTtlSeconds))]
    {
      var phone := Trim(phoneNumber);
      if PhoneTaken(clients, phone, None) {
        return Err(Conflict(PhoneExists));
      }
      var code := IssueCode(store, hasher, OtpKey(phone), entropy);
      return Ok(SuccessRes(JObj(map["otpCode" := JStr(code)])));
    }

    /** `verifyRegisterOtp`: the verification step `CheckStep`; on success the record is
        gone and a marker bound to the phone and the returned token lives for
        600 seconds. */
    method VerifyRegisterOtp(phoneNumber: string, code: string, verifyToken: string) returns (r: Result<Success>)
      modifies store
      ensures store.now == old(store.now)
      ensures var step := CheckStep(hasher, EntryAt(old(store.entries), OtpKey(Trim(phoneNumber))), old(store.now), code);
        && (r.Ok? <==> step.result.Ok?)
        && (step.result.Err? ==>
              r == Err(step.result.error) &&
              store.entries == Apply(old(store.entries), OtpKey(Trim(phoneNumber)), step.next))
        && (step.result.Ok? ==>
              r == Ok(SuccessRes(JObj(map["verifyToken" := JStr(verifyToken)]))) &&
              store.entries == (old(store.entries) - {OtpKey(Trim(phoneNumber))})[
                VerifiedKey(Trim(phoneNumber), verifyToken) := Entry(Marker, Some(old(store.now) + VerifyTtlSeconds))])
    {
      var phone := Trim(phoneNumber);
      var checked := CheckCode(store, hasher, OtpKey(phone), code);
      if checked.Err? {
        return Err(checked.error);
      }
      store.Set(VerifiedKey(phone, verifyToken), Marker, VerifyTtlSeconds);
      return Ok(SuccessRes(JObj(map["verifyToken" := JStr(verifyToken)])));
    }

    /** `completeRegister`: saves the row `RegisterOutcome` decides on, then
        consumes the marker; on any error neither the table nor the store
        changes. */
    method CompleteRegister(dto: RegisterDto, newId: string) returns (r: Result<Success>)
      requires newId !in clients
      modifies this, store
      ensures store.now == old(store.now)
      ensures var o := RegisterOutcome(hasher, old(store.entries), old(store.now), old(clients), dto, newId);
        && (r.Ok? <==> o.Ok?)
        && (o.Err? ==> r == Err(o.error) && clients == old(clients) && store.entries == old(store.entries))
        && (o.Ok? ==>
              r == Ok(SuccessRes(Safe(o.value), 201)) &&
              clients == old(clients)[newId := o.value] &&
              store.entries == old(store.entries) - {VerifiedKey(Trim(dto.phoneNumber), Rendered(dto.verifyToken))})
    {
      var phone := Trim(dto.phoneNumber);
      var verifyKey := VerifiedKey(phone, Rendered(dto.verifyToken));
      var ok := store.Get(verifyKey);
      if ok.None? {
        return Err(BadRequest(NotVerified));
      }
      if RegisterUsernameTaken(clients, dto.username) {
        return Err(Conflict(UsernameExists));
      }
      if PhoneTaken(clients, phone, None) {
        return Err(Conflict(PhoneExists));
      }
      if !dto.username.Given? {
        return Err(TypeError);
      }
      var entity := ClientAccount(newId, dto.fullName.OrNull(), Some(Trim(dto.username.value)), hasher.hash(dto.password),
                                  Some(phone), None, dto.language.GetOr(UZ), Client, true);
      var failure := SaveError(clients, entity);
      if failure.Some? {
        return Err(failure.value);
      }
      clients := clients[newId := entity];
      store.Del(verifyKey);
      return Ok(SuccessRes(Safe(entity), 201));
    }

    /** `update(id, dto)`: the fields are assigned one by one, then saved. */
    method Update(id: string, dto: UpdateDto) returns (r: Result<Success>)
      modifies this
      ensures r == Reply(UpdateOutcome(hasher, old(clients), id, dto))
      ensures clients == Stored(old(clients), id, UpdateOutcome(hasher, old(clients), id, dto))
    {
      ghost var o := UpdateOutcome(hasher, clients, id, dto);
      if id !in clients {
        return Err(NotFound("Not found"));
      }
      var client := clients[id];
      if Sent(dto.username) {
        var username := Trim(dto.username.value);
        if UsernameTaken(clients, username, Some(id)) {
          assert o == Err(Conflict(UsernameExists));
          return Err(Conflict(UsernameExists));
        }
        client := client.(username := Some(username));
      }
      assert !UsernameConflict(clients, id, dto);
      assert client == WithUsername(clients[id], dto);
      if dto.phoneNumber.Defined() {
        var phone := NewPhone(dto.phoneNumber);
        if phone.Some? && phone.value != "" {
          if PhoneTaken(clients, phone.value, Some(id)) {
            assert o == Err(Conflict(PhoneExists));
            return Err(Conflict(PhoneExists));
          }
        }
        client := client.(phoneNumber := phone);
      }
      assert !PhoneConflict(clients, id, dto);
      assert client == WithPhone(WithUsername(clients[id], dto), dto);
      client := WithLanguage(WithFullName(WithPassword(hasher, client, dto), dto), dto);
      UpdateReachesSave(hasher, clients, id, dto, client);
      if dto.language.Null? {
        return Err(QueryFailedError(NotNullViolation));
      }
      var failure := SaveError(clients, client);
      if failure.Some? {
        return Err(failure.value);
      }
      clients := clients[id := client];
      return Ok(SuccessRes(Safe(client)));
    }

    /** `updateMe(id, dto)`: `update` without `role` and `isActive`. */
    method UpdateMe(id: string, dto: UpdateDto) returns (r: Result<Success>)
      modifies this
      ensures r == Reply(UpdateOutcome(hasher, old(clients), id, dto))
      ensures clients == Stored(old(clients), id, UpdateOutcome(hasher, old(clients), id, dto))
    {
      UpdateMeSameAsUpdate(hasher, clients, id, dto);
      r := Update(id, WithoutPrivileged(dto));
    }
  }
}
