/** `MarketService`: phone registration of a market with one-time codes, where
    the verification marker is bound to the phone alone, plus the direct
    `create`, the availability checks and the profile update. */
module MarketService {
  import opened Common
  import opened Json
  import opened Strings
  import opened Crypto
  import opened KeyValue
  import opened Otp
  import opened OtpFlow
  import opened Entities
  import opened SuccessResponse

  const PhoneExists: string := "Phone number already exists"
  const UsernameExists: string := "Username already exists"
  const UsernameEmpty: string := "Username cannot be empty"
  const NotVerified: string := "Phone not verified"

  function OtpKey(phone: string): string {
    "otp:market:" + phone
  }

  function VerifiedKey(phone: string): string {
    "otp:market:verified:" + phone
  }

  /** `safe(m)`: the row without its password. */
  function Safe(m: MarketAccount): (j: Json)
    ensures j.JObj? && !j.Has("password")
    ensures forall k :: k != "password" ==> j.Get(k) == MarketJson(m).Get(k)
  {
    JObj(Omit(MarketJson(m).fields, "password"))
  }

  /** Some row other than `except` has this phone number. */
  predicate PhoneTaken(rows: map<string, MarketAccount>, phone: string, except: Option<string>) {
    exists k :: k in rows && rows[k].phoneNumber == phone && Some(k) != except
  }

  predicate UsernameTaken(rows: map<string, MarketAccount>, username: string, except: Option<string>) {
    exists k :: k in rows && rows[k].username == Some(username) && Some(k) != except
  }

  /** The table's constraints on `save`: `name` is NOT NULL and `phoneNumber`
      UNIQUE. Usernames have no constraint of their own. */
  function SaveError(rows: map<string, MarketAccount>, m: MarketAccount): (e: Option<Exception>)
    ensures e.None? <==> m.name.Some? && !PhoneTaken(rows, m.phoneNumber, Some(m.id))
    ensures e.Some? ==> e.value == QueryFailedError(NotNullViolation) || e.value == QueryFailedError(UniqueViolation)
  {
    if m.name.None? then Some(QueryFailedError(NotNullViolation))
    else if PhoneTaken(rows, m.phoneNumber, Some(m.id)) then Some(QueryFailedError(UniqueViolation))
    else None
  }

  /** The table as the service keeps it: rows under their own ids, phone
      numbers unique (by the constraint) and non-empty usernames unique (by the
      service's own checks). */
  ghost predicate Consistent(rows: map<string, MarketAccount>) {
    && (forall k :: k in rows ==> rows[k].id == k)
    && (forall a, b :: a in rows && b in rows && a != b ==> rows[a].phoneNumber != rows[b].phoneNumber)
    && (forall a, b :: a in rows && b in rows && a != b && rows[a].username.Some? && rows[a].username.value != "" ==>
          rows[a].username != rows[b].username)
  }

  /** A save the constraints accept, of a row whose non-empty username no other
      row has, keeps the table consistent. */
  lemma SaveKeepsConsistent(rows: map<string, MarketAccount>, m: MarketAccount)
    requires Consistent(rows) && SaveError(rows, m).None?
    requires m.username.Some? && m.username.value != "" ==> !UsernameTaken(rows, m.username.value, Some(m.id))
    ensures Consistent(rows[m.id := m])
  {
    var r := rows[m.id := m];
    forall a, b | a in r && b in r && a != b
      ensures r[a].phoneNumber != r[b].phoneNumber
    {
      if a == m.id {
        assert !PhoneTaken(rows, m.phoneNumber, Some(m.id));
        assert b in rows;
      } else if b == m.id {
        assert !PhoneTaken(rows, m.phoneNumber, Some(m.id));
      }
    }
    forall a, b | a in r && b in r && a != b && r[a].username.Some? && r[a].username.value != ""
      ensures r[a].username != r[b].username
    {
      if a == m.id {
        assert b in rows;
      } else if b == m.id {
        assert a in rows && rows[a].username == r[a].username;
      }
    }
  }

  /** `dto.name ? { name: dto.name.trim() } : {}` */
  function NewName(f: Field<string>): Option<string> {
    if Sent(f) then Some(Trim(f.value)) else None
  }

  /** The username of a new market, when one is supplied: trimmed, refused
      when empty, refused when some row already has it. */
  function NewUsername(rows: map<string, MarketAccount>, u: Option<string>): (r: Result<Option<string>>)
    ensures u.None? ==> r == Ok(None)
    ensures u.Some? && Trim(u.value) == "" ==> r == Err(BadRequest(UsernameEmpty))
    ensures u.Some? && Trim(u.value) != "" ==>
      (r == Err(Conflict(UsernameExists)) <==> UsernameTaken(rows, Trim(u.value), None))
    ensures r.Ok? && u.Some? ==> r.value == Some(Trim(u.value)) && r.value.value != "" && !UsernameTaken(rows, r.value.value, None)
    ensures r.Err? ==> u.Some?
  {
    if u.None? then Ok(None)
    else
      var username := Trim(u.value);
      if username == "" then Err(BadRequest(UsernameEmpty))
      else if UsernameTaken(rows, username, None) then Err(Conflict(UsernameExists))
      else Ok(Some(username))
  }

  /** The row `repo.create` builds: role and active flag from the column
      defaults, Russian unless a language is given. */
  function NewMarket(hasher: Hasher, id: string, name: Field<string>, phone: string, username: Option<string>,
                     password: string, adressId: Field<string>, language: Option<Language>, photoPath: Field<string>): (m: MarketAccount)
    ensures m.id == id && m.phoneNumber == phone && m.username == username && m.password == hasher.hash(password)
    ensures m.name == NewName(name) && m.adressId == adressId.OrNull() && m.photoPath == photoPath.OrNull()
    ensures m.language == (if language.Some? then language.value else RU)
    ensures m.role == Market && m.isActive
  {
    MarketAccount(id, NewName(name), phone, username, hasher.hash(password), photoPath.OrNull(), adressId.OrNull(),
                  language.GetOr(RU), Market, true)
  }

  /** `RegisterMarketDto` as the service reads it; `verifyToken` is required by
      the DTO but never read. */
  datatype RegisterDto = RegisterDto(
    phoneNumber: string,
    verifyToken: string,
    name: Field<string>,
    username: Field<string>,
    password: string,
    adressId: Field<string>,
    language: Option<Language>,
    photoPath: Field<string>)

  /** `CreateMarketDto` */
  datatype CreateDto = CreateDto(
    name: Field<string>,
    phoneNumber: string,
    username: Field<string>,
    password: string,
    adressId: Field<string>,
    language: Option<Language>,
    photoPath: Field<string>)

  /** What `completeRegister` decides on a snapshot of the store and the table:
      the marker of the phone, then the phone conflict, then the username
      rules, then the constraints of the table. */
  function RegisterOutcome(hasher: Hasher, entries: map<string, Entry>, now: int, rows: map<string, MarketAccount>,
                           dto: RegisterDto, newId: string): (r: Result<MarketAccount>)
    ensures ValueAt(entries, now, VerifiedKey(Trim(dto.phoneNumber))).None? ==> r == Err(BadRequest(NotVerified))
    ensures ValueAt(entries, now, VerifiedKey(Trim(dto.phoneNumber))).Some? && PhoneTaken(rows, Trim(dto.phoneNumber), None) ==>
      r == Err(Conflict(PhoneExists))
    ensures r.Ok? ==>
      && ValueAt(entries, now, VerifiedKey(Trim(dto.phoneNumber))).Some?
      && !PhoneTaken(rows, Trim(dto.phoneNumber), None)
      && !dto.username.Null?
      && NewUsername(rows, dto.username.OrNull()).Ok?
      && r.value == NewMarket(hasher, newId, dto.name, Trim(dto.phoneNumber), NewUsername(rows, dto.username.OrNull()).value,
                              dto.password, dto.adressId, dto.language, dto.photoPath)
      && SaveError(rows, r.value).None?
  {
    var phone := Trim(dto.phoneNumber);
    if ValueAt(entries, now, VerifiedKey(phone)).None? then Err(BadRequest(NotVerified))
    else if PhoneTaken(rows, phone, None) then Err(Conflict(PhoneExists))
    else if dto.username.Null? then Err(TypeError)
    else
      match NewUsername(rows, dto.username.OrNull())
      case Err(e) => Err(e)
      case Ok(username) =>
        var m := NewMarket(hasher, newId, dto.name, phone, username, dto.password, dto.adressId, dto.language, dto.photoPath);
        match SaveError(rows, m)
        case Some(e) => Err(e)
        case None => Ok(m)
  }

  /** What `create` decides: no marker, and a username only counts when it is a
      non-empty string. */
  function CreateOutcome(hasher: Hasher, rows: map<string, MarketAccount>, dto: CreateDto, newId: string): (r: Result<MarketAccount>)
    ensures PhoneTaken(rows, Trim(dto.phoneNumber), None) ==> r == Err(Conflict(PhoneExists))
    ensures !Sent(dto.username) && r.Ok? ==> r.value.username.None?
    ensures r.Ok? ==>
      && !PhoneTaken(rows, Trim(dto.phoneNumber), None)
      && NewUsername(rows, if Sent(dto.username) then Some(dto.username.value) else None).Ok?
      && r.value == NewMarket(hasher, newId, dto.name, Trim(dto.phoneNumber),
                              NewUsername(rows, if Sent(dto.username) then Some(dto.username.value) else None).value,
                              dto.password, dto.adressId, dto.language, dto.photoPath)
      && SaveError(rows, r.value).None?
  {
    var phone := Trim(dto.phoneNumber);
    if PhoneTaken(rows, phone, None) then Err(Conflict(PhoneExists))
    else
      match NewUsername(rows, if Sent(dto.username) then Some(dto.username.value) else None)
      case Err(e) => Err(e)
      case Ok(username) =>
        var m := NewMarket(hasher, newId, dto.name, phone, username, dto.password, dto.adressId, dto.language, dto.photoPath);
        match SaveError(rows, m)
        case Some(e) => Err(e)
        case None => Ok(m)
  }

  /** The marker is looked up by phone alone: whatever `verifyToken` the
      completion carries, the outcome is the same. */
  lemma CompletionIgnoresToken(hasher: Hasher, entries: map<string, Entry>, now: int, rows: map<string, MarketAccount>,
                               dto: RegisterDto, newId: string, token: string)
    ensures RegisterOutcome(hasher, entries, now, rows, dto.(verifyToken := token), newId)
         == RegisterOutcome(hasher, entries, now, rows, dto, newId)
  {
  }

  /** The phone conflict is reported even when the username is also taken. */
  lemma PhoneCheckedBeforeUsername(hasher: Hasher, entries: map<string, Entry>, now: int, rows: map<string, MarketAccount>,
                                   dto: RegisterDto, newId: string)
    requires ValueAt(entries, now, VerifiedKey(Trim(dto.phoneNumber))).Some?
    requires PhoneTaken(rows, Trim(dto.phoneNumber), None)
    requires dto.username.Given? && UsernameTaken(rows, Trim(dto.username.value), None)
    ensures RegisterOutcome(hasher, entries, now, rows, dto, newId) == Err(Conflict(PhoneExists))
  {
  }

  /** Past the marker and the phone, a supplied username that trims to
      nothing is refused, and so is one that another row has. */
  lemma RegisterUsernameRules(hasher: Hasher, entries: map<string, Entry>, now: int, rows: map<string, MarketAccount>,
                              dto: RegisterDto, newId: string)
    requires ValueAt(entries, now, VerifiedKey(Trim(dto.phoneNumber))).Some?
    requires !PhoneTaken(rows, Trim(dto.phoneNumber), None)
    requires dto.username.Given?
    ensures Trim(dto.username.value) == "" ==>
      RegisterOutcome(hasher, entries, now, rows, dto, newId) == Err(BadRequest(UsernameEmpty))
    ensures Trim(dto.username.value) != "" && UsernameTaken(rows, Trim(dto.username.value), None) ==>
      RegisterOutcome(hasher, entries, now, rows, dto, newId) == Err(Conflict(UsernameExists))
  {
  }

  /** `create` and a completion with a live marker agree whenever the username
      is left out or is a non-empty string; they differ only on an empty or
      `null` username, which `create` ignores. */
  lemma RegisterAgreesWithCreate(hasher: Hasher, entries: map<string, Entry>, now: int, rows: map<string, MarketAccount>,
                                 dto: RegisterDto, newId: string)
    requires ValueAt(entries, now, VerifiedKey(Trim(dto.phoneNumber))).Some?
    requires dto.username.Absent? || Sent(dto.username)
    ensures RegisterOutcome(hasher, entries, now, rows, dto, newId)
         == CreateOutcome(hasher, rows, CreateDto(dto.name, dto.phoneNumber, dto.username, dto.password, dto.adressId,
                                                  dto.language, dto.photoPath), newId)
  {
    var c := CreateDto(dto.name, dto.phoneNumber, dto.username, dto.password, dto.adressId, dto.language, dto.photoPath);
    assert dto.username.OrNull() == (if Sent(c.username) then Some(c.username.value) else None);
  }

  /** A registered market's response never carries the password. */
  lemma RegisteredViewHidesPassword(m: MarketAccount)
    ensures !SuccessRes(Safe(m), 201).data.Has("password") && SuccessRes(Safe(m), 201).statusCode == 201
  {
  }

  /** `checkPhone`: whether some row has the trimmed phone. */
  function CheckPhone(rows: map<string, MarketAccount>, phoneNumber: string): (r: Success)
    ensures r.statusCode == 200
    ensures r.data.Get("exists") == JBool(PhoneTaken(rows, Trim(phoneNumber), None))
  {
    SuccessRes(JObj(map["exists" := JBool(PhoneTaken(rows, Trim(phoneNumber), None))]))
  }

  /** `checkUsername`: a blank username never exists; otherwise whether some
      row has the trimmed username. */
  function CheckUsername(rows: map<string, MarketAccount>, username: string): (r: Success)
    ensures r.statusCode == 200
    ensures Trim(username) == "" ==> r.data.Get("exists") == JBool(false)
    ensures r.data.Get("exists") == JBool(true) <==> Trim(username) != "" && UsernameTaken(rows, Trim(username), None)
  {
    var value := Trim(username);
    if value == "" then SuccessRes(JObj(map["exists" := JBool(false)]))
    else SuccessRes(JObj(map["exists" := JBool(UsernameTaken(rows, value, None))]))
  }

  /** A phone `checkPhone` reports as existing cannot be used for `create`. */
  lemma CheckedPhoneBlocksCreate(hasher: Hasher, rows: map<string, MarketAccount>, dto: CreateDto, newId: string)
    requires CheckPhone(rows, dto.phoneNumber).data.Get("exists") == JBool(true)
    ensures CreateOutcome(hasher, rows, dto, newId) == Err(Conflict(PhoneExists))
  {
  }

  /** A username `checkUsername` reports as existing cannot be used for
      `create` either (once the phone is free). */
  lemma CheckedUsernameBlocksCreate(hasher: Hasher, rows: map<string, MarketAccount>, dto: CreateDto, newId: string)
    requires dto.username.Given? && CheckUsername(rows, dto.username.value).data.Get("exists") == JBool(true)
    requires !PhoneTaken(rows, Trim(dto.phoneNumber), None)
    ensures CreateOutcome(hasher, rows, dto, newId) == Err(Conflict(UsernameExists))
  {
    assert Trim(dto.username.value) != "";
    assert dto.username.value != "";
  }

  /** Registration and creation under a fresh id keep the table consistent. */
  lemma RegisterKeepsConsistent(hasher: Hasher, entries: map<string, Entry>, now: int,
                                rows: map<string, MarketAccount>, dto: RegisterDto, newId: string)
    requires Consistent(rows) && newId !in rows
    ensures Consistent(Stored(rows, newId, RegisterOutcome(hasher, entries, now, rows, dto, newId)))
  {
    var o := RegisterOutcome(hasher, entries, now, rows, dto, newId);
    if o.Ok? {
      NewUsernameIsFree(rows, dto.username.OrNull(), newId);
      SaveKeepsConsistent(rows, o.value);
    }
  }

  lemma CreateKeepsConsistent(hasher: Hasher, rows: map<string, MarketAccount>, dto: CreateDto, newId: string)
    requires Consistent(rows) && newId !in rows
    ensures Consistent(Stored(rows, newId, CreateOutcome(hasher, rows, dto, newId)))
  {
    var o := CreateOutcome(hasher, rows, dto, newId);
    if o.Ok? {
      NewUsernameIsFree(rows, if Sent(dto.username) then Some(dto.username.value) else None, newId);
      SaveKeepsConsistent(rows, o.value);
    }
  }

  lemma NewUsernameIsFree(rows: map<string, MarketAccount>, u: Option<string>, newId: string)
    requires NewUsername(rows, u).Ok?
    ensures var n := NewUsername(rows, u).value;
      n.Some? && n.value != "" ==> !UsernameTaken(rows, n.value, Some(newId))
  {
  }

  /** `UpdateMarketDto`: every property optional. */
  datatype UpdateDto = UpdateDto(
    name: Field<string>,
    phoneNumber: Field<string>,
    username: Field<string>,
    password: Field<string>,
    photoPath: Field<string>,
    adressId: Field<string>,
    language: Field<Language>,
    isActive: Field<bool>)

  /** The field assignments of `update`, one function per `if`. */
  function WithName(m: MarketAccount, dto: UpdateDto): MarketAccount {
    if dto.name.Defined() then m.(name := dto.name.OrNull()) else m
  }

  function WithPhone(m: MarketAccount, dto: UpdateDto): MarketAccount {
    if dto.phoneNumber.Given? then m.(phoneNumber := Trim(dto.phoneNumber.value)) else m
  }

  /** `dto.username?.trim() ?? null`: `null` stays `null`, a blank username is
      stored as the empty string. */
  function WithUsername(m: MarketAccount, dto: UpdateDto): MarketAccount {
    if dto.username.Defined() then m.(username := if dto.username.Given? then Some(Trim(dto.username.value)) else None)
    else m
  }

  function WithPassword(hasher: Hasher, m: MarketAccount, dto: UpdateDto): MarketAccount {
    if Sent(dto.password) then m.(password := hasher.hash(dto.password.value)) else m
  }

  function WithRest(m: MarketAccount, dto: UpdateDto): MarketAccount {
    m.(photoPath := if dto.photoPath.Defined() then dto.photoPath.OrNull() else m.photoPath,
       adressId := if dto.adressId.Defined() then dto.adressId.OrNull() else m.adressId,
       language := if dto.language.Given? then dto.language.value else m.language,
       isActive := if dto.isActive.Given? then dto.isActive.value else m.isActive)
  }

  /** `language` or `isActive` sent as `null`: both are assigned as they come,
      and their columns are NOT NULL. */
  predicate NullsRequired(dto: UpdateDto) {
    dto.language.Null? || dto.isActive.Null?
  }

  function Edited(hasher: Hasher, m: MarketAccount, dto: UpdateDto): MarketAccount {
    WithRest(WithPassword(hasher, WithUsername(WithPhone(WithName(m, dto), dto), dto), dto), dto)
  }

  /** A phone is sent whose trimmed form another row has. */
  predicate PhoneConflict(rows: map<string, MarketAccount>, id: string, dto: UpdateDto) {
    dto.phoneNumber.Given? && PhoneTaken(rows, Trim(dto.phoneNumber.value), Some(id))
  }

  /** A username is sent whose trimmed form is non-empty and another row has. */
  predicate UsernameConflict(rows: map<string, MarketAccount>, id: string, dto: UpdateDto) {
    dto.username.Given? && Trim(dto.username.value) != "" && UsernameTaken(rows, Trim(dto.username.value), Some(id))
  }

  /** What `update(id, dto)` decides on a snapshot of the table: a `null` phone
      throws on `.trim()`, the phone conflict comes before the username
      conflict, both ignore the row itself, and the constraints of the table
      have the last word, a NOT NULL column first. */
  function UpdateOutcome(hasher: Hasher, rows: map<string, MarketAccount>, id: string, dto: UpdateDto): (r: Result<MarketAccount>)
    ensures id !in rows ==> r == Err(NotFound("Not found"))
    ensures id in rows && dto.phoneNumber.Null? ==> r == Err(TypeError)
    ensures r == Err(Conflict(PhoneExists)) <==> id in rows && PhoneConflict(rows, id, dto)
    ensures r == Err(Conflict(UsernameExists)) <==>
      id in rows && !PhoneConflict(rows, id, dto) && !dto.phoneNumber.Null? && UsernameConflict(rows, id, dto)
    ensures id in rows && !dto.phoneNumber.Null? && !PhoneConflict(rows, id, dto) && !UsernameConflict(rows, id, dto) && NullsRequired(dto) ==>
              r == Err(QueryFailedError(NotNullViolation))
    ensures r.Ok? ==> id in rows && !NullsRequired(dto) && r.value == Edited(hasher, rows[id], dto) && SaveError(rows, r.value).None?
  {
    if id !in rows then Err(NotFound("Not found"))
    else if dto.phoneNumber.Null? then Err(TypeError)
    else if PhoneConflict(rows, id, dto) then Err(Conflict(PhoneExists))
    else if UsernameConflict(rows, id, dto) then Err(Conflict(UsernameExists))
    else if NullsRequired(dto) then Err(QueryFailedError(NotNullViolation))
    else
      var m := Edited(hasher, rows[id], dto);
      match SaveError(rows, m)
      case Some(e) => Err(e)
      case None => Ok(m)
  }

  /** Only the fields the DTO defines change; a blank username is stored as
      `""`, and `id` and `role` never change. */
  lemma UpdatedFields(hasher: Hasher, rows: map<string, MarketAccount>, id: string, dto: UpdateDto)
    requires UpdateOutcome(hasher, rows, id, dto).Ok?
    ensures var m := UpdateOutcome(hasher, rows, id, dto).value;
      && m.id == rows[id].id && m.role == rows[id].role
      && m.name == (if dto.name.Defined() then dto.name.OrNull() else rows[id].name)
      && m.phoneNumber == (if dto.phoneNumber.Given? then Trim(dto.phoneNumber.value) else rows[id].phoneNumber)
      && m.username == (if dto.username.Given? then Some(Trim(dto.username.value))
                        else if dto.username.Null? then None else rows[id].username)
      && m.password == (if Sent(dto.password) then hasher.hash(dto.password.value) else rows[id].password)
      && m.photoPath == (if dto.photoPath.Defined() then dto.photoPath.OrNull() else rows[id].photoPath)
      && m.adressId == (if dto.adressId.Defined() then dto.adressId.OrNull() else rows[id].adressId)
      && m.language == (if dto.language.Given? then dto.language.value else rows[id].language)
      && m.isActive == (if dto.isActive.Given? then dto.isActive.value else rows[id].isActive)
  {
  }

  /** A market may send back its own phone and username. */
  lemma OwnValuesDoNotConflict(hasher: Hasher, rows: map<string, MarketAccount>, id: string, dto: UpdateDto)
    requires Consistent(rows) && id in rows
    requires dto.phoneNumber.Given? && Trim(dto.phoneNumber.value) == rows[id].phoneNumber
    requires dto.username.Given? && Some(Trim(dto.username.value)) == rows[id].username
    ensures UpdateOutcome(hasher, rows, id, dto) != Err(Conflict(PhoneExists))
    ensures UpdateOutcome(hasher, rows, id, dto) != Err(Conflict(UsernameExists))
  {
    assert !PhoneConflict(rows, id, dto);
    assert !UsernameConflict(rows, id, dto);
  }

  /** A successful update keeps the table consistent. */
  lemma UpdateKeepsConsistent(hasher: Hasher, rows: map<string, MarketAccount>, id: string, dto: UpdateDto)
    requires Consistent(rows)
    ensures Consistent(Stored(rows, id, UpdateOutcome(hasher, rows, id, dto)))
  {
    var o := UpdateOutcome(hasher, rows, id, dto);
    if o.Ok? {
      UpdatedFields(hasher, rows, id, dto);
      assert o.value.id == id;
      SaveKeepsConsistent(rows, o.value);
    }
  }

  /** `updateMe` drops `isActive` before delegating: a market cannot change its
      own active flag. */
  function WithoutActive(dto: UpdateDto): (d: UpdateDto)
    ensures d.isActive.Absent?
  {
    dto.(isActive := Absent)
  }

  lemma UpdateMeKeepsActive(hasher: Hasher, rows: map<string, MarketAccount>, id: string, dto: UpdateDto)
    requires UpdateOutcome(hasher, rows, id, WithoutActive(dto)).Ok?
    ensures UpdateOutcome(hasher, rows, id, WithoutActive(dto)).value.isActive == rows[id].isActive
  {
    UpdatedFields(hasher, rows, id, WithoutActive(dto));
  }

  /** The response of an operation that saves a row. */
  function Reply(o: Result<MarketAccount>, status: int): (r: Result<Success>)
    ensures r.Ok? <==> o.Ok?
    ensures o.Err? ==> r == Err(o.error)
    ensures o.Ok? ==> r.value.data == Safe(o.value) && r.value.statusCode == status
  {
    match o
    case Ok(m) => Ok(SuccessRes(Safe(m), status))
    case Err(e) => Err(e)
  }

  class MarketService {
    const store: Store
    const hasher: Hasher
    /** The `market` table by id. */
    var markets: map<string, MarketAccount>

    constructor(store: Store, hasher: Hasher, markets: map<string, MarketAccount>)
      ensures this.store == store && this.hasher == hasher && this.markets == markets
    {
      this.store := store;
      this.hasher := hasher;
      this.markets := markets;
    }

    /** `requestRegisterOtp`: refused for a registered phone, otherwise a fresh
        code replaces any pending one under `otp:market:{phone}`. */
    method RequestRegisterOtp(phoneNumber: string, entropy: nat) returns (r: Result<Success>)
      modifies store
      ensures store.now == old(store.now)
      ensures PhoneTaken(markets, Trim(phoneNumber), None) ==>
        r == Err(Conflict(PhoneExists)) && store.entries == old(store.entries)
      ensures !PhoneTaken(markets, Trim(phoneNumber), None) ==>
        && r == Ok(SuccessRes(JObj(map["otpCode" := JStr(OtpCode(entropy))])))
        && store.entries == old(store.entries)[OtpKey(Trim(phoneNumber)) :=
             Entry(OtpRecord(hasher.hash(OtpCode(entropy)), 0), Some(old(store.now) + OtpTtlSeconds))]
    {
      var phone := Trim(phoneNumber);
      if PhoneTaken(markets, phone, None) {
        return Err(Conflict(PhoneExists));
      }
      var code := IssueCode(store, hasher, OtpKey(phone), entropy);
      return Ok(SuccessRes(JObj(map["otpCode" := JStr(code)])));
    }

    /** `verifyRegisterOtp`: the verification step `CheckStep`; on success the record is
        gone and the marker `otp:market:verified:{phone}` lives for 600 seconds.
        No token is returned. */
    method VerifyRegisterOtp(phoneNumber: string, code: string) returns (r: Result<Success>)
      modifies store
      ensures store.now == old(store.now)
      ensures var step := CheckStep(hasher, EntryAt(old(store.entries), OtpKey(Trim(phoneNumber))), old(store.now), code);
        && (r.Ok? <==> step.result.Ok?)
        && (step.result.Err? ==>
              r == Err(step.result.error) &&
              store.entries == Apply(old(store.entries), OtpKey(Trim(phoneNumber)), step.next))
        && (step.result.Ok? ==>
              r == Ok(SuccessRes(JObj(map["verified" := JBool(true)]))) &&
              store.entries == (old(store.entries) - {OtpKey(Trim(phoneNumber))})[
                VerifiedKey(Trim(phoneNumber)) := Entry(Marker, Some(old(store.now) + VerifyTtlSeconds))])
    {
      var phone := Trim(phoneNumber);
      var checked := CheckCode(store, hasher, OtpKey(phone), code);
      if checked.Err? {
        return Err(checked.error);
      }
      store.Set(VerifiedKey(phone), Marker, VerifyTtlSeconds);
      return Ok(SuccessRes(JObj(map["verified" := JBool(true)])));
    }

    /** `completeRegister`: saves the row `RegisterOutcome` decides on, then
        consumes the marker; on any error neither the table nor the store
        changes. */
    method CompleteRegister(dto: RegisterDto, newId: string) returns (r: Result<Success>)
      requires newId !in markets
      modifies this, store
      ensures store.now == old(store.now)
      ensures r == Reply(RegisterOutcome(hasher, old(store.entries), old(store.now), old(markets), dto, newId), 201)
      ensures markets == Stored(old(markets), newId, RegisterOutcome(hasher, old(store.entries), old(store.now), old(markets), dto, newId))
      ensures store.entries == if r.Ok? then old(store.entries) - {VerifiedKey(Trim(dto.phoneNumber))} else old(store.entries)
    {
      var phone := Trim(dto.phoneNumber);
      var verifyKey := VerifiedKey(phone);
      var ok := store.Get(verifyKey);
      if ok.None? {
        return Err(BadRequest(NotVerified));
      }
      if PhoneTaken(markets, phone, None) {
        return Err(Conflict(PhoneExists));
      }
      if dto.username.Null? {
        return Err(TypeError);
      }
      var username: Option<string> := None;
      if dto.username.Given? {
        var u := Trim(dto.username.value);
        if u == "" {
          return Err(BadRequest(UsernameEmpty));
        }
        if UsernameTaken(markets, u, None) {
          return Err(Conflict(UsernameExists));
        }
        username := Some(u);
      }
      var entity := NewMarket(hasher, newId, dto.name, phone, username, dto.password, dto.adressId, dto.language, dto.photoPath);
      RegisterReachesSave(hasher, store.entries, store.now, markets, dto, newId, entity);
      var failure := SaveError(markets, entity);
      if failure.Some? {
        return Err(failure.value);
      }
      markets := markets[newId := entity];
      store.Del(verifyKey);
      return Ok(SuccessRes(Safe(entity), 201));
    }

    /** `create`: the same row rules without a marker; the store is not
        touched. */
    method Create(dto: CreateDto, newId: string) returns (r: Result<Success>)
      requires newId !in markets
      modifies this
      ensures r == Reply(CreateOutcome(hasher, old(markets), dto, newId), 201)
      ensures markets == Stored(old(markets), newId, CreateOutcome(hasher, old(markets), dto, newId))
    {
      ghost var o := CreateOutcome(hasher, markets, dto, newId);
      var phone := Trim(dto.phoneNumber);
      if PhoneTaken(markets, phone, None) {
        assert o == Err(Conflict(PhoneExists));
        return Err(Conflict(PhoneExists));
      }
      var username: Option<string> := None;
      if Sent(dto.username) {
        var u := Trim(dto.username.value);
        if u == "" {
          assert o == Err(BadRequest(UsernameEmpty));
          return Err(BadRequest(UsernameEmpty));
        }
        if UsernameTaken(markets, u, None) {
          assert o == Err(Conflict(UsernameExists));
          return Err(Conflict(UsernameExists));
        }
        username := Some(u);
      }
      var entity := NewMarket(hasher, newId, dto.name, phone, username, dto.password, dto.adressId, dto.language, dto.photoPath);
      CreateReachesSave(hasher, markets, dto, newId, entity);
      var failure := SaveError(markets, entity);
      if failure.Some? {
        return Err(failure.value);
      }
      markets := markets[newId := entity];
      return Ok(SuccessRes(Safe(entity), 201));
    }

    /** `update(id, dto)`: the fields are assigned one by one, then saved. */
    method Update(id: string, dto: UpdateDto) returns (r: Result<Success>)
      modifies this
      ensures r == Reply(UpdateOutcome(hasher, old(markets), id, dto), 200)
      ensures markets == Stored(old(markets), id, UpdateOutcome(hasher, old(markets), id, dto))
    {
      if id !in markets {
        return Err(NotFound("Not found"));
      }
      var market := markets[id];
      if dto.name.Defined() {
        market := market.(name := dto.name.OrNull());
      }
      if dto.phoneNumber.Defined() {
        if dto.phoneNumber.Null? {
          return Err(TypeError);
        }
        var phone := Trim(dto.phoneNumber.value);
        if PhoneTaken(markets, phone, Some(id)) {
          return Err(Conflict(PhoneExists));
        }
        market := market.(phoneNumber := phone);
      }
      assert !PhoneConflict(markets, id, dto) && !dto.phoneNumber.Null?;
      assert market == WithPhone(WithName(markets[id], dto), dto);
      if dto.username.Defined() {
        var username := if dto.username.Given? then Some(Trim(dto.username.value)) else None;
        if username.Some? && username.value != "" {
          if UsernameTaken(markets, username.value, Some(id)) {
            return Err(Conflict(UsernameExists));
          }
        }
        market := market.(username := username);
      }
      assert !UsernameConflict(markets, id, dto);
      assert market == WithUsername(WithPhone(WithName(markets[id], dto), dto), dto);
      market := WithRest(WithPassword(hasher, market, dto), dto);
      UpdateReachesSave(hasher, markets, id, dto, market);
      if NullsRequired(dto) {
        return Err(QueryFailedError(NotNullViolation));
      }
      var failure := SaveError(markets, market);
      if failure.Some? {
        return Err(failure.value);
      }
      markets := markets[id := market];
      return Ok(SuccessRes(Safe(market)));
    }

    /** `updateMe(id, dto)`: `update` without `isActive`. */
    method UpdateMe(id: string, dto: UpdateDto) returns (r: Result<Success>)
      modifies this
      ensures r == Reply(UpdateOutcome(hasher, old(markets), id, WithoutActive(dto)), 200)
      ensures markets == Stored(old(markets), id, UpdateOutcome(hasher, old(markets), id, WithoutActive(dto)))
      ensures id in markets ==> markets[id].isActive == old(markets)[id].isActive
    {
      r := Update(id, WithoutActive(dto));
      if UpdateOutcome(hasher, old(markets), id, WithoutActive(dto)).Ok? {
        UpdateMeKeepsActive(hasher, old(markets), id, dto);
      }
    }
  }

  /** Past the phone and username checks, `update` ends with the save of the
      edited row. */
  lemma UpdateReachesSave(hasher: Hasher, rows: map<string, MarketAccount>, id: string, dto: UpdateDto, m: MarketAccount)
    requires id in rows && !dto.phoneNumber.Null? && !PhoneConflict(rows, id, dto) && !UsernameConflict(rows, id, dto)
    requires m == WithRest(WithPassword(hasher, WithUsername(WithPhone(WithName(rows[id], dto), dto), dto), dto), dto)
    ensures UpdateOutcome(hasher, rows, id, dto) ==
      (if NullsRequired(dto) then Err(QueryFailedError(NotNullViolation))
       else if SaveError(rows, m).Some? then Err(SaveError(rows, m).value) else Ok(m))
  {
  }

  /** Past the marker, the phone and the username rules, `completeRegister`
      ends with the save of the new row. */
  lemma RegisterReachesSave(hasher: Hasher, entries: map<string, Entry>, now: int, rows: map<string, MarketAccount>,
                            dto: RegisterDto, newId: string, m: MarketAccount)
    requires ValueAt(entries, now, VerifiedKey(Trim(dto.phoneNumber))).Some?
    requires !PhoneTaken(rows, Trim(dto.phoneNumber), None) && !dto.username.Null?
    requires NewUsername(rows, dto.username.OrNull()).Ok?
    requires m == NewMarket(hasher, newId, dto.name, Trim(dto.phoneNumber), NewUsername(rows, dto.username.OrNull()).value,
                            dto.password, dto.adressId, dto.language, dto.photoPath)
    ensures RegisterOutcome(hasher, entries, now, rows, dto, newId) == (if SaveError(rows, m).Some? then Err(SaveError(rows, m).value) else Ok(m))
  {
  }

  /** Past the phone and the username rules, `create` ends with the save of
      the new row. */
  lemma CreateReachesSave(hasher: Hasher, rows: map<string, MarketAccount>, dto: CreateDto, newId: string, m: MarketAccount)
    requires !PhoneTaken(rows, Trim(dto.phoneNumber), None)
    requires NewUsername(rows, if Sent(dto.username) then Some(dto.username.value) else None).Ok?
    requires m == NewMarket(hasher, newId, dto.name, Trim(dto.phoneNumber),
                            NewUsername(rows, if Sent(dto.username) then Some(dto.username.value) else None).value,
                            dto.password, dto.adressId, dto.language, dto.photoPath)
    ensures CreateOutcome(hasher, rows, dto, newId) == (if SaveError(rows, m).Some? then Err(SaveError(rows, m).value) else Ok(m))
  {
  }
}
