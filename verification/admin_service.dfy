/** `AdminService`: seeding of the superadmin at start-up, creation, update and
    deletion of admins, and the day buckets of the dashboard. */
module AdminService {
  import opened Common
  import opened Json
  import opened Crypto
  import opened Entities
  import opened SuccessResponse
  import opened Entries

  const UsernameExists: string := "Username already exists!"
  const PhoneExists: string := "Phone number already exists"
  const EmailExists: string := "Email already exists!"
  const AdminNotFound: string := "Admin not found"
  /** "The super admin cannot be deleted", in Uzbek. */
  const SuperAdminUndeletable: string := "Super adminni o\U{2018}chirib bo\U{2018}lmaydi"

  /** The credentials of the superadmin, read from the configuration. */
  datatype SuperAdminConfig = SuperAdminConfig(username: string, phoneNumber: string, email: string, password: string)

  predicate UsernameTaken(rows: map<string, AdminAccount>, username: string) {
    exists k :: k in rows && rows[k].username == username
  }

  predicate PhoneTaken(rows: map<string, AdminAccount>, phone: string) {
    exists k :: k in rows && rows[k].phoneNumber == phone
  }

  predicate EmailTaken(rows: map<string, AdminAccount>, email: string) {
    exists k :: k in rows && rows[k].email == email
  }

  /** Some row other than `a` shares a value of one of the UNIQUE columns. */
  predicate Clashes(rows: map<string, AdminAccount>, a: AdminAccount) {
    exists k :: k in rows && k != a.id &&
      (rows[k].username == a.username || rows[k].phoneNumber == a.phoneNumber || rows[k].email == a.email)
  }

  /** The `admin` table's constraints on `save`: `username`, `phoneNumber` and
      `email` are UNIQUE. */
  function SaveError(rows: map<string, AdminAccount>, a: AdminAccount): (e: Option<Exception>)
    ensures e.None? <==> !Clashes(rows, a)
    ensures e.Some? ==> e.value == QueryFailedError(UniqueViolation)
  {
    if Clashes(rows, a) then Some(QueryFailedError(UniqueViolation)) else None
  }

  /** Rows under their own ids, with the three UNIQUE columns unique. */
  ghost predicate Consistent(rows: map<string, AdminAccount>) {
    && (forall k :: k in rows ==> rows[k].id == k)
    && (forall a, b :: a in rows && b in rows && a != b ==>
          rows[a].username != rows[b].username && rows[a].phoneNumber != rows[b].phoneNumber && rows[a].email != rows[b].email)
  }

  /** Whatever the constraints let through keeps the table consistent. */
  lemma SaveKeepsConsistent(rows: map<string, AdminAccount>, a: AdminAccount)
    requires Consistent(rows) && SaveError(rows, a).None?
    ensures Consistent(rows[a.id := a])
  {
    var r := rows[a.id := a];
    forall x, y | x in r && y in r && x != y
      ensures r[x].username != r[y].username && r[x].phoneNumber != r[y].phoneNumber && r[x].email != r[y].email
    {
      if x == a.id {
        assert y in rows && y != a.id;
      } else if y == a.id {
        assert x in rows && x != a.id;
      }
    }
  }

  predicate HasSuperAdmin(rows: map<string, AdminAccount>) {
    exists k :: k in rows && rows[k].role == SuperAdmin
  }

  /** `onModuleInit`: when no superadmin exists, one is built from the
      configuration and saved; otherwise nothing happens (`Ok(None)`). */
  function SeedOutcome(hasher: Hasher, rows: map<string, AdminAccount>, cfg: SuperAdminConfig, newId: string): (r: Result<Option<AdminAccount>>)
    ensures HasSuperAdmin(rows) ==> r == Ok(None)
    ensures !HasSuperAdmin(rows) ==> r != Ok(None)
    ensures r.Err? ==> r.error == QueryFailedError(UniqueViolation)
    ensures r.Ok? && r.value.Some? ==>
      && r.value.value == AdminAccount(newId, cfg.username, cfg.phoneNumber, cfg.email, hasher.hash(cfg.password), SuperAdmin, true)
      && SaveError(rows, r.value.value).None?
  {
    if HasSuperAdmin(rows) then Ok(None)
    else
      var a := AdminAccount(newId, cfg.username, cfg.phoneNumber, cfg.email, hasher.hash(cfg.password), SuperAdmin, true);
      match SaveError(rows, a)
      case Some(e) => Err(e)
      case None => Ok(Some(a))
  }

  /** The table after a seed. */
  function Seeded(rows: map<string, AdminAccount>, o: Result<Option<AdminAccount>>): (t: map<string, AdminAccount>)
    ensures o.Ok? && o.value.Some? ==> t == rows[o.value.value.id := o.value.value]
    ensures !(o.Ok? && o.value.Some?) ==> t == rows
  {
    if o.Ok? && o.value.Some? then rows[o.value.value.id := o.value.value] else rows
  }

  /** Seeding twice adds nothing the first seed did not: the second run finds
      the superadmin and leaves the table alone. */
  lemma SeedIsIdempotent(hasher: Hasher, rows: map<string, AdminAccount>, cfg: SuperAdminConfig, id1: string, id2: string)
    requires SeedOutcome(hasher, rows, cfg, id1).Ok?
    ensures var once := Seeded(rows, SeedOutcome(hasher, rows, cfg, id1));
      SeedOutcome(hasher, once, cfg, id2) == Ok(None) && Seeded(once, SeedOutcome(hasher, once, cfg, id2)) == once
  {
    var o := SeedOutcome(hasher, rows, cfg, id1);
    var once := Seeded(rows, o);
    if o.value.Some? {
      assert once[id1].role == SuperAdmin;
    } else {
      assert HasSuperAdmin(rows);
      var k :| k in rows && rows[k].role == SuperAdmin;
      assert k in once && once[k].role == SuperAdmin;
    }
  }

  /** `CreateAdminDto`: all four properties are required. */
  datatype CreateDto = CreateDto(username: string, phoneNumber: string, password: string, email: string)

  /** What `createAdmin` decides: username, then phone, then email conflicts;
      once all three are free the UNIQUE constraints cannot fail. */
  function CreateOutcome(hasher: Hasher, rows: map<string, AdminAccount>, dto: CreateDto, newId: string): (r: Result<AdminAccount>)
    ensures UsernameTaken(rows, dto.username) ==> r == Err(Conflict(UsernameExists))
    ensures !UsernameTaken(rows, dto.username) && PhoneTaken(rows, dto.phoneNumber) ==> r == Err(Conflict(PhoneExists))
    ensures !UsernameTaken(rows, dto.username) && !PhoneTaken(rows, dto.phoneNumber) && EmailTaken(rows, dto.email) ==>
      r == Err(Conflict(EmailExists))
    ensures r.Ok? ==>
      && !UsernameTaken(rows, dto.username) && !PhoneTaken(rows, dto.phoneNumber) && !EmailTaken(rows, dto.email)
      && r.value == AdminAccount(newId, dto.username, dto.phoneNumber, dto.email, hasher.hash(dto.password), Admin, true)
      && SaveError(rows, r.value).None?
  {
    if UsernameTaken(rows, dto.username) then Err(Conflict(UsernameExists))
    else if PhoneTaken(rows, dto.phoneNumber) then Err(Conflict(PhoneExists))
    else if EmailTaken(rows, dto.email) then Err(Conflict(EmailExists))
    else
      Ok(AdminAccount(newId, dto.username, dto.phoneNumber, dto.email, hasher.hash(dto.password), Admin, true))
  }

  /** With the three values free, creation succeeds. */
  lemma FreeValuesCreate(hasher: Hasher, rows: map<string, AdminAccount>, dto: CreateDto, newId: string)
    requires !UsernameTaken(rows, dto.username) && !PhoneTaken(rows, dto.phoneNumber) && !EmailTaken(rows, dto.email)
    ensures CreateOutcome(hasher, rows, dto, newId).Ok?
  {
  }

  /** `safeAdmin`: the projection returned by create and update; it has no
      password. */
  function View(a: AdminAccount): (j: Json)
    ensures j.JObj? && !j.Has("password")
    ensures j.Get("id") == JStr(a.id) && j.Get("username") == JStr(a.username) && j.Get("role") == JStr(a.role.Name())
  {
    JObj(map[
      "id" := JStr(a.id),
      "username" := JStr(a.username),
      "phoneNumber" := JStr(a.phoneNumber),
      "email" := JStr(a.email),
      "role" := JStr(a.role.Name()),
      "isActive" := JBool(a.isActive)])
  }

  /** `UpdateAdminDto`: every property optional. */
  datatype UpdateDto = UpdateDto(
    username: Field<string>,
    phoneNumber: Field<string>,
    password: Field<string>,
    email: Field<string>,
    role: Option<UserRole>,
    isActive: Field<bool>)

  /** `dto.x && dto.x !== admin.x`: a non-empty value different from the current one. */
  predicate Changes(f: Field<string>, current: string) {
    Sent(f) && f.value != current
  }

  /** The assignments of `updateAdmin`, one function per `if`. */
  function WithUsername(a: AdminAccount, dto: UpdateDto): AdminAccount {
    if Changes(dto.username, a.username) then a.(username := dto.username.value) else a
  }

  function WithPhone(a: AdminAccount, dto: UpdateDto): AdminAccount {
    if Changes(dto.phoneNumber, a.phoneNumber) then a.(phoneNumber := dto.phoneNumber.value) else a
  }

  function WithEmail(a: AdminAccount, dto: UpdateDto): AdminAccount {
    if Changes(dto.email, a.email) then a.(email := dto.email.value) else a
  }

  function WithRest(hasher: Hasher, a: AdminAccount, dto: UpdateDto): AdminAccount {
    a.(role := dto.role.GetOr(a.role),
       isActive := if dto.isActive.Given? then dto.isActive.value else a.isActive,
       password := if Sent(dto.password) then hasher.hash(dto.password.value) else a.password)
  }

  /** The admin with the DTO's fields applied. */
  function Edited(hasher: Hasher, a: AdminAccount, dto: UpdateDto): AdminAccount {
    WithRest(hasher, WithEmail(WithPhone(WithUsername(a, dto), dto), dto), dto)
  }

  /** No change clashes with another row: past these checks `updateAdmin` saves. */
  predicate NoConflict(rows: map<string, AdminAccount>, a: AdminAccount, dto: UpdateDto) {
    && !(Changes(dto.username, a.username) && UsernameTaken(rows, dto.username.value))
    && !(Changes(dto.phoneNumber, a.phoneNumber) && PhoneTaken(rows, dto.phoneNumber.value))
    && !(Changes(dto.email, a.email) && EmailTaken(rows, dto.email.value))
  }

  /** What `updateAdmin(id, dto)` decides: uniqueness is checked only for a
      value that changes, in the order username, phone, email; an `isActive`
      sent as `null` is assigned and refused by its NOT NULL column. */
  function UpdateOutcome(hasher: Hasher, rows: map<string, AdminAccount>, id: string, dto: UpdateDto): (r: Result<AdminAccount>)
    ensures id !in rows ==> r == Err(NotFound(AdminNotFound))
    ensures r == Err(Conflict(UsernameExists)) <==>
      id in rows && Changes(dto.username, rows[id].username) && UsernameTaken(rows, dto.username.value)
    ensures r == Err(Conflict(PhoneExists)) <==>
      id in rows && !(Changes(dto.username, rows[id].username) && UsernameTaken(rows, dto.username.value))
      && Changes(dto.phoneNumber, rows[id].phoneNumber) && PhoneTaken(rows, dto.phoneNumber.value)
    ensures id in rows && NoConflict(rows, rows[id], dto) && dto.isActive.Null? ==> r == Err(QueryFailedError(NotNullViolation))
    ensures r.Ok? ==> id in rows && NoConflict(rows, rows[id], dto) && !dto.isActive.Null?
                      && r.value == Edited(hasher, rows[id], dto) && SaveError(rows, r.value).None?
  {
    if id !in rows then Err(NotFound(AdminNotFound))
    else
      var a := rows[id];
      if Changes(dto.username, a.username) && UsernameTaken(rows, dto.username.value) then Err(Conflict(UsernameExists))
      else if Changes(dto.phoneNumber, a.phoneNumber) && PhoneTaken(rows, dto.phoneNumber.value) then Err(Conflict(PhoneExists))
      else if Changes(dto.email, a.email) && EmailTaken(rows, dto.email.value) then Err(Conflict(EmailExists))
      else if dto.isActive.Null? then Err(QueryFailedError(NotNullViolation))
      else
        var m := Edited(hasher, a, dto);
        match SaveError(rows, m)
        case Some(e) => Err(e)
        case None => Ok(m)
  }

  /** Sending back the current username, phone and email, or nothing, never
      raises a conflict. */
  lemma UnchangedValuesDoNotConflict(hasher: Hasher, rows: map<string, AdminAccount>, id: string, dto: UpdateDto)
    requires id in rows
    requires !Changes(dto.username, rows[id].username) && !Changes(dto.phoneNumber, rows[id].phoneNumber)
    requires !Changes(dto.email, rows[id].email)
    ensures UpdateOutcome(hasher, rows, id, dto) != Err(Conflict(UsernameExists))
    ensures UpdateOutcome(hasher, rows, id, dto) != Err(Conflict(PhoneExists))
    ensures UpdateOutcome(hasher, rows, id, dto) != Err(Conflict(EmailExists))
  {
  }

  /** A changed phone or email that another row has is refused (once the
      username has passed). */
  lemma ChangedValuesConflict(hasher: Hasher, rows: map<string, AdminAccount>, id: string, dto: UpdateDto)
    requires id in rows && !(Changes(dto.username, rows[id].username) && UsernameTaken(rows, dto.username.value))
    ensures Changes(dto.phoneNumber, rows[id].phoneNumber) && PhoneTaken(rows, dto.phoneNumber.value) ==>
      UpdateOutcome(hasher, rows, id, dto) == Err(Conflict(PhoneExists))
    ensures !(Changes(dto.phoneNumber, rows[id].phoneNumber) && PhoneTaken(rows, dto.phoneNumber.value)) &&
            Changes(dto.email, rows[id].email) && EmailTaken(rows, dto.email.value) ==>
      UpdateOutcome(hasher, rows, id, dto) == Err(Conflict(EmailExists))
  {
  }

  /** `role` and `isActive` change only when provided, the password only when
      a non-empty one is sent, and the id never. */
  lemma UpdatedFields(hasher: Hasher, rows: map<string, AdminAccount>, id: string, dto: UpdateDto)
    requires UpdateOutcome(hasher, rows, id, dto).Ok?
    ensures var a := UpdateOutcome(hasher, rows, id, dto).value;
      && a.id == rows[id].id
      && (dto.role.None? ==> a.role == rows[id].role)
      && (dto.role.Some? ==> a.role == dto.role.value)
      && a.isActive == (if dto.isActive.Given? then dto.isActive.value else rows[id].isActive)
      && a.password == (if Sent(dto.password) then hasher.hash(dto.password.value) else rows[id].password)
      && a.username == (if Sent(dto.username) then dto.username.value else rows[id].username)
      && a.phoneNumber == (if Sent(dto.phoneNumber) then dto.phoneNumber.value else rows[id].phoneNumber)
      && a.email == (if Sent(dto.email) then dto.email.value else rows[id].email)
  {
  }

  /** What `deleteAdmin(id)` decides: a superadmin is never removed. */
  function DeleteOutcome(rows: map<string, AdminAccount>, id: string): (r: Result<Unit>)
    ensures id !in rows ==> r == Err(NotFound(AdminNotFound))
    ensures id in rows && rows[id].role == SuperAdmin ==> r == Err(Forbidden(SuperAdminUndeletable))
    ensures r.Ok? <==> id in rows && rows[id].role != SuperAdmin
  {
    if id !in rows then Err(NotFound(AdminNotFound))
    else if rows[id].role == SuperAdmin then Err(Forbidden(SuperAdminUndeletable))
    else Ok(Unit)
  }

  function Removed(rows: map<string, AdminAccount>, id: string, o: Result<Unit>): (t: map<string, AdminAccount>)
    ensures o.Err? ==> t == rows
    ensures o.Ok? ==> t == rows - {id}
  {
    if o.Ok? then rows - {id} else rows
  }

  /** Deleting never removes a superadmin: every superadmin row survives. */
  lemma DeleteKeepsSuperAdmins(rows: map<string, AdminAccount>, id: string)
    ensures forall k :: k in rows && rows[k].role == SuperAdmin ==>
      k in Removed(rows, id, DeleteOutcome(rows, id)) && Removed(rows, id, DeleteOutcome(rows, id))[k] == rows[k]
  {
  }

  /** Seeding, creation and update keep the table consistent. */
  lemma SeedKeepsConsistent(hasher: Hasher, rows: map<string, AdminAccount>, cfg: SuperAdminConfig, newId: string)
    requires Consistent(rows)
    ensures Consistent(Seeded(rows, SeedOutcome(hasher, rows, cfg, newId)))
  {
    var o := SeedOutcome(hasher, rows, cfg, newId);
    if o.Ok? && o.value.Some? {
      SaveKeepsConsistent(rows, o.value.value);
    }
  }

  lemma CreateKeepsConsistent(hasher: Hasher, rows: map<string, AdminAccount>, dto: CreateDto, newId: string)
    requires Consistent(rows)
    ensures Consistent(Stored(rows, newId, CreateOutcome(hasher, rows, dto, newId)))
  {
    var o := CreateOutcome(hasher, rows, dto, newId);
    if o.Ok? {
      SaveKeepsConsistent(rows, o.value);
    }
  }

  lemma UpdateKeepsConsistent(hasher: Hasher, rows: map<string, AdminAccount>, id: string, dto: UpdateDto)
    requires Consistent(rows)
    ensures Consistent(Stored(rows, id, UpdateOutcome(hasher, rows, id, dto)))
  {
    var o := UpdateOutcome(hasher, rows, id, dto);
    if o.Ok? {
      assert o.value.id == rows[id].id == id;
      SaveKeepsConsistent(rows, o.value);
    }
  }

  /** The response of an operation that saves an admin. */
  function Reply(o: Result<AdminAccount>, status: int): (r: Result<Success>)
    ensures r.Ok? <==> o.Ok?
    ensures o.Err? ==> r == Err(o.error)
    ensures o.Ok? ==> r.value.data == View(o.value) && r.value.statusCode == status
  {
    match o
    case Ok(a) => Ok(SuccessRes(View(a), status))
    case Err(e) => Err(e)
  }

  /** One bucket of the dashboard series: a day and its count. */
  datatype DayCount = DayCount(day: string, count: int)

  /** `days.map(d => ({day: d, count: map.get(d) ?? 0}))`, where the map is
      `new Map(rows.map(r => [r.day, Number(r.count)]))` over the raw rows of
      the per-day query. */
  function CountByDay(rows: seq<(string, int)>, days: seq<string>): (r: seq<DayCount>)
    ensures |r| == |days|
    ensures forall i :: 0 <= i < |days| ==> r[i].day == days[i]
  {
    var counts := ToMap(rows);
    seq(|days|, i requires 0 <= i < |days| => DayCount(days[i], if days[i] in counts then counts[days[i]] else 0))
  }

  /** The buckets are zero-filled: a day the query did not return counts 0,
      and a day it returned counts what its (last) row says. */
  lemma CountByDayZeroFills(rows: seq<(string, int)>, days: seq<string>, i: int)
    requires 0 <= i < |days|
    ensures (forall j :: 0 <= j < |rows| ==> rows[j].0 != days[i]) ==> CountByDay(rows, days)[i].count == 0
    ensures forall j :: 0 <= j < |rows| && rows[j].0 == days[i] && (forall k :: j < k < |rows| ==> rows[k].0 != days[i]) ==>
      CountByDay(rows, days)[i].count == rows[j].1
  {
    if forall j :: 0 <= j < |rows| ==> rows[j].0 != days[i] {
      AbsentKeyHasNoValue(rows, days[i]);
    }
    forall j | 0 <= j < |rows| && rows[j].0 == days[i] && (forall k :: j < k < |rows| ==> rows[k].0 != days[i])
      ensures CountByDay(rows, days)[i].count == rows[j].1
    {
      LastEntryWins(rows, j);
    }
  }

  /** `lastNDays(n)`: the `n` days ending today, oldest first, as day numbers
      (`today` is the current day; the ISO rendering is not modelled). */
  method LastNDays(today: int, n: int) returns (days: seq<int>)
    ensures |days| == if n > 0 then n else 0
    ensures forall j :: 0 <= j < |days| ==> days[j] == today - (|days| - 1) + j
  {
    days := [];
    var i := n - 1;
    while i >= 0
      invariant -1 <= i < n || (n <= 0 && i == n - 1)
      invariant |days| == n - 1 - i
      invariant forall j :: 0 <= j < |days| ==> days[j] == today - (n - 1) + j
      decreases i + 1
    {
      days := days + [today - i];
      i := i - 1;
    }
  }

  class AdminService {
    const hasher: Hasher
    /** The `admin` table by id. */
    var admins: map<string, AdminAccount>

    constructor(hasher: Hasher, admins: map<string, AdminAccount>)
      ensures this.hasher == hasher && this.admins == admins
    {
      this.hasher := hasher;
      this.admins := admins;
    }

    /** `onModuleInit`: seeds the superadmin when there is none. */
    method OnModuleInit(cfg: SuperAdminConfig, newId: string) returns (r: Result<Unit>)
      requires newId !in admins
      modifies this
      ensures r.Ok? <==> SeedOutcome(hasher, old(admins), cfg, newId).Ok?
      ensures r.Err? ==> r.error == SeedOutcome(hasher, old(admins), cfg, newId).error
      ensures admins == Seeded(old(admins), SeedOutcome(hasher, old(admins), cfg, newId))
    {
      if HasSuperAdmin(admins) {
        return Ok(Unit);
      }
      var superAdmin := AdminAccount(newId, cfg.username, cfg.phoneNumber, cfg.email, hasher.hash(cfg.password), SuperAdmin, true);
      var failure := SaveError(admins, superAdmin);
      if failure.Some? {
        return Err(failure.value);
      }
      admins := admins[newId := superAdmin];
      return Ok(Unit);
    }

    /** `createAdmin` */
    method CreateAdmin(dto: CreateDto, newId: string) returns (r: Result<Success>)
      requires newId !in admins
      modifies this
      ensures r == Reply(CreateOutcome(hasher, old(admins), dto, newId), 201)
      ensures admins == Stored(old(admins), newId, CreateOutcome(hasher, old(admins), dto, newId))
    {
      if UsernameTaken(admins, dto.username) {
        return Err(Conflict(UsernameExists));
      }
      if PhoneTaken(admins, dto.phoneNumber) {
        return Err(Conflict(PhoneExists));
      }
      if EmailTaken(admins, dto.email) {
        return Err(Conflict(EmailExists));
      }
      var admin := AdminAccount(newId, dto.username, dto.phoneNumber, dto.email, hasher.hash(dto.password), Admin, true);
      admins := admins[newId := admin];
      return Ok(SuccessRes(View(admin), 201));
    }

    /** `updateAdmin(id, dto)`: each check runs before its field is assigned. */
    method UpdateAdmin(id: string, dto: UpdateDto) returns (r: Result<Success>)
      modifies this
      ensures r == Reply(UpdateOutcome(hasher, old(admins), id, dto), 200)
      ensures admins == Stored(old(admins), id, UpdateOutcome(hasher, old(admins), id, dto))
    {
      ghost var o := UpdateOutcome(hasher, admins, id, dto);
      if id !in admins {
        return Err(NotFound(AdminNotFound));
      }
      var admin := admins[id];
      if Changes(dto.username, admin.username) && UsernameTaken(admins, dto.username.value) {
        assert o == Err(Conflict(UsernameExists));
        return Err(Conflict(UsernameExists));
      }
      admin := WithUsername(admin, dto);
      if Changes(dto.phoneNumber, admin.phoneNumber) && PhoneTaken(admins, dto.phoneNumber.value) {
        assert o == Err(Conflict(PhoneExists));
        return Err(Conflict(PhoneExists));
      }
      admin := WithPhone(admin, dto);
      if Changes(dto.email, admin.email) && EmailTaken(admins, dto.email.value) {
        assert o == Err(Conflict(EmailExists));
        return Err(Conflict(EmailExists));
      }
      admin := WithRest(hasher, WithEmail(admin, dto), dto);
      UpdateReachesSave(hasher, admins, id, dto, admin);
      if dto.isActive.Null? {
        return Err(QueryFailedError(NotNullViolation));
      }
      var failure := SaveError(admins, admin);
      if failure.Some? {
        return Err(failure.value);
      }
      admins := admins[id := admin];
      return Ok(SuccessRes(View(admin), 200));
    }

    /** `deleteAdmin(id)` */
    method DeleteAdmin(id: string) returns (r: Result<Success>)
      modifies this
      ensures r.Ok? <==> DeleteOutcome(old(admins), id).Ok?
      ensures r.Err? ==> r.error == DeleteOutcome(old(admins), id).error
      ensures r.Ok? ==> r.value == SuccessRes(DeletedBody, 200)
      ensures admins == Removed(old(admins), id, DeleteOutcome(old(admins), id))
    {
      if id !in admins {
        return Err(NotFound(AdminNotFound));
      }
      if admins[id].role == SuperAdmin {
        return Err(Forbidden(SuperAdminUndeletable));
      }
      admins := admins - {id};
      return Ok(SuccessRes(DeletedBody, 200));
    }
  }

  /** Past the three checks, `updateAdmin` ends with the save of the edited row. */
  lemma UpdateReachesSave(hasher: Hasher, rows: map<string, AdminAccount>, id: string, dto: UpdateDto, a: AdminAccount)
    requires id in rows
    requires !(Changes(dto.username, rows[id].username) && UsernameTaken(rows, dto.username.value))
    requires !(Changes(dto.phoneNumber, rows[id].phoneNumber) && PhoneTaken(rows, dto.phoneNumber.value))
    requires !(Changes(dto.email, rows[id].email) && EmailTaken(rows, dto.email.value))
    requires a == Edited(hasher, rows[id], dto)
    ensures UpdateOutcome(hasher, rows, id, dto) ==
      (if dto.isActive.Null? then Err(QueryFailedError(NotNullViolation))
       else if SaveError(rows, a).Some? then Err(SaveError(rows, a).value) else Ok(a))
  {
  }
}
