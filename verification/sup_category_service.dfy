/** `SupCategoryService`: sub-categories of an existing category, with a
    unique, trimmed Uzbek name, a unique Russian name when there is one, and
    optional uploaded photo and icon that a failed create or update removes. */
module SupCategoryService {
  import opened Common
  import opened Json
  import opened Strings
  import opened Entities
  import opened SuccessResponse
  import opened UploadCleanup

  const NameRequired: string := "nameUz is required"
  const NameEmpty: string := "nameUz cannot be empty"
  const NameExists: string := "SupCategory nameUz already exists"
  const CategoryMissing: string := "Category not found"

  datatype CreateDto = CreateDto(nameUz: Field<string>, nameRu: Field<string>, categoryId: string)

  /** `categoryId` is either left out or a category id. */
  datatype UpdateDto = UpdateDto(nameUz: Field<string>, nameRu: Field<string>, categoryId: Option<string>)

  predicate NameTaken(rows: map<string, SupCategory>, nameUz: string, ignore: Option<string>) {
    exists k :: k in rows && rows[k].nameUz == nameUz && Some(k) != ignore
  }

  /** Some other row has the same non-null Russian name. */
  predicate NameRuTaken(rows: map<string, SupCategory>, s: SupCategory) {
    s.nameRu.Some? && exists k :: k in rows && k != s.id && rows[k].nameRu == s.nameRu
  }

  /** The `sup_category` table's constraints on `save`: `nameUz` UNIQUE and
      `nameRu` UNIQUE among the non-null values. */
  function SaveError(rows: map<string, SupCategory>, s: SupCategory): (e: Option<Exception>)
    ensures e.None? <==> !NameTaken(rows, s.nameUz, Some(s.id)) && !NameRuTaken(rows, s)
    ensures e.Some? ==> e.value == QueryFailedError(UniqueViolation)
  {
    if NameTaken(rows, s.nameUz, Some(s.id)) || NameRuTaken(rows, s) then Some(QueryFailedError(UniqueViolation)) else None
  }

  /** Rows under their own ids, trimmed non-empty unique Uzbek names and
      unique Russian names. */
  ghost predicate Consistent(rows: map<string, SupCategory>) {
    && (forall k :: k in rows ==> rows[k].id == k && rows[k].nameUz != "" && Trim(rows[k].nameUz) == rows[k].nameUz)
    && (forall a, b :: a in rows && b in rows && a != b ==> rows[a].nameUz != rows[b].nameUz)
    && (forall a, b :: a in rows && b in rows && a != b && rows[a].nameRu.Some? ==> rows[a].nameRu != rows[b].nameRu)
  }

  lemma SaveKeepsConsistent(rows: map<string, SupCategory>, s: SupCategory)
    requires Consistent(rows) && SaveError(rows, s).None?
    requires s.nameUz != "" && Trim(s.nameUz) == s.nameUz
    ensures Consistent(rows[s.id := s])
  {
    var r := rows[s.id := s];
    forall a, b | a in r && b in r && a != b
      ensures r[a].nameUz != r[b].nameUz
      ensures r[a].nameRu.Some? ==> r[a].nameRu != r[b].nameRu
    {
      if a == s.id {
        assert b in rows && b != s.id;
      } else if b == s.id {
        assert a in rows && a != s.id;
      }
    }
  }

  function CreateName(dto: CreateDto): (n: Option<string>)
    ensures n.Some? <==> dto.nameUz.Given? && Trim(dto.nameUz.value) != ""
    ensures n.Some? ==> n.value == Trim(dto.nameUz.value)
  {
    if dto.nameUz.Given? && Trim(dto.nameUz.value) != "" then Some(Trim(dto.nameUz.value)) else None
  }

  /** What `create` decides: the name is required, then free, then the
      category must exist, then the constraints of the table. */
  function CreateOutcome(rows: map<string, SupCategory>, categories: map<string, Category>, dto: CreateDto,
                         files: Files, newId: string): (r: Result<SupCategory>)
    ensures CreateName(dto).None? ==> r == Err(BadRequest(NameRequired))
    ensures CreateName(dto).Some? && NameTaken(rows, CreateName(dto).value, None) ==> r == Err(Conflict(NameExists))
    ensures r == Err(BadRequest(CategoryMissing)) <==>
      CreateName(dto).Some? && !NameTaken(rows, CreateName(dto).value, None) && dto.categoryId !in categories
    ensures r.Ok? ==>
      && CreateName(dto).Some? && !NameTaken(rows, CreateName(dto).value, None) && dto.categoryId in categories
      && r.value == SupCategory(newId, CreateName(dto).value, dto.nameRu.OrNull(), dto.categoryId,
                                files.photoPath.OrNull(), files.iconPath.OrNull())
      && SaveError(rows, r.value).None?
  {
    match CreateName(dto)
    case None => Err(BadRequest(NameRequired))
    case Some(nameUz) =>
      if NameTaken(rows, nameUz, None) then Err(Conflict(NameExists))
      else if dto.categoryId !in categories then Err(BadRequest(CategoryMissing))
      else
        var s := SupCategory(newId, nameUz, dto.nameRu.OrNull(), dto.categoryId, files.photoPath.OrNull(), files.iconPath.OrNull());
        match SaveError(rows, s)
        case Some(e) => Err(e)
        case None => Ok(s)
  }

  /** The sub-category with the DTO and the uploads applied. */
  function Edited(s: SupCategory, dto: UpdateDto, files: Files): SupCategory {
    s.(nameUz := if dto.nameUz.Given? then Trim(dto.nameUz.value) else s.nameUz,
       nameRu := if dto.nameRu.Defined() then dto.nameRu.OrNull() else s.nameRu,
       categoryId := dto.categoryId.GetOr(s.categoryId),
       photoPath := Replaced(s.photoPath, files.photoPath),
       iconPath := Replaced(s.iconPath, files.iconPath))
  }

  /** The name part of `update`: `null` throws on `.trim()`, blank is refused,
      and the name must be free of every other row. */
  function NameCheck(rows: map<string, SupCategory>, id: string, nameUz: Field<string>): (r: Option<Exception>)
    ensures nameUz.Absent? ==> r.None?
    ensures nameUz.Null? ==> r == Some(TypeError)
    ensures nameUz.Given? && Trim(nameUz.value) == "" ==> r == Some(BadRequest(NameEmpty))
    ensures nameUz.Given? && Trim(nameUz.value) != "" ==> (r.None? <==> !NameTaken(rows, Trim(nameUz.value), Some(id)))
    ensures r.Some? ==> r.value in {TypeError, BadRequest(NameEmpty), Conflict(NameExists)}
  {
    match nameUz
    case Absent => None
    case Null => Some(TypeError)
    case Given(v) =>
      if Trim(v) == "" then Some(BadRequest(NameEmpty))
      else if NameTaken(rows, Trim(v), Some(id)) then Some(Conflict(NameExists))
      else None
  }

  /** What `update(id, dto, files)` decides: the name rules, then a changed
      category must exist, then the constraints of the table. */
  function UpdateOutcome(rows: map<string, SupCategory>, categories: map<string, Category>, id: string,
                         dto: UpdateDto, files: Files): (r: Result<SupCategory>)
    ensures id !in rows ==> r == Err(NotFound("Not found"))
    ensures id in rows && NameCheck(rows, id, dto.nameUz).Some? ==> r == Err(NameCheck(rows, id, dto.nameUz).value)
    ensures r == Err(BadRequest(CategoryMissing)) <==>
      id in rows && NameCheck(rows, id, dto.nameUz).None? && dto.categoryId.Some? && dto.categoryId.value !in categories
    ensures r.Ok? ==>
      && id in rows && NameCheck(rows, id, dto.nameUz).None?
      && (dto.categoryId.Some? ==> dto.categoryId.value in categories)
      && r.value == Edited(rows[id], dto, files) && SaveError(rows, r.value).None?
  {
    if id !in rows then Err(NotFound("Not found"))
    else match NameCheck(rows, id, dto.nameUz)
      case Some(e) => Err(e)
      case None =>
        if dto.categoryId.Some? && dto.categoryId.value !in categories then Err(BadRequest(CategoryMissing))
        else
          var s := Edited(rows[id], dto, files);
          match SaveError(rows, s)
          case Some(e) => Err(e)
          case None => Ok(s)
  }

  /** A saved row's category existed when it was saved: a create always
      names one, an update only when it changes the category. */
  lemma SavedCategoryExists(rows: map<string, SupCategory>, categories: map<string, Category>, id: string,
                            dto: UpdateDto, files: Files)
    requires UpdateOutcome(rows, categories, id, dto, files).Ok?
    ensures var s := UpdateOutcome(rows, categories, id, dto, files).value;
      s.categoryId == (if dto.categoryId.Some? then dto.categoryId.value else rows[id].categoryId)
      && (dto.categoryId.Some? ==> s.categoryId in categories)
  {
  }

  /** Only the fields the DTO defines change, and the files only for
      non-empty uploads. */
  lemma UpdatedFields(rows: map<string, SupCategory>, categories: map<string, Category>, id: string,
                      dto: UpdateDto, files: Files)
    requires UpdateOutcome(rows, categories, id, dto, files).Ok?
    ensures var s := UpdateOutcome(rows, categories, id, dto, files).value;
      && s.id == rows[id].id
      && (dto.nameUz.Given? ==> s.nameUz == Trim(dto.nameUz.value))
      && (dto.nameUz.Absent? ==> s.nameUz == rows[id].nameUz)
      && (dto.nameRu.Defined() ==> s.nameRu == dto.nameRu.OrNull())
      && (dto.nameRu.Absent? ==> s.nameRu == rows[id].nameRu)
      && s.categoryId == dto.categoryId.GetOr(rows[id].categoryId)
      && (Sent(files.photoPath) ==> s.photoPath == Some(files.photoPath.value))
      && (!Sent(files.photoPath) ==> s.photoPath == rows[id].photoPath)
      && (Sent(files.iconPath) ==> s.iconPath == Some(files.iconPath.value))
      && (!Sent(files.iconPath) ==> s.iconPath == rows[id].iconPath)
  {
  }

  lemma CreateKeepsConsistent(rows: map<string, SupCategory>, categories: map<string, Category>, dto: CreateDto,
                              files: Files, newId: string)
    requires Consistent(rows)
    ensures Consistent(Stored(rows, newId, CreateOutcome(rows, categories, dto, files, newId)))
  {
    var o := CreateOutcome(rows, categories, dto, files, newId);
    if o.Ok? {
      TrimIdempotent(dto.nameUz.value);
      SaveKeepsConsistent(rows, o.value);
    }
  }

  lemma UpdateKeepsConsistent(rows: map<string, SupCategory>, categories: map<string, Category>, id: string,
                              dto: UpdateDto, files: Files)
    requires Consistent(rows)
    ensures Consistent(Stored(rows, id, UpdateOutcome(rows, categories, id, dto, files)))
  {
    var o := UpdateOutcome(rows, categories, id, dto, files);
    if o.Ok? {
      if dto.nameUz.Given? {
        TrimIdempotent(dto.nameUz.value);
      }
      assert o.value.id == id;
      SaveKeepsConsistent(rows, o.value);
    }
  }

  function View(s: SupCategory): (j: Json)
    ensures j.Get("id") == JStr(s.id) && j.Get("categoryId") == JStr(s.categoryId)
  {
    JObj(map[
      "id" := JStr(s.id),
      "nameUz" := JStr(s.nameUz),
      "nameRu" := OptStr(s.nameRu),
      "categoryId" := JStr(s.categoryId),
      "photoPath" := OptStr(s.photoPath),
      "iconPath" := OptStr(s.iconPath)])
  }

  function Reply(o: Result<SupCategory>, status: int): (r: Result<Success>)
    ensures r.Ok? <==> o.Ok?
    ensures o.Err? ==> r == Err(o.error)
    ensures o.Ok? ==> r.value.data == View(o.value) && r.value.statusCode == status
  {
    match o
    case Ok(s) => Ok(SuccessRes(View(s), status))
    case Err(e) => Err(e)
  }

  class SupCategoryService {
    const disk: Disk
    /** The `sup_category` table by id. */
    var supCategories: map<string, SupCategory>

    constructor(disk: Disk, supCategories: map<string, SupCategory>)
      ensures this.disk == disk && this.supCategories == supCategories
    {
      this.disk := disk;
      this.supCategories := supCategories;
    }

    /** `create(dto, files)`; `categories` is the `category` table as
        `ensureCategoryExists` reads it. */
    method Create(categories: map<string, Category>, dto: CreateDto, files: Files, newId: string) returns (r: Result<Success>)
      requires newId !in supCategories
      modifies this, disk
      ensures r == Reply(CreateOutcome(old(supCategories), categories, dto, files, newId), 201)
      ensures supCategories == Stored(old(supCategories), newId, CreateOutcome(old(supCategories), categories, dto, files, newId))
      ensures disk.files == if r.Err? && CreateName(dto).Some? then old(disk.files) - Doomed(disk.cwd, Paths(files)) else old(disk.files)
    {
      if !dto.nameUz.Given? || Trim(dto.nameUz.value) == "" {
        return Err(BadRequest(NameRequired));
      }
      var nameUz := Trim(dto.nameUz.value);
      if NameTaken(supCategories, nameUz, None) {
        disk.Cleanup(Paths(files));
        return Err(Conflict(NameExists));
      }
      if dto.categoryId !in categories {
        disk.Cleanup(Paths(files));
        return Err(BadRequest(CategoryMissing));
      }
      var supCategory := SupCategory(newId, nameUz, dto.nameRu.OrNull(), dto.categoryId, files.photoPath.OrNull(), files.iconPath.OrNull());
      var failure := SaveError(supCategories, supCategory);
      if failure.Some? {
        disk.Cleanup(Paths(files));
        return Err(failure.value);
      }
      supCategories := supCategories[newId := supCategory];
      return Ok(SuccessRes(View(supCategory), 201));
    }

    /** `update(id, dto, files)` */
    method Update(categories: map<string, Category>, id: string, dto: UpdateDto, files: Files) returns (r: Result<Success>)
      modifies this, disk
      ensures r == Reply(UpdateOutcome(old(supCategories), categories, id, dto, files), 200)
      ensures supCategories == Stored(old(supCategories), id, UpdateOutcome(old(supCategories), categories, id, dto, files))
      ensures disk.files == if r.Err? && id in old(supCategories) then old(disk.files) - Doomed(disk.cwd, Paths(files)) else old(disk.files)
    {
      if id !in supCategories {
        return Err(NotFound("Not found"));
      }
      var supCategory := supCategories[id];
      if dto.nameUz.Defined() {
        if dto.nameUz.Null? {
          disk.Cleanup(Paths(files));
          return Err(TypeError);
        }
        var nameUz := Trim(dto.nameUz.value);
        if nameUz == "" {
          disk.Cleanup(Paths(files));
          return Err(BadRequest(NameEmpty));
        }
        if NameTaken(supCategories, nameUz, Some(id)) {
          disk.Cleanup(Paths(files));
          return Err(Conflict(NameExists));
        }
        supCategory := supCategory.(nameUz := nameUz);
      }
      if dto.nameRu.Defined() {
        supCategory := supCategory.(nameRu := dto.nameRu.OrNull());
      }
      if dto.categoryId.Some? {
        if dto.categoryId.value !in categories {
          disk.Cleanup(Paths(files));
          return Err(BadRequest(CategoryMissing));
        }
        supCategory := supCategory.(categoryId := dto.categoryId.value);
      }
      supCategory := supCategory.(photoPath := Replaced(supCategory.photoPath, files.photoPath),
                                  iconPath := Replaced(supCategory.iconPath, files.iconPath));
      UpdateReachesSave(supCategories, categories, id, dto, files, supCategory);
      var failure := SaveError(supCategories, supCategory);
      if failure.Some? {
        disk.Cleanup(Paths(files));
        return Err(failure.value);
      }
      supCategories := supCategories[id := supCategory];
      return Ok(SuccessRes(View(supCategory)));
    }

    /** `remove(id)` */
    method Remove(id: string) returns (r: Result<Success>)
      modifies this
      ensures id !in old(supCategories) ==> r == Err(NotFound("Not found")) && supCategories == old(supCategories)
      ensures id in old(supCategories) ==> r == Ok(SuccessRes(DeletedBody)) && supCategories == old(supCategories) - {id}
    {
      if id !in supCategories {
        return Err(NotFound("Not found"));
      }
      supCategories := supCategories - {id};
      return Ok(SuccessRes(DeletedBody));
    }
  }

  /** Past the name and category checks, `update` ends with the save of the
      edited row. */
  lemma UpdateReachesSave(rows: map<string, SupCategory>, categories: map<string, Category>, id: string,
                          dto: UpdateDto, files: Files, s: SupCategory)
    requires id in rows && NameCheck(rows, id, dto.nameUz).None?
    requires dto.categoryId.Some? ==> dto.categoryId.value in categories
    requires s == Edited(rows[id], dto, files)
    ensures UpdateOutcome(rows, categories, id, dto, files) == (if SaveError(rows, s).Some? then Err(SaveError(rows, s).value) else Ok(s))
  {
  }
}
