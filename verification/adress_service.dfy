/** `AdressService`: the addresses markets point at, a name with optional
    coordinates. Coordinates are stored and returned as given. */
module AdressService {
  import opened Common
  import opened Json
  import opened Strings
  import opened Entities
  import opened SuccessResponse

  /** The body of `POST /adress` and of `PATCH /adress/:id`. */
  datatype CreateDto = CreateDto(name: string, long: Field<real>, lat: Field<real>)
  datatype UpdateDto = UpdateDto(name: Field<string>, long: Field<real>, lat: Field<real>)

  function Coordinate(x: Option<real>): Json {
    match x
    case Some(v) => JReal(v)
    case None => JNull
  }

  /** The whole row, as a loaded entity shows it. */
  function AdressRow(a: Adress): map<string, Json> {
    map["id" := JStr(a.id), "name" := JStr(a.name), "long" := Coordinate(a.long), "lat" := Coordinate(a.lat)]
  }

  /** The row `create` inserts: a left-out coordinate is a NULL column, as is a
      `null` one. */
  function NewAdress(dto: CreateDto, id: string): (a: Adress)
    ensures a.id == id && a.name == Trim(dto.name)
    ensures a.long.Some? <==> dto.long.Given?
    ensures a.lat.Some? <==> dto.lat.Given?
  {
    Adress(id, Trim(dto.name), dto.long.OrNull(), dto.lat.OrNull())
  }

  /** The entity `create` returns: `{ name, ...(long !== undefined ? { long } : {}), … }`
      plus the generated id. A coordinate left out of the request is missing
      from the response rather than `null`. */
  function CreatedBody(dto: CreateDto, id: string): Json {
    JObj(Spread(dto)["id" := JStr(id)])
  }

  /** The object handed to `repo.create`. */
  function Spread(dto: CreateDto): map<string, Json> {
    var base := map["name" := JStr(Trim(dto.name))];
    var withLong := if dto.long.Defined() then base["long" := Coordinate(dto.long.OrNull())] else base;
    if dto.lat.Defined() then withLong["lat" := Coordinate(dto.lat.OrNull())] else withLong
  }

  /** The created body carries a coordinate exactly when the request defined
      it, with the sent value, and its name is trimmed. */
  lemma CreatedBodyShape(dto: CreateDto, id: string)
    ensures CreatedBody(dto, id).Has("long") <==> dto.long.Defined()
    ensures CreatedBody(dto, id).Has("lat") <==> dto.lat.Defined()
    ensures dto.long.Defined() ==> CreatedBody(dto, id).Get("long") == Coordinate(NewAdress(dto, id).long)
    ensures dto.lat.Defined() ==> CreatedBody(dto, id).Get("lat") == Coordinate(NewAdress(dto, id).lat)
    ensures CreatedBody(dto, id).Get("name") == JStr(NewAdress(dto, id).name) && Trimmed(NewAdress(dto, id).name)
  {
  }

  /** The row after the assignments of `update`; a `null` name never gets here
      (its `trim()` throws). */
  function Edited(a: Adress, dto: UpdateDto): Adress {
    a.(
      name := if dto.name.Given? then Trim(dto.name.value) else a.name,
      long := if dto.long.Defined() then dto.long.OrNull() else a.long,
      lat := if dto.lat.Defined() then dto.lat.OrNull() else a.lat)
  }

  /** The outcome of `update` for the stored row. */
  function UpdateOutcome(adresses: map<string, Adress>, id: string, dto: UpdateDto): (r: Result<Adress>)
    ensures id !in adresses ==> r == Err(NotFound("Not found"))
    ensures id in adresses && dto.name.Null? ==> r == Err(TypeError)
    ensures r.Ok? <==> id in adresses && !dto.name.Null?
    ensures r.Ok? ==> r.value == Edited(adresses[id], dto)
  {
    if id !in adresses then Err(NotFound("Not found"))
    else if dto.name.Null? then Err(TypeError)
    else Ok(Edited(adresses[id], dto))
  }

  /** Only the fields the request defines change, the name trimmed; the id
      never does. */
  lemma UpdatedFields(a: Adress, dto: UpdateDto)
    ensures var u := Edited(a, dto);
      && u.id == a.id
      && (dto.name.Absent? ==> u.name == a.name)
      && (dto.name.Given? ==> u.name == Trim(dto.name.value) && Trim(u.name) == u.name)
      && (dto.long.Absent? ==> u.long == a.long)
      && (dto.long.Defined() ==> u.long == dto.long.OrNull())
      && (dto.lat.Absent? ==> u.lat == a.lat)
      && (dto.lat.Defined() ==> u.lat == dto.lat.OrNull())
  {
    if dto.name.Given? {
      TrimIdempotent(dto.name.value);
    }
  }

  class AdressService {
    /** The `adress` table by id. */
    var adresses: map<string, Adress>

    constructor(adresses: map<string, Adress>)
      ensures this.adresses == adresses
    {
      this.adresses := adresses;
    }

    /** `create(dto)`: the trimmed name and the coordinates the request defines
        are saved under the generated id, and returned with status 201. */
    method Create(dto: CreateDto, newId: string) returns (r: Success)
      requires newId !in adresses
      modifies this
      ensures adresses == old(adresses)[newId := NewAdress(dto, newId)]
      ensures r == SuccessRes(CreatedBody(dto, newId), 201)
    {
      var entity := map["name" := JStr(Trim(dto.name))];
      if dto.long.Defined() {
        entity := entity["long" := Coordinate(dto.long.OrNull())];
      }
      if dto.lat.Defined() {
        entity := entity["lat" := Coordinate(dto.lat.OrNull())];
      }
      assert entity == Spread(dto);
      adresses := adresses[newId := NewAdress(dto, newId)];
      return SuccessRes(JObj(entity["id" := JStr(newId)]), 201);
    }

    /** `update(id, dto)`: NotFound for a missing row; otherwise the fields the
        request defines are assigned one by one, and the saved row returned. */
    method Update(id: string, dto: UpdateDto) returns (r: Result<Success>)
      modifies this
      ensures adresses == Stored(old(adresses), id, UpdateOutcome(old(adresses), id, dto))
      ensures UpdateOutcome(old(adresses), id, dto).Err? ==> r == Err(UpdateOutcome(old(adresses), id, dto).error)
      ensures UpdateOutcome(old(adresses), id, dto).Ok? ==>
        r == Ok(SuccessRes(JObj(AdressRow(UpdateOutcome(old(adresses), id, dto).value))))
    {
      if id !in adresses {
        return Err(NotFound("Not found"));
      }
      var address := adresses[id];
      if dto.name.Null? {
        return Err(TypeError);
      }
      if dto.name.Given? {
        address := address.(name := Trim(dto.name.value));
      }
      if dto.long.Defined() {
        address := address.(long := dto.long.OrNull());
      }
      if dto.lat.Defined() {
        address := address.(lat := dto.lat.OrNull());
      }
      adresses := adresses[id := address];
      return Ok(SuccessRes(JObj(AdressRow(address))));
    }
  }
}
