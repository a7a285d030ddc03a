/** `BaseService`: the create / find / update / delete operations every service
    inherits, over a table whose rows are seen as JSON objects keyed by id. */
module BaseService {
  import opened Common
  import opened Json
  import opened SuccessResponse

  /** A row of some table: its columns by name. */
  type Row = map<string, Json>

  /** Every row is stored under its own `id` column. */
  ghost predicate Keyed(rows: map<string, Row>) {
    forall k :: k in rows ==> "id" in rows[k] && rows[k]["id"] == JStr(k)
  }

  /** A `where` object matches a row when every criterion that is neither
      `undefined` nor `null` equals the row's column (TypeORM 0.3 drops both;
      only `IsNull()` asks for a null column). */
  predicate Matches(row: Row, where: Row) {
    forall c :: c in where && where[c] != JUndefined && where[c] != JNull ==> c in row && row[c] == where[c]
  }

  /** A `null` criterion is dropped: the lookup answers as if it were not
      there, so `{ email: null }` also finds a row whose email is set. */
  lemma NullCriterionIsDropped(row: Row, where: Row, c: string)
    requires c in where && where[c] == JNull
    ensures Matches(row, where) <==> Matches(row, where - {c})
    ensures Matches(map["id" := JStr("k"), "email" := JStr("a")], map["email" := JNull])
  {
  }

  /** `repo.merge(entity, dto)`: every property of the DTO that is not
      `undefined` overwrites the column; `id` is never taken from a DTO. */
  function Merge(entity: Row, dto: Row): (m: Row)
    ensures forall c :: c in m <==> c in entity || (c in dto && c != "id" && dto[c] != JUndefined)
    ensures forall c :: c in dto && c != "id" && dto[c] != JUndefined ==> m[c] == dto[c]
    ensures forall c :: c in entity && !(c in dto && c != "id" && dto[c] != JUndefined) ==> m[c] == entity[c]
  {
    map c | c in entity.Keys + dto.Keys && (c in entity || (c in dto && c != "id" && dto[c] != JUndefined)) ::
      if c in dto && c != "id" && dto[c] != JUndefined then dto[c] else entity[c]
  }

  /** Merging the same DTO twice changes nothing the first merge did not. */
  lemma MergeIsIdempotent(entity: Row, dto: Row)
    ensures Merge(Merge(entity, dto), dto) == Merge(entity, dto)
  {
    var once := Merge(entity, dto);
    var twice := Merge(once, dto);
    assert forall c :: c in twice <==> c in once;
    assert forall c :: c in twice ==> twice[c] == once[c];
  }

  /** An update never moves a row: the merged row keeps its id. */
  lemma MergeKeepsId(entity: Row, dto: Row)
    requires "id" in entity
    ensures "id" in Merge(entity, dto) && Merge(entity, dto)["id"] == entity["id"]
  {
  }

  class BaseService {
    /** The repository's table by id. */
    var rows: map<string, Row>

    constructor(rows: map<string, Row>)
      ensures this.rows == rows
    {
      this.rows := rows;
    }

    /** `create(dto)`: the DTO is saved as a new row under the fresh id and
        returned with status 201. */
    method Create(dto: Row, newId: string) returns (r: Success)
      requires newId !in rows
      modifies this
      ensures rows == old(rows)[newId := dto["id" := JStr(newId)]]
      ensures r == SuccessRes(JObj(dto["id" := JStr(newId)]), 201)
    {
      var saved := dto["id" := JStr(newId)];
      rows := rows[newId := saved];
      return SuccessRes(JObj(saved), 201);
    }

    /** `findOneBy(where)`: some row the criteria match, or "Not found". */
    method FindOneBy(where: Row) returns (r: Result<Success>)
      ensures r.Ok? <==> exists k :: k in rows && Matches(rows[k], where)
      ensures r.Err? ==> r.error == NotFound("Not found")
      ensures r.Ok? ==> exists k :: k in rows && Matches(rows[k], where) && r.value == SuccessRes(JObj(rows[k]))
    {
      if !exists k :: k in rows && Matches(rows[k], where) {
        return Err(NotFound("Not found"));
      }
      var k :| k in rows && Matches(rows[k], where);
      return Ok(SuccessRes(JObj(rows[k])));
    }

    /** `findOneById(id)`: `findOneBy({ id })`, which in a keyed table finds
        exactly the row stored under `id`. */
    method FindOneById(id: string) returns (r: Result<Success>)
      requires Keyed(rows)
      ensures r.Ok? <==> id in rows
      ensures r.Err? ==> r.error == NotFound("Not found")
      ensures r.Ok? ==> r.value == SuccessRes(JObj(rows[id]))
    {
      ByIdMatchesOnlyItsRow(rows, id);
      r := FindOneBy(map["id" := JStr(id)]);
    }

    /** `update(id, dto)`: the stored row merged with the DTO. */
    method Update(id: string, dto: Row) returns (r: Result<Success>)
      modifies this
      ensures id !in old(rows) ==> r == Err(NotFound("Not found")) && rows == old(rows)
      ensures id in old(rows) ==>
        rows == old(rows)[id := Merge(old(rows)[id], dto)] && r == Ok(SuccessRes(JObj(Merge(old(rows)[id], dto))))
    {
      if id !in rows {
        return Err(NotFound("Not found"));
      }
      var merged := Merge(rows[id], dto);
      rows := rows[id := merged];
      return Ok(SuccessRes(JObj(merged)));
    }

    /** `delete(id)`: the row is gone and `{ deleted: true }` is returned. */
    method Delete(id: string) returns (r: Result<Success>)
      modifies this
      ensures id !in old(rows) ==> r == Err(NotFound("Not found")) && rows == old(rows)
      ensures id in old(rows) ==> rows == old(rows) - {id} && r == Ok(SuccessRes(DeletedBody))
    {
      if id !in rows {
        return Err(NotFound("Not found"));
      }
      rows := rows - {id};
      return Ok(SuccessRes(DeletedBody));
    }
  }

  /** In a keyed table the criteria `{ id }` match the row under `id` and no
      other. */
  lemma ByIdMatchesOnlyItsRow(rows: map<string, Row>, id: string)
    requires Keyed(rows)
    ensures forall k :: k in rows ==> (Matches(rows[k], map["id" := JStr(id)]) <==> k == id)
  {
    forall k | k in rows
      ensures Matches(rows[k], map["id" := JStr(id)]) <==> k == id
    {
      var w := map["id" := JStr(id)];
      if k == id {
        assert Matches(rows[k], w);
      } else {
        assert w["id"] != JUndefined && rows[k]["id"] != w["id"];
      }
    }
  }

  /** The table after `create` is still keyed, and so it is after `update`. */
  lemma CreateKeepsKeyed(rows: map<string, Row>, dto: Row, newId: string)
    requires Keyed(rows)
    ensures Keyed(rows[newId := dto["id" := JStr(newId)]])
  {
  }

  lemma UpdateKeepsKeyed(rows: map<string, Row>, id: string, dto: Row)
    requires Keyed(rows) && id in rows
    ensures Keyed(rows[id := Merge(rows[id], dto)])
  {
    MergeKeepsId(rows[id], dto);
  }
}
