/** `successRes`: the envelope every successful response is wrapped in. */
module SuccessResponse {
  import opened Common
  import opened Json

  /** A message in both languages of the API. */
  datatype LangMessage = LangMessage(uz: string, ru: string)

  const DefaultMessage: LangMessage := LangMessage("Amaliyot muvaffaqiyatli bajarildi", "Операция успешно выполнена")

  /** `ISuccess`: `meta` is either present or the key is missing altogether. */
  datatype Success = Success(statusCode: int, message: LangMessage, data: Json, meta: Option<Json>)

  /** `successRes(data, statusCode = 200, message = DefaultMessage, meta?)`: the
      arguments are returned as given, and `meta` is attached only when truthy. */
  function SuccessRes(data: Json, statusCode: int := 200, message: LangMessage := DefaultMessage, meta: Json := JUndefined): (r: Success)
    ensures r.data == data && r.statusCode == statusCode && r.message == message
    ensures r.meta.Some? <==> meta.Truthy()
    ensures r.meta.Some? ==> r.meta.value == meta
  {
    Success(statusCode, message, data, if meta.Truthy() then Some(meta) else None)
  }

  function LangMessageJson(m: LangMessage): Json {
    JObj(map["uz" := JStr(m.uz), "ru" := JStr(m.ru)])
  }

  /** The response body as it is serialised. */
  function ToJson(r: Success): (j: Json)
    ensures j.JObj? && j.Has("statusCode") && j.Has("message") && j.Has("data")
    ensures j.Has("meta") <==> r.meta.Some?
  {
    var base := map["statusCode" := JNum(r.statusCode), "message" := LangMessageJson(r.message), "data" := r.data];
    JObj(if r.meta.Some? then base["meta" := r.meta.value] else base)
  }

  /** `{ deleted: true }`, the data of every delete. */
  const DeletedBody: Json := JObj(map["deleted" := JBool(true)])
}
