/** The body mapping of `SuccessMessageInterceptor`: a bilingual `message` is
    replaced by the text in the request's language. */
module SuccessMessage {
  import opened Common
  import opened Json
  import opened SuccessResponse

  /** `req.lang ?? 'uz'` compared with `'ru'`. */
  predicate WantsRussian(lang: Option<string>) {
    lang.GetOr("uz") == "ru"
  }

  /** The body is a non-null object whose truthy `message` is an object with both
      `uz` and `ru` keys. */
  predicate Localizable(body: Json) {
    && body.Truthy() && body.IsObjectLike()
    && var msg := body.Get("message");
       msg.Truthy() && msg.IsObjectLike() && msg.Has("uz") && msg.Has("ru")
  }

  function Localize(lang: Option<string>, body: Json): (r: Json)
    ensures !Localizable(body) ==> r == body
    ensures Localizable(body) ==> r.JObj? && r.Has("message")
    ensures Localizable(body) ==>
      r.Get("message") == body.Get("message").Get(if WantsRussian(lang) then "ru" else "uz")
    ensures forall k :: k != "message" ==> r.Get(k) == body.Get(k)
  {
    if !body.Truthy() || !body.IsObjectLike() then body
    else
      var msg := body.Get("message");
      if msg.Truthy() && msg.IsObjectLike() && msg.Has("uz") && msg.Has("ru") then
        JObj(body.fields["message" := if WantsRussian(lang) then msg.Get("ru") else msg.Get("uz")])
      else body
  }

  /** Every success envelope reaches the client with its message in one language
      (Uzbek unless the request asked for Russian) and the rest untouched. */
  lemma EnvelopeIsLocalized(lang: Option<string>, s: Success)
    ensures Localize(lang, ToJson(s)).Get("message") == JStr(if WantsRussian(lang) then s.message.ru else s.message.uz)
    ensures Localize(lang, ToJson(s)).Get("data") == s.data
    ensures Localize(lang, ToJson(s)).Get("statusCode") == JNum(s.statusCode)
  {
    var j := ToJson(s);
    assert j.Get("message") == LangMessageJson(s.message);
    assert Localizable(j);
  }

  /** Localizing twice is localizing once, whatever the two languages: the first
      pass leaves a message that is no longer bilingual. */
  lemma LocalizeOnce(lang: Option<string>, lang2: Option<string>, s: Success)
    ensures Localize(lang2, Localize(lang, ToJson(s))) == Localize(lang, ToJson(s))
  {
    EnvelopeIsLocalized(lang, s);
    var r := Localize(lang, ToJson(s));
    assert !r.Get("message").IsObjectLike();
  }
}
