/**
 * The minimal client (src/magellanic.client.ts): it posts a random string
 * when it authenticates and recognises the control plane's echo of it.
 */
module InitStringClient {
  import opened Js

  class MagellanicClient {
    const tdtiId: string
    const randomInitString: string

    /** `new MagellanicClient(tdtiId)`, with `nonce` the value uuid() returned. */
    constructor (tdtiId: string, nonce: string)
      ensures this.tdtiId == tdtiId && randomInitString == nonce
    {
      this.tdtiId := tdtiId;
      randomInitString := nonce;
    }

    /** The body `authenticate` posts to `workloads`. */
    function AuthRequestBody(): (body: JsValue)
      ensures Get(body, "randomString") == Str(randomInitString)
    {
      Obj(map["randomString" := Str(randomInitString)])
    }

    /**
     * The `result` field of `validateAuthWebhookPayload`. JavaScript's `&&`
     * hands back a falsy payload itself, so the result is a value, not a boolean.
     */
    function ValidateAuthWebhookPayload(payload: JsValue): (result: JsValue)
      ensures !Truthy(payload) ==> result == payload
      ensures Truthy(payload) ==> result.Bool?
      ensures Truthy(result) <==> Truthy(payload) && Get(payload, "randomString") == Str(randomInitString)
      ensures result == Bool(true) <==> Truthy(payload) && Get(payload, "randomString") == Str(randomInitString)
    {
      if !Truthy(payload) then payload
      else Bool(Get(payload, "randomString") == Str(randomInitString))
    }

    /** Echoing the posted body back is accepted; a different string is not. */
    lemma EchoAccepted(other: string)
      ensures ValidateAuthWebhookPayload(AuthRequestBody()) == Bool(true)
      ensures other != randomInitString ==>
        ValidateAuthWebhookPayload(Obj(map["randomString" := Str(other)])) == Bool(false)
    {
    }
  }
}
