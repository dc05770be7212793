/**
 * The messages of the error classes under src/client/errors. Four of them pick
 * between the caller's string, a JSON rendering of any other truthy message and
 * a fixed default; AuthenticateError appends the control plane's response.
 */
module Errors {
  import opened Js

  const UnauthorizedDefault := "Unauthorized"
  const BadArgumentDefault := "Bad argument"
  const ForbiddenDefault := "Forbidden"
  /** UnknownError's default repeats UnauthorizedError's text. */
  const UnknownDefault := "Unauthorized"
  const ResponseSeparator := "\nResponse: "

  /** The message choice every one of the four constructors makes. */
  function SelectMessage(message: JsValue, fallback: string, render: Render): (r: string)
    ensures Truthy(message) && message.Str? ==> r == message.s
    ensures Truthy(message) && !message.Str? ==> r == render(message)
    ensures !Truthy(message) ==> r == fallback
  {
    if !Truthy(message) then fallback
    else if message.Str? then message.s
    else render(message)
  }

  /** The message is never empty when the default is not and the renderer never yields "". */
  lemma SelectedMessageNotEmpty(message: JsValue, fallback: string, render: Render)
    requires fallback != ""
    requires Truthy(message) && !message.Str? ==> render(message) != ""
    ensures SelectMessage(message, fallback, render) != ""
  {
  }

  function UnauthorizedMessage(message: JsValue, render: Render): (r: string)
    ensures Truthy(message) && message.Str? ==> r == message.s
    ensures Truthy(message) && !message.Str? ==> r == render(message)
    ensures !Truthy(message) ==> r == "Unauthorized"
    ensures message == Str("") ==> r == "Unauthorized"
  {
    SelectMessage(message, UnauthorizedDefault, render)
  }

  function BadArgumentMessage(message: JsValue, render: Render): (r: string)
    ensures Truthy(message) && message.Str? ==> r == message.s
    ensures Truthy(message) && !message.Str? ==> r == render(message)
    ensures !Truthy(message) ==> r == "Bad argument"
    ensures message == Str("") ==> r == "Bad argument"
  {
    SelectMessage(message, BadArgumentDefault, render)
  }

  function UnknownMessage(message: JsValue, render: Render): (r: string)
    ensures Truthy(message) && message.Str? ==> r == message.s
    ensures Truthy(message) && !message.Str? ==> r == render(message)
    ensures !Truthy(message) ==> r == "Unauthorized"
    ensures message == Str("") ==> r == "Unauthorized"
  {
    SelectMessage(message, UnknownDefault, render)
  }

  function ForbiddenMessage(message: JsValue, render: Render): (r: string)
    ensures Truthy(message) && message.Str? ==> r == message.s
    ensures Truthy(message) && !message.Str? ==> r == render(message)
    ensures !Truthy(message) ==> r == "Forbidden"
    ensures message == Str("") ==> r == "Forbidden"
  {
    SelectMessage(message, ForbiddenDefault, render)
  }

  /** AuthenticateError: the message, then the rendered response when there is a truthy one. */
  function AuthenticateMessage(message: string, response: JsValue, render: Render): (r: string)
    ensures |r| >= |message| && r[..|message|] == message
    ensures !Truthy(response) ==> r == message
    ensures Truthy(response) ==> r[|message|..] == ResponseSeparator + render(response)
  {
    message + if Truthy(response) then ResponseSeparator + render(response) else ""
  }

  /** An empty response object is truthy, so "{}" style renderings are still appended. */
  lemma EmptyResponseAppended(message: string, render: Render)
    ensures AuthenticateMessage(message, Obj(map[]), render)
         == message + "\nResponse: " + render(Obj(map[]))
  {
  }
}
