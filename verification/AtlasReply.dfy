/** How Central reads a regional reply: which outcomes of a mutation are definite and which stay open. */
module AtlasReply {
  import opened Base

  datatype Method = Get | Mutation

  /** `reason` is the `error.message` the body carries, when it carries one. */
  datatype Body = NotJson | NotAnObject | Document(reason: Option<string>)

  datatype Reply = NoReply | Reply(code: nat, body: Body)

  datatype Outcome = Accepted | Rejected | ResourceGone | Refused | ReadError | RequestUncertain

  predicate IsSuccess(code: nat)
  {
    code == 200 || code == 201 || code == 202 || code == 204
  }

  predicate HasReason(body: Body)
  {
    body.Document? && body.reason.Some? && body.reason.value != ""
  }

  function Read(method': Method, reply: Reply): (outcome: Outcome)
    ensures method' == Get ==> outcome != RequestUncertain
  {
    match reply
    case NoReply => if method' == Get then ReadError else RequestUncertain
    case Reply(code, body) =>
      if code == 401 || code == 403 then Refused
      else if code == 404 then ResourceGone
      else if code == 503 && HasReason(body) then Rejected
      else if method' != Get && code >= 500 then RequestUncertain
      else if !IsSuccess(code) then
        if method' != Get && 400 <= code < 500 then Rejected
        else if method' != Get && code < 400 then RequestUncertain
        else ReadError
      else if code == 204 then Accepted
      else if body.Document? then Accepted
      else if method' == Get then ReadError else RequestUncertain
  }

  /** The region said no in so many words: a client error, or a 503 that names why. */
  predicate IsExplicitRefusal(reply: Reply)
  {
    reply.Reply? && (400 <= reply.code < 500 || (reply.code == 503 && HasReason(reply.body)))
  }

  /** The region said yes and the answer can be read: nothing to read, or a document. */
  predicate IsReadableSuccess(reply: Reply)
  {
    reply.Reply? && (reply.code == 204 || (reply.code in {200, 201, 202} && reply.body.Document?))
  }

  /** Of every reply to a mutation exactly one holds: it is an explicit refusal and the outcome is definite,
      it is a readable success and the outcome is accepted, or the outcome is uncertain. Of the refusals, an absence, a
      refused login and any other are told apart by the code. */
  lemma MutationOutcomeExact(reply: Reply)
    ensures Read(Mutation, reply) in {Rejected, ResourceGone, Refused} <==> IsExplicitRefusal(reply)
    ensures Read(Mutation, reply) == Accepted <==> IsReadableSuccess(reply)
    ensures Read(Mutation, reply) == RequestUncertain <==> !IsExplicitRefusal(reply) && !IsReadableSuccess(reply)
    ensures Read(Mutation, reply) == ResourceGone <==> reply.Reply? && reply.code == 404
    ensures Read(Mutation, reply) == Refused <==> reply.Reply? && reply.code in {401, 403}
    ensures Read(Mutation, reply) == Rejected <==>
            && reply.Reply?
            && (|| (400 <= reply.code < 500 && reply.code !in {401, 403, 404})
                || (reply.code == 503 && reply.body.Document?
                    && reply.body.reason.Some? && reply.body.reason.value != ""))
  {
  }

  /** A read changes nothing, so what is not a success, an absence or a named refusal is only an error. */
  lemma ReadOutcomeExact(reply: Reply)
    ensures Read(Get, reply) == Accepted <==> IsReadableSuccess(reply)
    ensures Read(Get, reply) == ResourceGone <==> reply.Reply? && reply.code == 404
    ensures Read(Get, reply) == Refused <==> reply.Reply? && reply.code in {401, 403}
    ensures Read(Get, reply) == Rejected <==>
            && reply.Reply? && reply.code == 503
            && reply.body.Document? && reply.body.reason.Some? && reply.body.reason.value != ""
    ensures Read(Get, reply) in {Accepted, ResourceGone, Rejected, Refused, ReadError}
  {
  }
}
