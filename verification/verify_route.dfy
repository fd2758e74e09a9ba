/**
  The proof-relay endpoint `POST /api/reclaim/verify`: a ladder of early
  returns that checks the request, asks the proof SDK whether the proof is
  correct, and answers with a JSON envelope and an HTTP status.
 */
module VerifyRoute {
  import opened JsRuntime

  const MissingInputText := "Missing Proof or Provider Key"
  const InvalidSignatureText := "Invalid Proof Signature"
  /** The message of the TypeError Node.js throws when an object cannot be converted to a string. */
  const ConversionErrorText := "Cannot convert object to primitive value"

  /**
    The request as the handler sees it after `await req.json()` and the
    destructuring of `proof` and `providerKey`; `Unreadable` is a body whose
    parsing or destructuring threw, with the thrown error's `message`.
   */
  datatype Request = Body(proof: JsVal, providerKey: JsVal) | Unreadable(message: JsVal)

  /** What `Reclaim.verifyCorrectness(proof)` does: resolve to a value, or throw (reject with) a value. */
  datatype Verdict = Returned(isValid: JsVal) | Threw(thrown: JsVal)

  /** `{success: true, data}` or `{success: false, error}`. */
  datatype Envelope = Success(data: JsVal) | Failure(error: JsVal)

  /**
    The answer sent, or `Unanswered` when the catch block itself throws:
    reading `error.message` of a thrown `null` or `undefined` raises a
    TypeError, the handler's promise rejects and no envelope is sent.
   */
  datatype Response = Response(status: nat, body: Envelope) | Unanswered

  /** Both request fields are present (truthy). */
  predicate HasInputs(req: Request)
  {
    req.Body? && Truthy(req.proof) && Truthy(req.providerKey)
  }

  /**
    Both inputs are present and the provider key survives the log line's
    template literal, so the verifier is consulted.
   */
  predicate ReachesVerifier(req: Request)
  {
    HasInputs(req) && !ToStringThrows(req.providerKey)
  }

  /** The verifier is consulted and throws `null` or `undefined`. */
  predicate VerifierThrowsNullish(req: Request, verify: JsVal -> Verdict)
  {
    ReachesVerifier(req) && verify(req.proof).Threw? && Nullish(verify(req.proof).thrown)
  }

  /**
    The handler, with the proof SDK's verifier as the parameter `verify`. The
    log line before the verifier call converts the provider key to a string;
    when that throws, the catch block answers 500. The catch block answers
    with the thrown value's `message`, which is `undefined` for a thrown
    primitive.
   */
  function Post(req: Request, verify: JsVal -> Verdict): (r: Response)
    ensures r.Unanswered? <==> VerifierThrowsNullish(req, verify)
    ensures r.Response? ==> r.status == 200 || r.status == 400 || r.status == 500
    ensures r.Response? ==> (r.body.Success? <==> r.status == 200)
    ensures req.Body? && !HasInputs(req) ==> r == Response(400, Failure(Str(MissingInputText)))
    ensures HasInputs(req) && ToStringThrows(req.providerKey) ==>
      r == Response(500, Failure(Str(ConversionErrorText)))
    ensures r.Response? && r.body.Success? <==>
      ReachesVerifier(req) && verify(req.proof).Returned? && Truthy(verify(req.proof).isValid)
    ensures r.Response? && r.body.Success? ==> r.body.data == Prop(req.proof, "extractedParameterValues")
    ensures ReachesVerifier(req) && verify(req.proof).Threw? && !Nullish(verify(req.proof).thrown) ==>
      r == Response(500, Failure(Prop(verify(req.proof).thrown, "message")))
    ensures r.Response? && r.status == 500 <==>
      || req.Unreadable?
      || (HasInputs(req) && ToStringThrows(req.providerKey))
      || (ReachesVerifier(req) && verify(req.proof).Threw? && !Nullish(verify(req.proof).thrown))
  {
    match req
    case Unreadable(message) => Response(500, Failure(message))
    case Body(proof, providerKey) =>
      if !Truthy(proof) || !Truthy(providerKey) then
        Response(400, Failure(Str(MissingInputText)))
      else if ToStringThrows(providerKey) then
        Response(500, Failure(Str(ConversionErrorText)))
      else
        match verify(proof)
        case Threw(thrown) =>
          if Nullish(thrown) then Unanswered else Response(500, Failure(Prop(thrown, "message")))
        case Returned(isValid) =>
          if !Truthy(isValid) then Response(400, Failure(Str(InvalidSignatureText)))
          else Response(200, Success(Prop(proof, "extractedParameterValues")))
  }

  /** A proof the verifier rejects gets 400 with the fixed signature message. */
  lemma InvalidProofIsRejected(proof: JsVal, providerKey: JsVal, verify: JsVal -> Verdict)
    requires Truthy(proof) && Truthy(providerKey) && !ToStringThrows(providerKey)
    requires verify(proof).Returned? && !Truthy(verify(proof).isValid)
    ensures Post(Body(proof, providerKey), verify) == Response(400, Failure(Str(InvalidSignatureText)))
  {
  }

  /**
    An exception becomes 500 carrying the thrown value's `message`, except a
    thrown `null` or `undefined`, for which no envelope is sent at all.
   */
  lemma ExceptionsBecome500(req: Request, verify: JsVal -> Verdict)
    ensures req.Unreadable? ==> Post(req, verify) == Response(500, Failure(req.message))
    ensures ReachesVerifier(req) && verify(req.proof).Threw? && !Nullish(verify(req.proof).thrown) ==>
      Post(req, verify) == Response(500, Failure(Prop(verify(req.proof).thrown, "message")))
    ensures ReachesVerifier(req) && verify(req.proof).Threw? && Nullish(verify(req.proof).thrown) ==>
      Post(req, verify) == Unanswered
  {
  }

  /** The presence check comes first: with an input missing, the verifier is never consulted. */
  lemma MissingInputIgnoresVerifier(req: Request, v1: JsVal -> Verdict, v2: JsVal -> Verdict)
    requires req.Body? && !HasInputs(req)
    ensures Post(req, v1) == Post(req, v2)
  {
  }

  /**
    A provider key whose string conversion throws ends in 500 before the
    verifier is consulted. The object `{"toString": 1}` is one: JSON parsing
    makes `toString` an own, non-callable property.
   */
  lemma UnconvertibleKeyIs500(proof: JsVal, key: JsVal, v1: JsVal -> Verdict, v2: JsVal -> Verdict)
    requires Truthy(proof) && ToStringThrows(key)
    ensures Post(Body(proof, key), v1) == Response(500, Failure(Str(ConversionErrorText)))
    ensures Post(Body(proof, key), v1) == Post(Body(proof, key), v2)
    ensures ToStringThrows(Obj(map["toString" := Num(1)]))
    ensures ToStringThrows(Arr([Str("UPWORK"), Obj(map["toString" := Null])]))
  {
    var a := Arr([Str("UPWORK"), Obj(map["toString" := Null])]);
    assert ToStringThrows(a.items[1]);
  }

  /**
    Beyond its presence, the provider key matters only through whether its
    string conversion in the log line throws; it is never looked up.
   */
  lemma ProviderKeyOnlyPresenceChecked(proof: JsVal, k1: JsVal, k2: JsVal, verify: JsVal -> Verdict)
    requires Truthy(k1) && Truthy(k2)
    requires ToStringThrows(k1) == ToStringThrows(k2)
    ensures Post(Body(proof, k1), verify) == Post(Body(proof, k2), verify)
  {
  }
}
