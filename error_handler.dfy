/** `errorHandler`: maps the pending status code to at most one titled JSON body. */
module ErrorHandler {

  import opened Wrappers

  /**
   * The five codes the `constants` module names (its file is not part of this
   * model, so the values are a parameter).
   */
  datatype Codes = Codes(validation: int, notFound: int, unauthorized: int, forbidden: int, serverError: int)
  {
    predicate Distinct()
    {
      && validation != notFound && validation != unauthorized && validation != forbidden && validation != serverError
      && notFound != unauthorized && notFound != forbidden && notFound != serverError
      && unauthorized != forbidden && unauthorized != serverError
      && forbidden != serverError
    }
  }

  /** The usual HTTP values of those five names. */
  const Conventional := Codes(400, 404, 401, 403, 500)

  /** The fields of `err` the handler reads. */
  datatype Error = Error(message: string, stack: string)

  /** `{ title, message, stackTrace }`; `message` is absent when the field read is undefined. */
  datatype Body = Body(title: string, message: Option<string>, stackTrace: string)

  /**
   * What one call does: the JSON bodies it writes, in order, and whether
   * control reaches the `default` branch (which only logs).
   */
  datatype Outcome = Outcome(bodies: seq<Body>, reachedDefault: bool)

  /** `res.statusCode ? res.statusCode : 500`, with a falsy status code written as 0. */
  function StatusUsed(statusCode: int): (status: int)
  {
    if statusCode != 0 then statusCode else 500
  }

  predicate Recognised(codes: Codes, status: int)
  {
    status in {codes.validation, codes.notFound, codes.unauthorized, codes.forbidden, codes.serverError}
  }

  /**
   * The switch as written: the first matching case wins; SERVER_ERROR reads
   * `err.messagem` (undefined) and has no `break`, so it runs on into `default`.
   */
  function Handle(codes: Codes, statusCode: int, err: Error): (o: Outcome)
    ensures |o.bodies| <= 1
    ensures |o.bodies| == 1 <==> Recognised(codes, StatusUsed(statusCode))
    ensures o.reachedDefault <==>
      StatusUsed(statusCode) !in {codes.validation, codes.notFound, codes.unauthorized, codes.forbidden}
  {
    var status := StatusUsed(statusCode);
    if status == codes.validation then
      Outcome([Body("Validation failed", Some(err.message), err.stack)], false)
    else if status == codes.notFound then
      Outcome([Body("No Found", Some(err.message), err.stack)], false)
    else if status == codes.unauthorized then
      Outcome([Body("Unauthorized access", Some(err.message), err.stack)], false)
    else if status == codes.forbidden then
      Outcome([Body("Forbidden ", Some(err.message), err.stack)], false)
    else if status == codes.serverError then
      Outcome([Body("Server Error", None, err.stack)], true)
    else
      Outcome([], true)
  }

  /** The corrected switch: SERVER_ERROR reports `err.message` like the other cases. */
  function HandleIntended(codes: Codes, statusCode: int, err: Error): (o: Outcome)
    ensures |o.bodies| <= 1
    ensures |o.bodies| == 1 <==> Recognised(codes, StatusUsed(statusCode))
    ensures |o.bodies| == |Handle(codes, statusCode, err).bodies|
    ensures o.reachedDefault == Handle(codes, statusCode, err).reachedDefault
    ensures forall k :: 0 <= k < |o.bodies| ==> o.bodies[k].title == Handle(codes, statusCode, err).bodies[k].title
    ensures forall b :: b in o.bodies ==> b.message == Some(err.message) && b.stackTrace == err.stack
  {
    var o := Handle(codes, statusCode, err);
    if o.bodies == [] then o
    else Outcome([o.bodies[0].(message := Some(err.message))], o.reachedDefault)
  }

  /** With distinct codes each recognised status gets exactly its own titled body. */
  lemma TitlesByCode(codes: Codes, err: Error)
    requires codes.Distinct()
    requires codes.validation != 0 && codes.notFound != 0 && codes.unauthorized != 0
    requires codes.forbidden != 0 && codes.serverError != 0
    ensures Handle(codes, codes.validation, err).bodies == [Body("Validation failed", Some(err.message), err.stack)]
    ensures Handle(codes, codes.notFound, err).bodies == [Body("No Found", Some(err.message), err.stack)]
    ensures Handle(codes, codes.unauthorized, err).bodies == [Body("Unauthorized access", Some(err.message), err.stack)]
    ensures Handle(codes, codes.forbidden, err).bodies == [Body("Forbidden ", Some(err.message), err.stack)]
    ensures Handle(codes, codes.serverError, err) == Outcome([Body("Server Error", None, err.stack)], true)
  {
  }

  /** A falsy status code is handled as 500. */
  lemma FalsyStatusIsServerError(err: Error)
    ensures Handle(Conventional, 0, err) == Outcome([Body("Server Error", None, err.stack)], true)
  {
  }

  /** The as-written SERVER_ERROR body drops the message that the corrected switch keeps. */
  lemma ServerErrorDropsMessage(err: Error)
    ensures Handle(Conventional, 500, err).bodies[0].message == None
    ensures HandleIntended(Conventional, 500, err).bodies[0].message == Some(err.message)
  {
  }
}
