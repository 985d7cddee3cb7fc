/**
 * The exceptions the SDK raises and receives (LicenseJet/LicenseJetException.php):
 * a LicenseJetException may wrap a previous throwable, such as the HTTP
 * client's ClientException for a 4xx response.
 */
module Exceptions {
  import opened Values

  datatype Throwable =
    | LicenseJetException(message: string, previous: Option<Throwable>)
      /** The HTTP client's exception for a 4xx response: its status and reason phrase. */
    | ClientException(status: int, reason: string)
      /** Any other throwable, known by its message. */
    | OtherThrowable(message: string)

  /** A value, or the throwable raised in its place. */
  datatype Result<T> = Ok(value: T) | Err(error: Throwable)

  /** The throwable a result carries, if any. */
  function ErrorOf<T>(r: Result<T>): Option<Throwable>
  {
    if r.Ok? then None else Some(r.error)
  }

  /** 404 Not Found (section 15.5.5 of RFC 9110). */
  const STATUS_NOT_FOUND := 404

  /**
   * The root cause of a chain: following the previous exceptions of
   * LicenseJetExceptions down to the first throwable that is not a
   * LicenseJetException with a previous one.
   */
  function Root(e: Throwable): (root: Throwable)
    ensures !(root.LicenseJetException? && root.previous.Some?)
  {
    if e.LicenseJetException? && e.previous.Some? then Root(e.previous.value) else e
  }

  /**
   * `isNotFound`: follows the chain of previous LicenseJetExceptions down to
   * the first other throwable; true only if that is a ClientException for 404.
   */
  predicate IsNotFound(e: Throwable)
    requires e.LicenseJetException?
    ensures IsNotFound(e) <==> Root(e).ClientException? && Root(e).status == STATUS_NOT_FOUND
  {
    match e.previous
    case None => false
    case Some(p) =>
      if p.LicenseJetException? then IsNotFound(p)
      else p.ClientException? && p.status == STATUS_NOT_FOUND
  }

  /** `e` wrapped in one LicenseJetException per message, the first message outermost. */
  function Wrap(e: Throwable, messages: seq<string>): (w: Throwable)
    ensures messages != [] ==> w.LicenseJetException?
  {
    if messages == [] then e
    else LicenseJetException(messages[0], Some(Wrap(e, messages[1..])))
  }

  /** Wrapping a LicenseJetException any number of times keeps its answer. */
  lemma {:induction false} WrapKeepsNotFound(e: Throwable, messages: seq<string>)
    requires e.LicenseJetException?
    ensures IsNotFound(Wrap(e, messages)) == IsNotFound(e)
  {
    if messages != [] {
      WrapKeepsNotFound(e, messages[1..]);
    }
  }

  /** However deep a ClientException is wrapped, the chain is "not found" exactly for 404. */
  lemma {:induction false} WrappedClientException(status: int, reason: string, messages: seq<string>)
    requires messages != []
    ensures IsNotFound(Wrap(ClientException(status, reason), messages)) <==> status == 404
  {
    if |messages| > 1 {
      WrappedClientException(status, reason, messages[1..]);
    }
  }

  /**
   * Conversely, a "not found" exception is a 404 ClientException wrapped in
   * one LicenseJetException or more.
   */
  lemma {:induction false} NotFoundIsWrapped404(e: Throwable)
    requires e.LicenseJetException? && IsNotFound(e)
    ensures exists messages: seq<string>, reason: string ::
      messages != [] && e == Wrap(ClientException(404, reason), messages)
  {
    var p := e.previous.value;
    if p.LicenseJetException? {
      NotFoundIsWrapped404(p);
      var messages: seq<string>, reason: string :|
        messages != [] && p == Wrap(ClientException(404, reason), messages);
      assert ([e.message] + messages)[1..] == messages;
      assert e == Wrap(ClientException(404, reason), [e.message] + messages);
    } else {
      assert [e.message][1..] == [];
      assert e == Wrap(ClientException(404, p.reason), [e.message]);
    }
  }
}
