/**
 * The domain error type of subscriptions_backend/domain/errors.go: a code and a
 * message, four constructors with fixed codes and message prefixes, and the
 * `[Error <code>] <message>` rendering. `Error` is what the rest of the model
 * returns on its error paths.
 */
module Errors {
  import opened Wrappers
  import opened Text

  const CodeNotFound := 404
  const CodeUnauthorized := 401
  const CodeAlreadyExist := 409
  const CodeForbidden := 403

  /** domain.MyErr */
  datatype MyErr = MyErr(code: int, message: string)

  /**
   * Every error the model reports: a MyErr built by the constructors below, a
   * domain.ErrBadRequest (defined outside errors.go, so its code is not
   * modelled), or an error that database/sql returns as it is.
   */
  datatype Error =
    | Coded(err: MyErr)
    | BadRequest(message: string)
    | Driver(message: string)

  function NewError(code: int, msg: string): (e: MyErr)
    ensures e.code == code && e.message == msg
  {
    MyErr(code, msg)
  }

  function ErrNotFound(msg: string): (e: MyErr)
    ensures e.code == 404 && e.message == "Not found: " + msg
  {
    NewError(CodeNotFound, "Not found: " + msg)
  }

  function ErrUnauthorized(msg: string): (e: MyErr)
    ensures e.code == 401 && e.message == "Unauthorized: " + msg
  {
    NewError(CodeUnauthorized, "Unauthorized: " + msg)
  }

  function ErrAlreadyExist(msg: string): (e: MyErr)
    ensures e.code == 409 && e.message == "Already exist: " + msg
  {
    NewError(CodeAlreadyExist, "Already exist: " + msg)
  }

  function ErrForbidden(msg: string): (e: MyErr)
    ensures e.code == 403 && e.message == "Forbidden: " + msg
  {
    NewError(CodeForbidden, "Forbidden: " + msg)
  }

  const RenderPrefix := "[Error "

  /** MyErr.Error(): `fmt.Sprintf("[Error %d] %s", e.Code, e.Message)`. */
  function Render(e: MyErr): (s: string)
    ensures |RenderPrefix| < |s| && s[..|RenderPrefix|] == RenderPrefix
  {
    RenderPrefix + IntToDecimal(e.code) + "] " + e.message
  }

  /** Reads a rendered error back: the code runs up to the first ']', the message follows "] ". */
  function ParseRendered(s: string): Option<MyErr>
  {
    if |s| < |RenderPrefix| || s[..|RenderPrefix|] != RenderPrefix then None
    else
      var rest := s[|RenderPrefix|..];
      var k := IndexOf(rest, ']');
      if k + 2 > |rest| || rest[k..k + 2] != "] " then None
      else match ParseInt(rest[..k])
        case None => None
        case Some(code) => Some(MyErr(code, rest[k + 2..]))
  }

  /** The rendering loses nothing: code and message can both be read back. */
  lemma RenderRoundTrip(e: MyErr)
    ensures ParseRendered(Render(e)) == Some(e)
  {
    var digits := IntToDecimal(e.code);
    var s := Render(e);
    assert s == RenderPrefix + (digits + "] " + e.message);
    var rest := s[|RenderPrefix|..];
    assert rest == digits + ("] " + e.message);
    IndexOfAfterPrefix(digits, "] " + e.message, ']');
    assert IndexOf(rest, ']') == |digits|;
    assert rest[..|digits|] == digits;
    assert rest[|digits| + 2..] == e.message;
    IntRoundTrip(e.code);
  }

  /** The four constructors are told apart by their codes, and each keeps its detail message. */
  lemma ConstructorsDistinct(a: string, b: string)
    ensures ErrNotFound(a) != ErrUnauthorized(b) && ErrNotFound(a) != ErrAlreadyExist(b)
    ensures ErrNotFound(a) != ErrForbidden(b) && ErrUnauthorized(a) != ErrAlreadyExist(b)
    ensures ErrUnauthorized(a) != ErrForbidden(b) && ErrAlreadyExist(a) != ErrForbidden(b)
    ensures ErrNotFound(a) == ErrNotFound(b) ==> a == b
  {
    if ErrNotFound(a) == ErrNotFound(b) {
      var p := "Not found: ";
      assert (p + a)[|p|..] == a && (p + b)[|p|..] == b;
    }
  }

  /** What a client sees for a missing subscription. */
  lemma NotFoundRendering(msg: string)
    ensures Render(ErrNotFound(msg)) == "[Error 404] Not found: " + msg
  {
    assert NatToDecimal(404) == "404" by {
      assert NatToDecimal(4) == "4";
      assert NatToDecimal(40) == "40";
    }
  }
}
