/** From what one attempt brings back to the view the attempt loops act on, in each SDK's own way. */
module ReplyReading {
  import opened Common

  /** The error member of a decoded body, with the fields that have the documented type. */
  datatype ErrorMember = Missing | NotAnObject | Fields(code: Option<string>, retryable: Option<bool>)

  /** A complete HTTP reply. An indigestible one is JSON with an integer of more than 4300 digits or
      nested deeper than both parsers go: a decoding error in Go, another exception in Python. */
  datatype Reply =
    | Oversized
    | NotJsonObject
    | Indigestible
    | Object(status: int, text: string, error: ErrorMember)

  /** What comes back over the network. */
  datatype Arrival =
    | NoReply                            // refused, timed out or closed without a byte
    | Malformed                          // not HTTP, or a chunked body that breaks off
    | CutShort(status: int, kept: bool)  // the body ends before its announced length, or at once
    | Got(reply: Reply)

  /** What the loop makes of an arrival. */
  datatype View = Lost | Uncaught | Unreadable | Failure(code: string, retryable: bool) | Success(response: string)

  predicate IsSuccess(r: Reply) {
    r.Object? && 200 <= r.status < 300
  }

  /** The arrival carries a success status, whether or not its body is whole. */
  predicate CarriesSuccess(a: Arrival) {
    (a.Got? && IsSuccess(a.reply)) || (a.CutShort? && 200 <= a.status < 300)
  }

  /** The reply itself says that the same command may be sent again. */
  predicate SaysRetryable(r: Reply) {
    r.Object? && !IsSuccess(r) && r.error.Fields? && r.error.retryable == Some(true)
  }

  /** No reply that could be read: a transport failure. Python takes a body that ends early for a whole one. */
  predicate TransportFails(sdk: Sdk, a: Arrival) {
    a.NoReply? || (sdk == Go && !a.Got?)
  }

  predicate MayRetry(v: View) {
    v.Lost? || (v.Failure? && v.retryable)
  }

  function CodeOf(error: ErrorMember): string {
    if error.Fields? && error.code.Some? then error.code.value else "HTTP_ERROR"
  }

  function ReplyView(sdk: Sdk, r: Reply): View {
    if r.Indigestible? then (if sdk == Go then Unreadable else Uncaught)
    else if !r.Object? then Unreadable
    else if IsSuccess(r) then Success(r.text)
    else if sdk == Python && r.error.NotAnObject? then Unreadable
    else Failure(CodeOf(r.error), SaysRetryable(r))
  }

  /** A reply cut short, as Python reads it: no object any more, or the empty one. */
  function Remnant(status: int, kept: bool): Reply {
    if kept then NotJsonObject else Object(status, "", Missing)
  }

  function ViewOf(sdk: Sdk, a: Arrival): View {
    match a
    case NoReply => Lost
    case Malformed => if sdk == Go then Lost else Uncaught
    case CutShort(status, kept) => if sdk == Go then Lost else ReplyView(sdk, Remnant(status, kept))
    case Got(reply) => ReplyView(sdk, reply)
  }

  /** decodeAPIError: defaults first, then each well-typed field over them. */
  method DecodeApiError(error: ErrorMember) returns (code: string, retryable: bool)
    ensures code == if error.Fields? && error.code.Some? then error.code.value else "HTTP_ERROR"
    ensures retryable <==> error.Fields? && error.retryable == Some(true)
  {
    code, retryable := "HTTP_ERROR", false;
    if error.Fields? {
      if error.code.Some? {
        code := error.code.value;
      }
      if error.retryable.Some? {
        retryable := error.retryable.value;
      }
    }
  }

  /** Go: a reply leads to another attempt only if it says so itself, and ends in a protocol error
      exactly when it cannot be read. */
  method ReadReply(r: Reply) returns (view: View)
    ensures view == ReplyView(Go, r)
    ensures MayRetry(view) <==> r.Object? && !(200 <= r.status < 300) && r.error.Fields? && r.error.retryable == Some(true)
    ensures view.Unreadable? <==> !r.Object?
    ensures view.Success? <==> r.Object? && 200 <= r.status < 300
    ensures view.Success? ==> view.response == r.text
    ensures !view.Uncaught? && !view.Lost?
  {
    match r {
      case Oversized => return Unreadable;
      case NotJsonObject => return Unreadable;
      case Indigestible => return Unreadable;
      case Object(status, text, error) =>
        if 200 <= status < 300 {
          return Success(text);
        }
        var code, retryable := DecodeApiError(error);
        return Failure(code, retryable);
    }
  }

  /** Python: as Go, but an error member that is no object is a protocol error too, and what the
      JSON parser gives up on is raised past every handler. */
  method ReadReplyPython(r: Reply) returns (view: View)
    ensures view == ReplyView(Python, r)
    ensures MayRetry(view) <==> r.Object? && !(200 <= r.status < 300) && r.error.Fields? && r.error.retryable == Some(true)
    ensures view.Uncaught? <==> r.Indigestible?
    ensures view.Unreadable? <==> r.Oversized? || r.NotJsonObject? || (r.Object? && !IsSuccess(r) && r.error.NotAnObject?)
    ensures view.Success? <==> r.Object? && 200 <= r.status < 300
    ensures view.Success? ==> view.response == r.text
    ensures !view.Lost?
  {
    match r {
      case Oversized => return Unreadable;
      case NotJsonObject => return Unreadable;
      case Indigestible => return Uncaught;
      case Object(status, text, error) =>
        if 200 <= status < 300 {
          return Success(text);
        }
        match error {
          case NotAnObject => return Unreadable;
          case Missing => return Failure("HTTP_ERROR", false);
          case Fields(code, retryable) =>
            return Failure(if code.Some? then code.value else "HTTP_ERROR", retryable == Some(true));
        }
    }
  }

  /** Exactly the arrivals each SDK retries, gives up on without a handler, or takes for a result. */
  lemma ReadingRules(sdk: Sdk, a: Arrival)
    ensures MayRetry(ViewOf(sdk, a)) <==> TransportFails(sdk, a) || (a.Got? && SaysRetryable(a.reply))
    ensures ViewOf(sdk, a).Uncaught? <==> sdk == Python && (a.Malformed? || a == Got(Indigestible))
    ensures ViewOf(sdk, a).Success? <==>
              (a.Got? && IsSuccess(a.reply)) || (sdk == Python && a.CutShort? && !a.kept && CarriesSuccess(a))
    ensures a.CutShort? && ViewOf(sdk, a).Success? ==> ViewOf(sdk, a).response == ""
  {
  }
}
