/**
 * The handler that `boot` registers for a served route (boot.go:37-97):
 * call the route's controller and turn its `(resp, err)` pair into the
 * response's status, content type and body.
 */
module Respond {
  import opened Options
  import opened Boot

  newtype byte = x: int | 0 <= x < 256

  /** Go strings and byte slices alike: raw bytes. */
  type Bytes = seq<byte>

  const Newline: byte := 10

  const JsonContentType: string := "application/json"

  /** What is passed to the controller: the route's entity value, or a blank request entity. */
  datatype EntityArg = Blank | Given(entity: EntityDesc)

  /** The controller's result, by the type the handler tests it against. */
  datatype Result =
    | Render(contentType: string, content: Bytes) // a RenderMixin
    | Text(text: Bytes)                           // a string
    | Raw(data: Bytes)                            // a []byte
    | Other                                       // nil, or any other value

  /**
   * The controller's error. `Rest` is a RestErrorMixin with its code and
   * its JSON encoding; `Plain` is any other error, with its message and,
   * for an error that carries a stack trace, one rendered line per frame.
   */
  datatype HandlerError =
    | NoError
    | Rest(code: int, encoded: Bytes)
    | Plain(message: Bytes, trace: Option<seq<Bytes>>)

  datatype Reply = Reply(result: Result, error: HandlerError)

  /**
   * What the handler writes: the status (200 unless one is written), the
   * Content-Type header it sets, if any, and the body.
   */
  datatype Response = Response(status: int, contentType: Option<string>, body: Bytes)

  const OK: int := 200
  const InternalServerError: int := 500

  /** One line per stack frame, each ending in a newline. */
  function TraceText(frames: seq<Bytes>): Bytes
  {
    if frames == [] then []
    else TraceText(frames[..|frames| - 1]) + frames[|frames| - 1] + [Newline]
  }

  /** The error message with the stack trace appended when the error carries one. */
  function ErrorText(message: Bytes, trace: Option<seq<Bytes>>): Bytes
  {
    match trace
    case None => message
    case Some(frames) => message + TraceText(frames)
  }

  /** The response for a result written without an error. */
  function RenderResult(result: Result): Response
  {
    match result
    case Render(ct, content) => Response(OK, Some(ct), content)
    case Text(text) => Response(OK, None, text)
    case Raw(data) => Response(OK, None, data)
    case Other => Response(OK, None, [])
  }

  /** The response decision of boot.go:46-92. */
  function Decide(reply: Reply): Response
  {
    match reply.error
    case Rest(code, encoded) => Response(code, Some(JsonContentType), encoded)
    case Plain(message, trace) =>
      if message != [] then Response(InternalServerError, None, ErrorText(message, trace))
      else RenderResult(reply.result)
    case NoError => RenderResult(reply.result)
  }

  /** The entity the handler passes to the controller: inject is not called. */
  function EntityFor(route: Route): EntityArg
  {
    if route.entity.None? then Blank else Given(route.entity.value)
  }

  /**
   * The registered handler serving one request for `route`; `invoke` calls
   * a controller.
   */
  method Handle(route: Route, invoke: (ControllerId, EntityArg) -> Reply) returns (response: Response)
    requires route.controller.Some?
    ensures response == Decide(invoke(route.controller.value, EntityFor(route)))
  {
    var en: EntityArg;
    if route.entity.None? {
      en := Blank;
    } else {
      en := Given(route.entity.value);
    }
    var reply := invoke(route.controller.value, en);
    var resp, err := reply.result, reply.error;

    if !err.NoError? {
      if err.Rest? {
        return Response(err.code, Some(JsonContentType), err.encoded);
      }
      if err.message != [] {
        var msg := err.message;
        if err.trace.Some? {
          var frames := err.trace.value;
          var i := 0;
          while i < |frames|
            invariant i <= |frames|
            invariant msg == err.message + TraceText(frames[..i])
          {
            assert frames[..i + 1][..i] == frames[..i];
            msg := msg + frames[i] + [Newline];
            i := i + 1;
          }
          assert frames[..i] == frames;
        }
        return Response(InternalServerError, None, msg);
      }
    }

    match resp {
      case Render(ct, content) =>
        return Response(OK, Some(ct), content);
      case Text(a) =>
        return Response(OK, None, a);
      case Raw(b) =>
        return Response(OK, None, b);
      case Other =>
        return Response(OK, None, []);
    }
  }

  // ---------------------------------------------------------------------
  // What the handler promises

  /** A trace adds exactly one newline-terminated line per frame. */
  lemma {:induction false} TraceLines(frames: seq<Bytes>)
    ensures |TraceText(frames)| == |frames| + SumLengths(frames)
    ensures frames != [] ==> TraceText(frames)[|TraceText(frames)| - 1] == Newline
  {
    if frames != [] {
      TraceLines(frames[..|frames| - 1]);
    }
  }

  /** The trace of two runs of frames is the trace of the first followed by that of the second. */
  lemma {:induction false} TraceTextAppend(a: seq<Bytes>, b: seq<Bytes>)
    ensures TraceText(a + b) == TraceText(a) + TraceText(b)
  {
    if b == [] {
      assert a + b == a;
    } else {
      var init := b[..|b| - 1];
      assert (a + b)[..|a + b| - 1] == a + init;
      TraceTextAppend(a, init);
    }
  }

  /**
   * Frame `k` of a trace is written as its own line, right after the lines
   * of the frames before it.
   */
  lemma TraceFrameLine(frames: seq<Bytes>, k: nat)
    requires k < |frames|
    ensures var before := TraceText(frames[..k]);
            var line := frames[k] + [Newline];
            |before| + |line| <= |TraceText(frames)|
            && TraceText(frames)[..|before|] == before
            && TraceText(frames)[|before|..|before| + |line|] == line
  {
    assert frames == frames[..k] + ([frames[k]] + frames[k + 1..]);
    TraceTextAppend(frames[..k], [frames[k]] + frames[k + 1..]);
    TraceTextAppend([frames[k]], frames[k + 1..]);
    assert TraceText([frames[k]]) == frames[k] + [Newline] by {
      assert [frames[k]][..0] == [];
    }
  }

  function SumLengths(frames: seq<Bytes>): nat
  {
    if frames == [] then 0 else SumLengths(frames[..|frames| - 1]) + |frames[|frames| - 1]|
  }

  /**
   * A RestErrorMixin decides everything: its code as status, JSON as
   * content type and its encoding as the whole body, whatever the result.
   */
  lemma RestErrorResponse(result: Result, code: int, encoded: Bytes)
    ensures Decide(Reply(result, Rest(code, encoded))) == Response(code, Some("application/json"), encoded)
  {
  }

  /**
   * Any other error with a message answers 500 with a body that starts
   * with the message and holds nothing else unless the error carries a
   * stack trace, in which case one line per frame follows.
   */
  lemma PlainErrorResponse(result: Result, message: Bytes, trace: Option<seq<Bytes>>)
    requires message != []
    ensures var response := Decide(Reply(result, Plain(message, trace)));
            response.status == 500 && response.contentType == None
            && response.body == ErrorText(message, trace)
            && response.body[..|message|] == message
            && |response.body| == |message| + (if trace.Some? then |trace.value| + SumLengths(trace.value) else 0)
  {
    if trace.Some? {
      TraceLines(trace.value);
    }
  }

  /** An error whose message is empty is ignored: the result is rendered as without an error. */
  lemma EmptyMessageIgnored(result: Result, trace: Option<seq<Bytes>>)
    ensures Decide(Reply(result, Plain([], trace))) == Decide(Reply(result, NoError))
  {
  }

  /**
   * Without an error the status is 200; a RenderMixin sets its content type
   * and writes its content, a string or byte slice is written verbatim,
   * and anything else writes nothing.
   */
  lemma ResultResponse(result: Result)
    ensures var response := Decide(Reply(result, NoError));
            response.status == 200
            && (response.contentType.Some? <==> result.Render?)
            && (result.Render? ==> response == Response(200, Some(result.contentType), result.content))
            && (result.Text? ==> response.body == result.text)
            && (result.Raw? ==> response.body == result.data)
            && (result.Other? ==> response.body == [])
  {
  }
}
