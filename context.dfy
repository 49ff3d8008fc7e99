/**
 * The request context the middleware functions work on: the incoming
 * request, a key/value store filled by `Set`, the response status and body
 * written so far, the response headers, and whether the handler chain was
 * aborted or handed on with `Next`. Each middleware is specified by a pure
 * function from the context's state before it to the state after it.
 */
module Gin {
  import opened Wrappers
  import Permissions

  datatype Organization = Organization(id: string, organizerId: string)

  /** The values handlers store with `Set`: strings, string lists, flags, user and organization records. */
  datatype Value =
    | Text(s: string)
    | Texts(items: seq<string>)
    | Flag(b: bool)
    | UserRecord(user: Permissions.Account)
    | OrgRecord(org: Organization)

  /** The parts of an HTTP request the middleware reads; headers and route parameters missing from the maps are empty. */
  datatype Request = Request(verb: string, path: string, headers: map<string, string>,
                             remoteAddr: string, params: map<string, string>)

  function Header(r: Request, name: string): string {
    if name in r.headers then r.headers[name] else ""
  }

  function Param(r: Request, name: string): string {
    if name in r.params then r.params[name] else ""
  }

  /** A written response: the error body of ErrorResponse (status and message), another JSON body, or a status alone. */
  datatype Response =
    | ErrorBody(status: int, message: string)
    | JsonBody(status: int, fields: map<string, string>)
    | Bare(status: int)
  {
    function Status(): int {
      match this
      case ErrorBody(s, _) => s
      case JsonBody(s, _) => s
      case Bare(s) => s
    }
  }

  datatype State = State(values: map<string, Value>, headers: map<string, string>,
                         response: Option<Response>, aborted: bool, next: bool)

  /** A request that has passed no middleware yet. */
  const Initial: State := State(map[], map[], None, false, false)

  /** ErrorResponse followed by Abort. */
  function Fail(st: State, status: int, message: string): State {
    st.(response := Some(ErrorBody(status, message)), aborted := true)
  }

  /** Next: the chain goes on. */
  function Continue(st: State): State {
    st.(next := true)
  }

  /** The chain was aborted with a response of this status. */
  predicate StoppedWith(st: State, status: int) {
    st.aborted && st.response.Some? && st.response.value.Status() == status
  }

  /** The middleware handed the request on without aborting. */
  predicate Passed(st: State) {
    st.next && !st.aborted
  }

  /** The state the next handler in the chain starts from. */
  function Handoff(st: State): State {
    st.(next := false)
  }

  class Context {
    const request: Request
    var values: map<string, Value>
    var headers: map<string, string>
    var response: Option<Response>
    var aborted: bool
    var next: bool

    function St(): State
      reads this
    {
      State(values, headers, response, aborted, next)
    }

    constructor (r: Request)
      ensures request == r && St() == Initial
    {
      request := r;
      values := map[];
      headers := map[];
      response := None;
      aborted := false;
      next := false;
    }

    /** c.GetHeader. */
    function GetHeader(name: string): string {
      Header(request, name)
    }

    /** c.Set. */
    method Set(key: string, v: Value)
      modifies this
      ensures St() == old(St()).(values := old(values)[key := v])
    {
      values := values[key := v];
    }

    /** c.Get: the value and whether the key exists. */
    method Get(key: string) returns (v: Option<Value>)
      ensures v.Some? <==> key in values
      ensures v.Some? ==> v.value == values[key]
    {
      if key in values {
        v := Some(values[key]);
      } else {
        v := None;
      }
    }

    /** c.Writer.Header().Set. */
    method SetHeader(key: string, v: string)
      modifies this
      ensures St() == old(St()).(headers := old(headers)[key := v])
    {
      headers := headers[key := v];
    }

    /** utils.ErrorResponse: a failure body with the status and message. */
    method ErrorResponse(status: int, message: string)
      modifies this
      ensures St() == old(St()).(response := Some(ErrorBody(status, message)))
    {
      response := Some(ErrorBody(status, message));
    }

    /** c.JSON. */
    method Json(status: int, fields: map<string, string>)
      modifies this
      ensures St() == old(St()).(response := Some(JsonBody(status, fields)))
    {
      response := Some(JsonBody(status, fields));
    }

    method Abort()
      modifies this
      ensures St() == old(St()).(aborted := true)
    {
      aborted := true;
    }

    /** c.AbortWithStatus. */
    method AbortWithStatus(status: int)
      modifies this
      ensures St() == old(St()).(response := Some(Bare(status)), aborted := true)
    {
      response := Some(Bare(status));
      aborted := true;
    }

    method Next()
      modifies this
      ensures St() == Continue(old(St()))
    {
      next := true;
    }
  }
}
