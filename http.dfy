/** The small slice of net/http the router touches, as plain values. */
module Http {

  /** A registered handler closure, identified by a name. Its behaviour is
      outside the router: the model records which handler is chosen. */
  datatype Handler = Handler(name: string)

  /** The two parts of an inbound request the router looks at. */
  datatype Request = Request(verb: string, path: string)

  /** A response writer: the connection it belongs to and the status codes
      written to it through WriteHeader, in order. */
  datatype Writer = Writer(conn: nat, statuses: seq<int>) {
    function WriteHeader(code: int): Writer
    {
      Writer(conn, statuses + [code])
    }
  }

  /** What a route table did with a request: called one stored handler, or
      wrote 404 and called nothing. */
  datatype Outcome = Invoked(handler: Handler) | NotFound

  /** A route table's contents: exact path to handler. */
  type RouteMap = map<string, Handler>

  const StatusBadRequest: int := 400
  const StatusNotFound: int := 404
  const StatusMethodNotAllowed: int := 405
}
