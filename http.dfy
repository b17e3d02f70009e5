/**
 * The parts of Express's request and response objects the server touches. The
 * request's immutable head is a value; the one field the gate writes
 * (`req.user`) lives in a `Request` object, and a `Response` object records
 * every reply sent on it, in order.
 */
module Http {
  import opened Wrappers
  import opened Jwt

  /**
   * An incoming request: `path` is the URL's path name (what routes match),
   * `url` the path with its query string (`req.url`), `headers` keyed by
   * lower-case name as Node delivers them, `secure` is Express's `req.secure`
   * and `bodyParses` says whether `express.json()` accepts the body.
   * `wildcardDecodes` says whether `decodeURIComponent` accepts the part of the
   * path that the `*` of a wildcard mount captures; Express decodes it while
   * matching, and a malformed escape such as `%zz` makes the match throw.
   */
  datatype RequestHead = RequestHead(
    path: string,
    url: string,
    headers: map<string, string>,
    secure: bool,
    bodyParses: bool,
    wildcardDecodes: bool)
  {
    /** `req.get(name)` / `req.headers[name]` for a lower-case name. */
    function Header(name: string): (h: Option<string>)
      ensures h.Some? <==> name in headers
      ensures h.Some? ==> h.value == headers[name]
    {
      if name in headers then Some(headers[name]) else None
    }
  }

  /** A reply that ends a request. */
  datatype Reply =
    | JsonReply(status: int, message: string)       // res.status(s).json({ message })
    | RedirectReply(status: int, location: string)  // res.redirect(location)
    | RouterReply(status: int)                      // whatever the login/signup routes answer
    | Unanswered(failed: bool)                      // no middleware answered: Express's final handler

  /** `res.redirect` uses 302 Found when no status is given. */
  const Found := 302

  class Request {
    const head: RequestHead
    var user: Option<Claims>

    constructor (head: RequestHead)
      ensures this.head == head && user == None
    {
      this.head := head;
      user := None;
    }
  }

  class Response {
    var sent: seq<Reply>

    constructor ()
      ensures sent == []
    {
      sent := [];
    }

    /** `res.status(status).json({ message })`. */
    method Json(status: int, message: string)
      modifies this
      ensures sent == old(sent) + [JsonReply(status, message)]
    {
      sent := sent + [JsonReply(status, message)];
    }

    /** `res.redirect(location)`. */
    method Redirect(location: string)
      modifies this
      ensures sent == old(sent) + [RedirectReply(Found, location)]
    {
      sent := sent + [RedirectReply(Found, location)];
    }
  }
}
