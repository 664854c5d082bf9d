/**
 * The parts of a servlet request the security code reads: method, URI, the
 * headers (each name spelled as the code asks for it) and the peer address.
 */
module Http {
  import opened Wrappers

  datatype Request = Request(httpMethod: string, uri: string, headers: map<string, string>, remoteAddr: string)

  /** `request.getHeader(name)`: `None` for an absent header. */
  function Header(r: Request, name: string): Option<string> {
    if name in r.headers then Some(r.headers[name]) else None
  }
}
