/** The parts of a URI object that the HTTP client reads and writes. The
    URI class itself (parsing, `getAbsoluteUri`) is not part of this model:
    a URI is kept as its components. */
module Uri {

  /** The components of a URI at one moment. `rest` stands for the path,
      query and fragment, which the client never inspects. */
  datatype UriValue = UriValue(
    scheme: string,
    userInfo: string,   // raw user-info, e.g. "user:pass"
    host: string,
    port: nat,
    explicitPort: bool, // hasExplicitPortSpecified()
    rest: string)

  class Uri {
    var scheme: string
    var userInfo: string
    var host: string
    var port: nat
    var explicitPort: bool
    var rest: string

    constructor (v: UriValue)
      ensures Value() == v
    {
      scheme, userInfo, host := v.scheme, v.userInfo, v.host;
      port, explicitPort, rest := v.port, v.explicitPort, v.rest;
    }

    function Value(): UriValue
      reads this
    {
      UriValue(scheme, userInfo, host, port, explicitPort, rest)
    }

    method SetScheme(s: string)
      modifies this
      ensures Value() == old(Value()).(scheme := s)
    {
      scheme := s;
    }

    method SetUserInfo(u: string)
      modifies this
      ensures Value() == old(Value()).(userInfo := u)
    {
      userInfo := u;
    }
  }
}
