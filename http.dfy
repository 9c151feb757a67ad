/**
 * The slice of `net/http` the middleware touches: the in-flight request it
 * rewrites, the response writer it reports errors on, and the next handler of
 * the chain, reduced to a log of the requests it was given.
 */
module Http {

  /** `http.StatusInternalServerError`. */
  const StatusInternalServerError: nat := 500

  /** An `*http.Request`: the host field, the header map, and the fields the
      middleware must leave alone. Each header holds one value. */
  class Request {
    var url: string
    var body: string
    var host: string
    var headers: map<string, string>

    constructor (url: string, body: string, host: string, headers: map<string, string>)
      ensures this.url == url && this.body == body
      ensures this.host == host && this.headers == headers
    {
      this.url := url;
      this.body := body;
      this.host := host;
      this.headers := headers;
    }

    /** `req.Header.Set(key, value)`: replaces whatever `key` held, keeps every
        other header and every other field. */
    method SetHeader(key: string, value: string)
      modifies this
      ensures headers == old(headers)[key := value]
      ensures key in headers && headers[key] == value
      ensures host == old(host) && url == old(url) && body == old(body)
    {
      headers := headers[key := value];
    }
  }

  /** An `http.ResponseWriter`, reduced to the status and the body written so
      far; a status of 0 means none has been written. */
  class ResponseWriter {
    var status: nat
    var body: string

    constructor ()
      ensures status == 0 && body == []
    {
      status := 0;
      body := [];
    }

    /** `http.Error(rw, message, code)`: writes the status code, then the
        message and a line break as the body. */
    method Error(message: string, code: nat)
      modifies this
      ensures status == code
      ensures body == old(body) + message + "\n"
    {
      status := code;
      body := body + message + "\n";
    }
  }

  /** The next `http.Handler` of the chain. What it does with a request is not
      part of this model; it records every request it receives, in order. */
  class Handler {
    var received: seq<Request>

    constructor ()
      ensures received == []
    {
      received := [];
    }

    /** `next.ServeHTTP(rw, req)`. */
    method ServeHTTP(rw: ResponseWriter, req: Request)
      modifies this
      ensures received == old(received) + [req]
    {
      received := received + [req];
    }
  }
}
