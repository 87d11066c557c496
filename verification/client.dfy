/** The in-process HTTP client (components/client.py): how
    `AppClient.request` turns the URL it is given into the URL it asks the
    underlying session for. */
module Client {

  import opened Py
  import opened Text

  /** An `AppClient`: where relative URLs are sent. */
  datatype AppClient = AppClient(scheme: string, host: string, port: int)

  const RelativeUrlError: Exc :=
    ValueError("AppClient expected either absolute URL starting with http: or https:, or a relative URL starting with /")

  /** The URL is already absolute. The test is case-sensitive. */
  predicate IsAbsolute(url: string) {
    StartsWith(url, "http:") || StartsWith(url, "https:")
  }

  /** The absolute form of a relative URL:
      `{scheme}://{host}:{port}{url}`. */
  function Absolute(c: AppClient, url: string): (r: string)
    ensures StartsWith(r, c.scheme + "://" + c.host + ":") && |url| <= |r| && r[|r| - |url|..] == url
    ensures |c.scheme + "://" + c.host + ":"| + |url| <= |r|
    ensures r[|c.scheme + "://" + c.host + ":"|..|r| - |url|] == IntToString(c.port)
  {
    var prefix := c.scheme + "://" + c.host + ":" + IntToString(c.port);
    assert (prefix + url)[..|c.scheme + "://" + c.host + ":"|] == c.scheme + "://" + c.host + ":";
    prefix + url
  }

  /** The URL `request(method, url)` hands on: absolute URLs unchanged,
      URLs starting with `/` made absolute, anything else refused. */
  function Resolve(c: AppClient, url: string): (r: Result<string>)
    ensures IsAbsolute(url) ==> r == Success(url)
    ensures !IsAbsolute(url) && StartsWith(url, "/") ==> r == Success(Absolute(c, url))
    ensures r.Failure? <==> !IsAbsolute(url) && !StartsWith(url, "/")
    ensures r.Failure? ==> r.exc == RelativeUrlError
  {
    if !IsAbsolute(url) then
      if !StartsWith(url, "/") then Failure(RelativeUrlError)
      else Success(Absolute(c, url))
    else Success(url)
  }

  /** A client whose scheme is `http` or `https` produces URLs that it
      passes through unchanged: resolving twice is resolving once. */
  lemma ResolveIdempotent(c: AppClient, url: string)
    requires c.scheme == "http" || c.scheme == "https"
    requires Resolve(c, url).Success?
    ensures Resolve(c, Resolve(c, url).value) == Resolve(c, url)
  {
    var r := Resolve(c, url).value;
    if !IsAbsolute(url) {
      assert StartsWith(r, c.scheme + "://" + c.host + ":");
      if c.scheme == "http" {
        assert r[..5] == (c.scheme + "://" + c.host + ":")[..5] == "http:";
      } else {
        assert r[..6] == (c.scheme + "://" + c.host + ":")[..6] == "https:";
      }
    }
  }

  /** A client whose scheme starts with neither `h` nor `/` turns a
      relative URL into one it refuses on a second pass. */
  lemma ResolveOtherScheme(c: AppClient, url: string)
    requires |c.scheme| > 0 && c.scheme[0] != 'h' && c.scheme[0] != '/'
    requires !IsAbsolute(url) && StartsWith(url, "/")
    ensures Resolve(c, url) == Success(Absolute(c, url))
    ensures Resolve(c, Absolute(c, url)).Failure?
  {
    var r := Absolute(c, url);
    var head := c.scheme + "://" + c.host + ":";
    assert r[..|head|] == head;
    assert r[0] == head[0] == c.scheme[0];
    assert !StartsWith(r, "http:") by { if |r| >= 5 { assert r[..5][0] == r[0]; } }
    assert !StartsWith(r, "https:") by { if |r| >= 6 { assert r[..6][0] == r[0]; } }
    assert !StartsWith(r, "/") by { assert r[..1][0] == r[0]; }
  }
}
