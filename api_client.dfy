/**
 * The HTTP client each management page builds around the API: it joins a
 * normalised base URL with "/api/v1" and an endpoint path, and folds every
 * way a request can end into one result, success or an error text. The
 * HTTP call itself is an input: its exception, or its status, body text
 * and decoded JSON body.
 */
module ApiClient {
  import opened Wrappers
  import opened Text

  const ApiPrefix := "/api/v1"

  /** `base_url.rstrip('/')`. */
  function BaseUrl(base: string): (r: string)
    ensures r == [] || r[|r| - 1] != '/'
  {
    RStripChar(base, '/')
  }

  /** The base URL is the input up to its run of trailing slashes, so any
      number of slashes added at the end gives the same client. */
  lemma {:induction false} BaseUrlSpec(base: string, slashes: nat)
    ensures base[..|BaseUrl(base)|] == BaseUrl(base)
    ensures forall i :: |BaseUrl(base)| <= i < |base| ==> base[i] == '/'
    ensures BaseUrl(base + seq(slashes, _ => '/')) == BaseUrl(base)
    ensures BaseUrl(BaseUrl(base)) == BaseUrl(base)
    decreases slashes
  {
    if slashes > 0 {
      var more := base + seq(slashes, _ => '/');
      assert more[..|more| - 1] == base + seq(slashes - 1, _ => '/');
      BaseUrlSpec(base, slashes - 1);
    } else {
      assert base + seq(slashes, _ => '/') == base;
    }
  }

  class Client {
    const baseUrl: string
    const apiBase: string

    /** `__init__`: the base URL without its trailing slashes, then the API root. */
    constructor (base: string)
      ensures baseUrl == BaseUrl(base)
      ensures apiBase == baseUrl + ApiPrefix
    {
      baseUrl := BaseUrl(base);
      apiBase := BaseUrl(base) + ApiPrefix;
    }

    /** The URL a request goes to: the API root with the endpoint path after it. */
    function Url(endpoint: string): (url: string)
      ensures |url| == |apiBase| + |endpoint|
      ensures url[..|apiBase|] == apiBase && url[|apiBase|..] == endpoint
    {
      apiBase + endpoint
    }
  }

  /** A client built on a base URL with trailing slashes sends every request
      to the same URL as one built on the bare base URL, and no URL has a
      doubled slash where the base URL and the API root meet. */
  lemma UrlIgnoresTrailingSlashes(base: string, slashes: nat, endpoint: string)
    ensures var url := BaseUrl(base + seq(slashes, _ => '/')) + ApiPrefix + endpoint;
            && url == BaseUrl(base) + ApiPrefix + endpoint
            && (BaseUrl(base) != [] ==> url[|BaseUrl(base)| - 1] != '/' && url[|BaseUrl(base)|] == '/')
  {
    BaseUrlSpec(base, slashes);
  }

  /** How the HTTP call ended. */
  datatype Exchange<T> =
    | Raised(message: string)
    | Answered(status: nat, text: string, json: Result<T>)

  /** What a page gets back: the decoded body, or an error text. */
  datatype Reply<T> = Delivered(body: T) | Failure(error: string)

  /** The error text of a status of 400 or more. */
  function HttpErrorText(status: nat, text: string): string
  {
    "HTTP " + NatToString(status) + ": " + text
  }

  /** `_make_request` after the call: an error status is reported with its
      code and body text, a raised exception (also one from decoding the
      body) with its message, and anything else delivers the decoded body. */
  function Classify<T>(exchange: Exchange<T>): (r: Reply<T>)
    ensures r.Delivered? <==> exchange.Answered? && exchange.status < 400 && exchange.json.Ok?
    ensures r.Delivered? ==> r.body == exchange.json.value
    ensures exchange.Raised? ==> r == Failure(exchange.message)
    ensures exchange.Answered? && exchange.status >= 400 ==>
              r == Failure(HttpErrorText(exchange.status, exchange.text))
    ensures exchange.Answered? && exchange.status < 400 && exchange.json.Err? ==>
              r == Failure(exchange.json.error)
  {
    match exchange
    case Raised(message) => Failure(message)
    case Answered(status, text, json) =>
      if status >= 400 then Failure(HttpErrorText(status, text))
      else
        match json
        case Ok(body) => Delivered(body)
        case Err(message) => Failure(message)
  }

  /** The status code and the body text can be read back from an HTTP error
      text: different failed responses give different texts. */
  lemma HttpErrorTextInjective(s1: nat, t1: string, s2: nat, t2: string)
    requires HttpErrorText(s1, t1) == HttpErrorText(s2, t2)
    ensures s1 == s2 && t1 == t2
  {
    var a, b := NatToString(s1), NatToString(s2);
    NatToStringDigits(s1);
    NatToStringDigits(s2);
    assert "HTTP " + (a + [':'] + (" " + t1)) == HttpErrorText(s1, t1);
    assert "HTTP " + (b + [':'] + (" " + t2)) == HttpErrorText(s2, t2);
    var rest1, rest2 := a + [':'] + (" " + t1), b + [':'] + (" " + t2);
    assert rest1 == ("HTTP " + rest1)[5..] && rest2 == ("HTTP " + rest2)[5..];
    DigitsSplitAt(a, ':', " " + t1, b, " " + t2);
    NatToStringInjective(s1, s2);
    assert t1 == (" " + t1)[1..] && t2 == (" " + t2)[1..];
  }
}
