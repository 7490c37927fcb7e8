/** The parts of Go's net/http and net/url the client relies on: request
    methods, URLs as the client sees them, header maps with their canonical
    key spelling, and the outcome of sending a request. */
module Http {
  import opened Text
  import opened Query

  /** http.MethodGet and http.MethodPost. */
  datatype Method = MethodGet | MethodPost

  function MethodName(m: Method): (s: string)
    ensures m == MethodGet <==> s == "GET"
  {
    match m
    case MethodGet => "GET"
    case MethodPost => "POST"
  }

  /** The parts of a url.URL the client reads or writes. */
  datatype Url = Url(scheme: string, host: string, path: string, query: Values)

  /** A header map: canonical key to values (http.Header). */
  type Header = map<string, seq<string>>

  /** The characters of an RFC 7230 token, the only ones a header name may
      hold for Go to canonicalise it. */
  predicate IsTokenChar(c: char)
  {
    || 'a' <= c <= 'z' || 'A' <= c <= 'Z' || '0' <= c <= '9'
    || c == '!' || c == '#' || c == '$' || c == '%' || c == '&' || c == '\'' || c == '*'
    || c == '+' || c == '-' || c == '.' || c == '^' || c == '_' || c == '`' || c == '|' || c == '~'
  }

  predicate IsToken(s: string)
  {
    forall i :: 0 <= i < |s| ==> IsTokenChar(s[i])
  }

  function ToUpper(c: char): char
  {
    if 'a' <= c <= 'z' then (c as int - 32) as char else c
  }

  function ToLower(c: char): char
  {
    if 'A' <= c <= 'Z' then (c as int + 32) as char else c
  }

  /** The character at i starts a word: it is first, or follows a hyphen. */
  predicate StartsWord(s: string, i: int)
    requires 0 <= i < |s|
  {
    i == 0 || s[i - 1] == '-'
  }

  /** textproto.CanonicalMIMEHeaderKey: in a token, the first letter and every
      letter after a hyphen upper case, all other letters lower case; a name
      that is not a token is left as it is. */
  function CanonicalHeaderKey(s: string): (r: string)
    ensures |r| == |s|
  {
    if IsToken(s) then
      seq(|s|, i requires 0 <= i < |s| => if StartsWord(s, i) then ToUpper(s[i]) else ToLower(s[i]))
    else s
  }

  /** A canonical key is its own canonical form. */
  lemma CanonicalHeaderKeyIdempotent(s: string)
    ensures CanonicalHeaderKey(CanonicalHeaderKey(s)) == CanonicalHeaderKey(s)
  {
    var r := CanonicalHeaderKey(s);
    if IsToken(s) {
      assert forall i :: 0 <= i < |s| ==> IsTokenChar(r[i]) && (r[i] == '-' <==> s[i] == '-');
      assert forall i :: 0 <= i < |s| ==> StartsWord(r, i) == StartsWord(s, i);
    }
  }

  /** Header names are case-insensitive: two tokens that differ only in the
      case of their letters have the same canonical key. */
  lemma CanonicalHeaderKeyIgnoresCase(s: string, t: string)
    requires IsToken(s) && IsToken(t)
    requires |s| == |t| && forall i :: 0 <= i < |s| ==> ToLower(s[i]) == ToLower(t[i])
    ensures CanonicalHeaderKey(s) == CanonicalHeaderKey(t)
  {
    forall i | 0 <= i < |s|
      ensures (s[i] == '-' <==> t[i] == '-') && ToUpper(s[i]) == ToUpper(t[i])
    {
      SameLetterUpToCase(s[i], t[i]);
    }
    assert forall i :: 0 <= i < |s| ==> StartsWord(s, i) == StartsWord(t, i);
  }

  /** Characters equal up to case are the same character in upper case, and
      a hyphen only matches a hyphen. */
  lemma SameLetterUpToCase(c: char, d: char)
    requires ToLower(c) == ToLower(d)
    ensures ToUpper(c) == ToUpper(d) && (c == '-' <==> d == '-')
  {
  }

  /** Header.Set: the key's canonical form maps to exactly the one value. */
  function SetHeader(h: Header, key: string, value: string): (r: Header)
    ensures CanonicalHeaderKey(key) in r && r[CanonicalHeaderKey(key)] == [value]
    ensures forall k :: k != CanonicalHeaderKey(key) ==> (k in r <==> k in h) && (k in h ==> r[k] == h[k])
  {
    h[CanonicalHeaderKey(key) := [value]]
  }

  /** A request as the client hands it to the HTTP client; its body is
      always empty (the client passes no body). */
  datatype Request = Request(verb: Method, url: Url, header: Header)

  /** What the HTTP client's Do returns: an error (no response to close), or
      a response whose body either reads in full or fails while reading. */
  datatype Reply = Reply(status: int64, body: Option<string>)
  datatype Transport = TransportFailed(message: string) | Received(reply: Reply)

  /** A status in the 2xx (successful) class of section 15.3 of RFC 9110. */
  predicate Successful(status: int64)
  {
    200 <= status <= 299
  }

  /** checkResponse: no error for a 2xx status; otherwise an error naming the
      status code. */
  function CheckResponse(status: int64): (err: Option<string>)
    ensures err.None? <==> Successful(status)
    ensures err.Some? ==>
      HasPrefix(err.value, StatusMessagePrefix)
      && ParseDecimal(err.value[|StatusMessagePrefix|..]) == Some(status as int)
  {
    if 200 <= status && status <= 299 then None
    else
      var message := StatusMessagePrefix + FormatInt(status);
      assert message[|StatusMessagePrefix|..] == FormatInt(status);
      Some(message)
  }

  const StatusMessagePrefix := "received unexpected status code "
}
