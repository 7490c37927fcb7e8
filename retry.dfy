/** The retry policy of the example programs (rateLimitPolicy in
    examples/utils/utils.go): after each attempt the retrying HTTP client asks
    it whether to try again. Transport errors are classified by their message
    and cause, responses by their status code. */
module Retry {
  import opened Text
  import Http

  /** The error of a done context: ctx.Err(). */
  datatype ContextError = Canceled | DeadlineExceeded

  /** The underlying error of a url.Error, as far as the policy looks at it. */
  datatype Cause = UnknownAuthority | OtherCause

  /** A transport error: a *url.Error (its full Error() text and its cause),
      or an error of any other type. */
  datatype TransportError = UrlError(message: string, cause: Cause) | OtherError(message: string)

  /** What one attempt produced: a transport error, or a response. */
  datatype Attempt = Failed(error: TransportError) | Responded(status: int64)

  /** The policy's answer: whether to retry, and the error to stop with. */
  datatype Decision = Decision(retry: bool, error: Option<ContextError>)

  const RedirectsPrefix := "stopped after "
  const RedirectsSuffix := " redirects"
  const SchemeMessage := "unsupported protocol scheme"

  /** t is "stopped after N redirects" for a non-empty run of digits N. */
  predicate RedirectsText(t: string)
  {
    && HasPrefix(t, RedirectsPrefix) && HasSuffix(t, RedirectsSuffix)
    && |RedirectsPrefix| < |t| - |RedirectsSuffix|
    && AllDigits(t[|RedirectsPrefix|..|t| - |RedirectsSuffix|])
  }

  /** The pattern `stopped after \d+ redirects\z`: unanchored at the start,
      anchored at the end of the text. */
  predicate RedirectsExhausted(s: string)
  {
    exists i :: 0 <= i <= |s| && RedirectsText(s[i..])
  }

  /** The number of digits at the end of s. */
  function TrailingDigits(s: string): (n: nat)
    ensures n <= |s|
    ensures AllDigits(s[|s| - n..])
    ensures n < |s| ==> !IsDigit(s[|s| - n - 1])
  {
    if s == [] || !IsDigit(s[|s| - 1]) then 0
    else
      var n := TrailingDigits(s[..|s| - 1]);
      assert s[..|s| - 1][|s| - 1 - n..] + [s[|s| - 1]] == s[|s| - (n + 1)..];
      n + 1
  }

  /** A digit run preceded by a non-digit is the whole trailing digit run. */
  lemma TrailingDigitsExact(s: string, k: nat)
    requires k <= |s| && AllDigits(s[|s| - k..]) && (k < |s| ==> !IsDigit(s[|s| - k - 1]))
    ensures TrailingDigits(s) == k
  {
  }

  /** Matches the redirect pattern without a search: the text ends in
      " redirects", the trailing digits before it are not empty, and
      "stopped after " comes right before them. */
  function MatchRedirects(s: string): (b: bool)
  {
    if !HasSuffix(s, RedirectsSuffix) then false
    else
      var body := s[..|s| - |RedirectsSuffix|];
      var n := TrailingDigits(body);
      0 < n && HasSuffix(body[..|body| - n], RedirectsPrefix)
  }

  /** A text the matcher accepts matches the pattern. */
  lemma MatchRedirectsSound(s: string)
    requires MatchRedirects(s)
    ensures RedirectsExhausted(s)
  {
    var body := s[..|s| - |RedirectsSuffix|];
    var n := TrailingDigits(body);
    var i := |body| - n - |RedirectsPrefix|;
    var t := s[i..];
    assert t[..|RedirectsPrefix|] == body[..|body| - n][i..];
    assert t[|t| - |RedirectsSuffix|..] == s[|s| - |RedirectsSuffix|..];
    assert t[|RedirectsPrefix|..|t| - |RedirectsSuffix|] == body[|body| - n..];
    assert RedirectsText(t);
  }

  /** A text that matches the pattern is accepted by the matcher. */
  lemma MatchRedirectsComplete(s: string)
    requires RedirectsExhausted(s)
    ensures MatchRedirects(s)
  {
    var i :| 0 <= i <= |s| && RedirectsText(s[i..]);
    MatchRedirectsFrom(s, i);
  }

  /** The completeness argument for one match position i: the text ends in
      " redirects", the digits of the match are exactly the trailing digits
      before it, and "stopped after " precedes them. */
  lemma MatchRedirectsFrom(s: string, i: int)
    requires 0 <= i <= |s| && RedirectsText(s[i..])
    ensures MatchRedirects(s)
  {
    var k := |s| - i - |RedirectsSuffix| - |RedirectsPrefix|;
    MatchEndsInSuffix(s, i);
    MatchDigitsAreTrailing(s, i);
    MatchPrefixBeforeDigits(s, i);
    MatchRedirectsFromParts(s, k);
  }

  /** A match ends the text, so the text ends in " redirects". */
  lemma MatchEndsInSuffix(s: string, i: int)
    requires 0 <= i <= |s| && RedirectsText(s[i..])
    ensures HasSuffix(s, RedirectsSuffix)
  {
    var t := s[i..];
    assert s[|s| - |RedirectsSuffix|..] == t[|t| - |RedirectsSuffix|..];
  }

  /** The match's digits, preceded by the space of "stopped after ", are the
      whole run of digits before " redirects". */
  lemma MatchDigitsAreTrailing(s: string, i: int)
    requires 0 <= i <= |s| && RedirectsText(s[i..])
    ensures var body := s[..|s| - |RedirectsSuffix|];
      TrailingDigits(body) == |s| - i - |RedirectsSuffix| - |RedirectsPrefix|
  {
    var body := s[..|s| - |RedirectsSuffix|];
    var k := |s| - i - |RedirectsSuffix| - |RedirectsPrefix|;
    MatchDigitsEndBody(s, i);
    MatchDigitsFollowSpace(s, i);
    TrailingDigitsExact(body, k);
  }

  /** The match's digits end the text before " redirects". */
  lemma MatchDigitsEndBody(s: string, i: int)
    requires 0 <= i <= |s| && RedirectsText(s[i..])
    ensures var body := s[..|s| - |RedirectsSuffix|];
      var k := |s| - i - |RedirectsSuffix| - |RedirectsPrefix|;
      0 < k <= |body| && AllDigits(body[|body| - k..])
  {
    var t := s[i..];
    var p, q := |RedirectsPrefix|, |RedirectsSuffix|;
    var body := s[..|s| - q];
    var k := |t| - q - p;
    assert body[|body| - k..] == t[p..|t| - q];
  }

  /** The character before the match's digits is the space that ends
      "stopped after ", not a digit. */
  lemma MatchDigitsFollowSpace(s: string, i: int)
    requires 0 <= i <= |s| && RedirectsText(s[i..])
    ensures var body := s[..|s| - |RedirectsSuffix|];
      var k := |s| - i - |RedirectsSuffix| - |RedirectsPrefix|;
      k < |body| && !IsDigit(body[|body| - k - 1])
  {
    var t := s[i..];
    var p, q := |RedirectsPrefix|, |RedirectsSuffix|;
    var body := s[..|s| - q];
    var k := |t| - q - p;
    assert body[|body| - k - 1] == t[p - 1] == RedirectsPrefix[p - 1];
  }

  /** "stopped after " sits right before the match's digits. */
  lemma MatchPrefixBeforeDigits(s: string, i: int)
    requires 0 <= i <= |s| && RedirectsText(s[i..])
    ensures var body := s[..|s| - |RedirectsSuffix|];
      var k := |s| - i - |RedirectsSuffix| - |RedirectsPrefix|;
      HasSuffix(body[..|body| - k], RedirectsPrefix)
  {
    var t := s[i..];
    var p, q := |RedirectsPrefix|, |RedirectsSuffix|;
    var body := s[..|s| - q];
    var k := |t| - q - p;
    assert body[..|body| - k][|body| - k - p..] == t[..p];
  }

  /** The three facts above are what the matcher checks. */
  lemma MatchRedirectsFromParts(s: string, k: nat)
    requires HasSuffix(s, RedirectsSuffix)
    requires var body := s[..|s| - |RedirectsSuffix|];
      && 0 < k && k + |RedirectsPrefix| <= |body| && TrailingDigits(body) == k
      && HasSuffix(body[..|body| - k], RedirectsPrefix)
    ensures MatchRedirects(s)
  {
  }

  /** The matcher recognises exactly the texts the pattern describes. */
  lemma MatchRedirectsCorrect(s: string)
    ensures MatchRedirects(s) <==> RedirectsExhausted(s)
  {
    if MatchRedirects(s) {
      MatchRedirectsSound(s);
    }
    if RedirectsExhausted(s) {
      MatchRedirectsComplete(s);
    }
  }

  /** The transport errors the policy gives up on: a url.Error reporting
      exhausted redirects or an unsupported scheme, or caused by an unknown
      certificate authority. */
  predicate Permanent(e: TransportError)
  {
    e.UrlError? && (RedirectsExhausted(e.message) || Contains(e.message, SchemeMessage) || e.cause == UnknownAuthority)
  }

  /** 429 Too Many Requests, of section 4 of RFC 6585. */
  const TooManyRequests: int64 := 429

  /** 501 Not Implemented: a 5xx status that is not retried. */
  const NotImplemented: int64 := 501

  /** The statuses worth another attempt: no status at all (0), 429, and every
      status from 500 up except 501. */
  predicate RetryableStatus(status: int64)
  {
    status == 0 || status == TooManyRequests || (500 <= status && status != NotImplemented)
  }

  /** rateLimitPolicy: a done context stops with its error; otherwise no error
      is returned, and the attempt decides whether to retry. */
  function RateLimitPolicy(ctx: Option<ContextError>, attempt: Attempt): (d: Decision)
    ensures d.error == ctx
    ensures ctx.Some? ==> !d.retry
    ensures ctx.None? && attempt.Failed? ==> (d.retry <==> !Permanent(attempt.error))
    ensures ctx.None? && attempt.Responded? ==> (d.retry <==> RetryableStatus(attempt.status))
  {
    if ctx.Some? then Decision(false, ctx)
    else
      match attempt
      case Failed(e) =>
        if e.UrlError? then
          MatchRedirectsCorrect(e.message);
          if MatchRedirects(e.message) then Decision(false, None)
          else if Contains(e.message, SchemeMessage) then Decision(false, None)
          else if e.cause == UnknownAuthority then Decision(false, None)
          else Decision(true, None)
        else Decision(true, None)
      case Responded(status) =>
        if status == 0 || status == 429 || (status >= 500 && status != 501) then Decision(true, None)
        else Decision(false, None)
  }

  /** Only an attempt the client would report as failed is retried: a retried
      response has a status outside 2xx, which checkResponse rejects. */
  lemma RetriedResponsesAreErrors(status: int64)
    requires RateLimitPolicy(None, Responded(status)).retry
    ensures Http.CheckResponse(status).Some?
  {
  }

  /** Errors of any type other than url.Error are always retried, whatever
      their message says. */
  lemma OtherErrorsRetried(message: string)
    ensures RateLimitPolicy(None, Failed(OtherError(message))).retry
  {
  }

  /** The message net/http gives when the redirect limit is hit, "stopped
      after N redirects" after whatever the url.Error puts before it, is not
      retried. */
  lemma RedirectLimitNotRetried(lead: string, n: string, cause: Cause)
    requires 0 < |n| && AllDigits(n)
    ensures !RateLimitPolicy(None, Failed(UrlError(lead + RedirectsPrefix + n + RedirectsSuffix, cause))).retry
  {
    var s := lead + RedirectsPrefix + n + RedirectsSuffix;
    var t := RedirectsPrefix + n + RedirectsSuffix;
    assert s[|lead|..] == t;
    assert t[..|RedirectsPrefix|] == RedirectsPrefix;
    assert t[|t| - |RedirectsSuffix|..] == RedirectsSuffix;
    assert t[|RedirectsPrefix|..|t| - |RedirectsSuffix|] == n;
    assert RedirectsText(s[|lead|..]);
  }

  /** The status codes the source singles out. */
  lemma StatusExamples()
    ensures RateLimitPolicy(None, Responded(429)).retry
    ensures RateLimitPolicy(None, Responded(503)).retry
    ensures RateLimitPolicy(None, Responded(0)).retry
    ensures RateLimitPolicy(None, Responded(999)).retry
    ensures !RateLimitPolicy(None, Responded(501)).retry
    ensures !RateLimitPolicy(None, Responded(404)).retry
    ensures !RateLimitPolicy(None, Responded(200)).retry
  {
  }
}
