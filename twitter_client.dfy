/** The Twitter API client (app/social_media/twitter_client.py): the bounded
    retry loop around one HTTP request, driven by the status code of each
    response (429 is "Too Many Requests", section 4 of RFC 6585, and its
    Retry-After header is read in the delay-seconds form of section 10.2.3
    of RFC 9110), the simplified query used after a 400, the conversion of
    a search response into posts, and the search that tries three query
    variants in turn. The network and the clock are abstracted: the
    response to each attempt is an input, and the sleeps are returned as
    the list of their durations. */
module TwitterClient {
  import opened Common
  import opened Posts

  const MaxRetries: nat := 2
  /** Seconds slept before every attempt after the first. */
  const RequestDelay: real := 2.0
  /** Seconds of the first back-off after a failed request. */
  const RetryDelay: nat := 60
  /** Seconds waited after a 429 without a Retry-After header, at most. */
  const MaxRateLimitWait: nat := 900
  /** The largest page the search endpoint serves. */
  const MaxResultsCap: int := 100
  const SearchUrl := "https://api.twitter.com/2/tweets/search/recent"

  // ---------------------------------------------------------------------
  // Responses
  // ---------------------------------------------------------------------

  datatype Tweet = Tweet(
    id: Option<string>,
    authorId: Option<string>,
    text: Option<string>,
    createdAt: int,
    metrics: Option<map<string, real>>)

  datatype User = User(id: string, username: Option<string>, name: Option<string>, verified: Option<bool>)

  /** The decoded body of a search response: its "data" list and the
      "users" list under "includes", each `None` when absent. */
  datatype Payload = Payload(data: Option<seq<Tweet>>, users: Option<seq<User>>)

  /** What one attempt met: an HTTP response (status, reason phrase,
      Retry-After header, decoded body), a timeout, or any other failure of
      the request with its message. */
  datatype Response =
    | Answered(status: int, reason: string, retryAfter: Option<string>, payload: Payload)
    | TimedOut
    | ConnectionFailed(message: string)

  /** What `_make_request` gives its caller: the decoded body, the empty
      dictionary, or an exception with its message. */
  datatype RequestOutcome = Body(payload: Payload) | NoBody | Raised(error: string)

  function Pow2(n: nat): (r: nat)
    ensures r >= 1
  {
    if n == 0 then 1 else 2 * Pow2(n - 1)
  }

  /** The wait after a 429 that carries no Retry-After header. */
  function RateLimitBackoff(attempt: nat): (r: nat)
    ensures r <= MaxRateLimitWait
    ensures r == MaxRateLimitWait || r == 60 * Pow2(attempt)
    ensures 60 * Pow2(attempt) <= MaxRateLimitWait ==> r == 60 * Pow2(attempt)
    ensures 60 * Pow2(attempt) >= MaxRateLimitWait ==> r == MaxRateLimitWait
  {
    Min(60 * Pow2(attempt), MaxRateLimitWait)
  }

  /** The message of the HTTPError `raise_for_status` raises. */
  function HttpErrorText(status: nat, reason: string, url: string): string
  {
    NatToString(status) + (if status < 500 then " Client Error: " else " Server Error: ") + reason + " for url: " + url
  }

  /** The ValueError of `int()` on text that is not a decimal integer. */
  function IntError(text: string): string
  {
    "invalid literal for int() with base 10: '" + text + "'"
  }

  const SleepError := "sleep length must be non-negative"

  // ---------------------------------------------------------------------
  // Ticker extraction
  // ---------------------------------------------------------------------

  /** One to five upper-case ASCII letters. */
  predicate ShortUpperWord(w: string)
  {
    1 <= |w| <= 5 && forall i :: 0 <= i < |w| ==> IsUpperChar(w[i])
  }

  /** The longest prefix of at most `max` upper-case letters. */
  function UpperRun(s: string, max: nat): (r: string)
    ensures |r| <= max && |r| <= |s| && r == s[..|r|]
    ensures forall i :: 0 <= i < |r| ==> IsUpperChar(r[i])
    ensures |r| < max && |r| < |s| ==> !IsUpperChar(s[|r|])
  {
    if max == 0 || |s| == 0 || !IsUpperChar(s[0]) then ""
    else [s[0]] + UpperRun(s[1..], max - 1)
  }

  /** A `$` or `#` at `i` followed by an upper-case letter. */
  predicate MarkAt(s: string, i: int)
  {
    0 <= i < |s| - 1 && (s[i] == '$' || s[i] == '#') && IsUpperChar(s[i + 1])
  }

  /** `re.search(r'[\$#]([A-Z]{1,5})', s)`: the group of the leftmost match. */
  function MarkedTicker(s: string): (r: Option<string>)
    ensures r.Some? ==> ShortUpperWord(r.value)
    ensures r.None? <==> forall i :: !MarkAt(s, i)
    ensures r.Some? ==> exists i :: MarkAt(s, i) && (forall j :: 0 <= j < i ==> !MarkAt(s, j))
                                    && r.value == UpperRun(s[i + 1..], 5)
  {
    MarkedTickerFrom(s, 0)
  }

  /** The search for a mark, started at index `k`. */
  function MarkedTickerFrom(s: string, k: nat): (r: Option<string>)
    ensures r.Some? ==> ShortUpperWord(r.value)
    ensures r.None? <==> forall i :: k <= i ==> !MarkAt(s, i)
    ensures r.Some? ==> exists i :: k <= i && MarkAt(s, i) && (forall j :: k <= j < i ==> !MarkAt(s, j))
                                    && r.value == UpperRun(s[i + 1..], 5)
    decreases |s| - k
  {
    if k + 1 >= |s| then None
    else if MarkAt(s, k) then Some(UpperRun(s[k + 1..], 5))
    else MarkedTickerFrom(s, k + 1)
  }

  /** The length of the run of non-space characters that starts `s`. */
  function WordLength(s: string): (n: nat)
    ensures n <= |s|
    ensures forall i :: 0 <= i < n ==> !IsSpace(s[i])
    ensures n < |s| ==> IsSpace(s[n])
  {
    if |s| == 0 || IsSpace(s[0]) then 0 else 1 + WordLength(s[1..])
  }

  /** No white space in `w`. */
  predicate SpaceFree(w: string)
  {
    forall i :: 0 <= i < |w| ==> !IsSpace(w[i])
  }

  /** `s.split()` for ASCII white space: non-empty words without white
      space, in the order they occur. */
  function Words(s: string): (r: seq<string>)
    ensures forall w :: w in r ==> |w| > 0
    ensures forall k :: 0 <= k < |r| ==> SpaceFree(r[k])
    decreases |s|
  {
    if |s| == 0 then []
    else if IsSpace(s[0]) then Words(s[1..])
    else
      var n := WordLength(s);
      [s[..n]] + Words(s[n..])
  }

  /** The first word that is alphabetic, upper-case and at most five long. */
  function FirstShortUpperWord(words: seq<string>): (r: Option<string>)
    ensures r.Some? ==> ShortUpperWord(r.value) && r.value in words
    ensures r.None? <==> forall i :: 0 <= i < |words| ==> !ShortUpperWord(words[i])
    ensures r.Some? ==> exists i :: 0 <= i < |words| && words[i] == r.value
                                    && forall j :: 0 <= j < i ==> !ShortUpperWord(words[j])
  {
    if |words| == 0 then None
    else if ShortUpperWord(words[0]) then Some(words[0])
    else FirstShortUpperWord(words[1..])
  }

  /** `_extract_ticker_from_query(query)`: a `$` or `#` tag first, then the
      first short upper-case word, else "stock". */
  function ExtractTicker(query: string): (r: string)
    ensures r == "stock" || ShortUpperWord(r)
    ensures MarkedTicker(query).Some? ==> r == MarkedTicker(query).value
    ensures MarkedTicker(query).None? && FirstShortUpperWord(Words(query)).Some? ==>
      r == FirstShortUpperWord(Words(query)).value
    ensures r == "stock" <==> MarkedTicker(query).None? && FirstShortUpperWord(Words(query)).None?
  {
    assert !ShortUpperWord("stock") by { assert !IsUpperChar("stock"[0]); }
    match MarkedTicker(query)
    case Some(t) => t
    case None =>
      match FirstShortUpperWord(Words(query))
      case Some(w) => w
      case None => "stock"
  }

  /** The three queries `get_posts_for_ticker` tries, in order. */
  function QueryVariants(ticker: string): (r: seq<string>)
    ensures |r| == 3
  {
    [ticker + " stock -is:retweet lang:en",
     "#" + ticker + "stock -is:retweet lang:en",
     ticker + " -is:retweet lang:en"]
  }

  /** The query used after a 400 on the first attempt. */
  function SimplifiedQuery(query: string): string
  {
    ExtractTicker(query) + " lang:en"
  }

  predicate NoMarks(s: string)
  {
    forall i :: 0 <= i < |s| ==> s[i] != '$' && s[i] != '#'
  }

  /** Text without "$" or "#" has no marked ticker. */
  lemma NoMarksNoTag(s: string)
    requires NoMarks(s)
    ensures MarkedTicker(s).None?
  {
  }

  lemma {:induction false} UpperRunStops(w: string, rest: string, max: nat)
    requires forall i :: 0 <= i < |w| ==> IsUpperChar(w[i])
    requires |w| <= max
    requires |rest| > 0 && !IsUpperChar(rest[0])
    ensures UpperRun(w + rest, max) == w
    decreases |w|
  {
    if |w| == 0 {
      assert (w + rest)[0] == rest[0];
    } else {
      assert (w + rest)[1..] == w[1..] + rest;
      UpperRunStops(w[1..], rest, max - 1);
    }
  }

  lemma {:induction false} WordLengthOfWord(w: string, rest: string)
    requires forall i :: 0 <= i < |w| ==> !IsSpace(w[i])
    requires |rest| > 0 && IsSpace(rest[0])
    ensures WordLength(w + rest) == |w|
    decreases |w|
  {
    if |w| == 0 {
      assert (w + rest)[0] == rest[0];
    } else {
      assert (w + rest)[1..] == w[1..] + rest;
      WordLengthOfWord(w[1..], rest);
    }
  }

  /** The text with its white space removed. */
  function DropSpaces(s: string): (r: string)
    ensures SpaceFree(r) && |r| <= |s|
  {
    if |s| == 0 then "" else (if IsSpace(s[0]) then "" else [s[0]]) + DropSpaces(s[1..])
  }

  function Concat(ws: seq<string>): string
  {
    if |ws| == 0 then "" else ws[0] + Concat(ws[1..])
  }

  /** Text without white space loses nothing. */
  lemma {:induction false} DropSpacesOfSpaceFree(w: string)
    requires SpaceFree(w)
    ensures DropSpaces(w) == w
  {
    if |w| > 0 {
      DropSpacesOfSpaceFree(w[1..]);
    }
  }

  lemma {:induction false} DropSpacesAppend(a: string, b: string)
    ensures DropSpaces(a + b) == DropSpaces(a) + DropSpaces(b)
  {
    if |a| > 0 {
      assert (a + b)[0] == a[0] && (a + b)[1..] == a[1..] + b;
      DropSpacesAppend(a[1..], b);
    } else {
      assert a + b == b;
    }
  }

  /** The words hold every non-space character of the text, in order, and
      nothing else. */
  lemma {:induction false} WordsKeepText(s: string)
    ensures Concat(Words(s)) == DropSpaces(s)
    decreases |s|
  {
    if |s| > 0 {
      if IsSpace(s[0]) {
        WordsKeepText(s[1..]);
      } else {
        var n := WordLength(s);
        assert s == s[..n] + s[n..];
        WordsKeepText(s[n..]);
        DropSpacesAppend(s[..n], s[n..]);
        DropSpacesOfSpaceFree(s[..n]);
        assert Words(s) == [s[..n]] + Words(s[n..]);
        assert ([s[..n]] + Words(s[n..]))[1..] == Words(s[n..]);
      }
    }
  }

  /** Splitting words joined by single spaces gives the words back. */
  lemma {:induction false} WordsOfJoin(ws: seq<string>)
    requires forall k :: 0 <= k < |ws| ==> |ws[k]| > 0 && SpaceFree(ws[k])
    ensures Words(Join(" ", ws)) == ws
    decreases |ws|
  {
    if |ws| == 1 {
      var w := ws[0];
      assert WordLength(w) == |w|;
      assert w[..|w|] == w && w[|w|..] == "";
    } else if |ws| > 1 {
      var w, rest := ws[0], Join(" ", ws[1..]);
      var s := w + " " + rest;
      assert s == w + (" " + rest);
      WordLengthOfWord(w, " " + rest);
      assert s[..|w|] == w && s[|w|..] == " " + rest;
      assert (" " + rest)[1..] == rest;
      WordsOfJoin(ws[1..]);
    }
  }

  /** A short upper-case word followed by a space is the first word. */
  lemma FirstWordOf(w: string, rest: string)
    requires ShortUpperWord(w)
    requires |rest| > 0 && IsSpace(rest[0])
    ensures FirstShortUpperWord(Words(w + rest)) == Some(w)
  {
    WordLengthOfWord(w, rest);
    var s := w + rest;
    assert !IsSpace(s[0]);
    assert s[..|w|] == w;
    assert Words(s) == [w] + Words(s[|w|..]);
  }

  lemma VariantTailsUnmarked()
    ensures NoMarks(" stock -is:retweet lang:en")
    ensures NoMarks(" -is:retweet lang:en")
  {
  }

  lemma NoMarksConcat(a: string, b: string)
    requires NoMarks(a) && NoMarks(b)
    ensures NoMarks(a + b)
  {
    forall i | 0 <= i < |a + b|
      ensures (a + b)[i] != '$' && (a + b)[i] != '#'
    {
      if i < |a| { assert (a + b)[i] == a[i]; } else { assert (a + b)[i] == b[i - |a|]; }
    }
  }

  /** The simplified query keeps the ticker of every query variant, so a
      retry after a 400 searches for "<ticker> lang:en". */
  lemma SimplifiedVariantKeepsTicker(ticker: string, i: nat)
    requires ShortUpperWord(ticker) && i < 3
    ensures SimplifiedQuery(QueryVariants(ticker)[i]) == ticker + " lang:en"
  {
    var q := QueryVariants(ticker)[i];
    VariantTailsUnmarked();
    assert NoMarks(ticker);
    if i == 0 {
      NoMarksConcat(ticker, " stock -is:retweet lang:en");
      NoMarksNoTag(q);
      FirstWordOf(ticker, " stock -is:retweet lang:en");
    } else if i == 1 {
      var rest := "stock -is:retweet lang:en";
      assert q == "#" + (ticker + rest);
      assert q[1..] == ticker + rest;
      UpperRunStops(ticker, rest, 5);
      assert MarkedTicker(q) == Some(UpperRun(q[1..], 5));
    } else {
      NoMarksConcat(ticker, " -is:retweet lang:en");
      NoMarksNoTag(q);
      FirstWordOf(ticker, " -is:retweet lang:en");
    }
  }

  // ---------------------------------------------------------------------
  // The retry loop
  // ---------------------------------------------------------------------

  /** What one attempt decides: stop with an outcome, or go on to the next
      attempt after the given sleeps with the given query. */
  datatype Step = Finish(outcome: RequestOutcome) | Next(waits: seq<real>, query: Option<string>)

  /** The decision of attempt `attempt` on `response`. */
  function StepOf(attempt: nat, response: Response, query: Option<string>, url: string): Step
  {
    var last := attempt + 1 >= MaxRetries;
    match response
    case Answered(status, reason, header, payload) =>
      if status == 200 then Finish(Body(payload))
      else if status == 429 then
        if header.Some? && ParseInt(header.value).None? then Finish(Raised(IntError(header.value)))
        else
          var wait := if header.Some? then ParseInt(header.value).value else RateLimitBackoff(attempt);
          if attempt >= 1 then Finish(NoBody)
          else if wait < 0 then Finish(Raised(SleepError))
          else Next([wait as real], query)
      else if status == 400 then
        if attempt == 0 && query.Some? then Next([], Some(SimplifiedQuery(query.value)))
        else Finish(NoBody)
      else if status == 401 then Finish(NoBody)
      else if 400 <= status < 600 then
        if last then Finish(Raised(HttpErrorText(status, reason, url)))
        else Next([(RetryDelay * Pow2(attempt)) as real], query)
      else Next([], query)
    case TimedOut => Next(if last then [] else [RetryDelay as real], query)
    case ConnectionFailed(message) =>
      if last then Finish(Raised(message))
      else Next([(RetryDelay * Pow2(attempt)) as real], query)
  }

  /** The outcome of the attempts from `attempt` on, the query each one
      sent, and every sleep, in order. */
  datatype Trace = Trace(outcome: RequestOutcome, sent: seq<Option<string>>, waits: seq<real>)

  function Run(attempt: nat, responses: seq<Response>, query: Option<string>, url: string): (t: Trace)
    requires |responses| == MaxRetries && attempt <= MaxRetries
    ensures |t.sent| <= MaxRetries - attempt
    ensures attempt < MaxRetries ==> |t.sent| >= 1 && t.sent[0] == query
    decreases MaxRetries - attempt
  {
    if attempt == MaxRetries then Trace(NoBody, [], [])
    else
      var delay := if attempt > 0 then [RequestDelay] else [];
      match StepOf(attempt, responses[attempt], query, url)
      case Finish(o) => Trace(o, [query], delay)
      case Next(w, q) =>
        var rest := Run(attempt + 1, responses, q, url);
        Trace(rest.outcome, [query] + rest.sent, delay + w + rest.waits)
  }

  /** One pass of the loop body of `_make_request`: the branches on the
      response, with the exception handlers. */
  method AttemptOnce(attempt: nat, response: Response, query: Option<string>, url: string) returns (step: Step)
    requires attempt < MaxRetries
    ensures step == StepOf(attempt, response, query, url)
  {
    match response {
      case Answered(status, reason, header, payload) =>
        if status == 200 {
          return Finish(Body(payload));
        } else if status == 429 {
          var retryAfter: int;
          if header.Some? {
            var parsed := ParseInt(header.value);
            if parsed.None? {
              return Finish(Raised(IntError(header.value)));
            }
            retryAfter := parsed.value;
          } else {
            retryAfter := RateLimitBackoff(attempt);
          }
          if attempt >= 1 {
            return Finish(NoBody);
          }
          if retryAfter < 0 {
            return Finish(Raised(SleepError));
          }
          return Next([retryAfter as real], query);
        } else if status == 400 {
          if attempt == 0 && query.Some? {
            return Next([], Some(SimplifiedQuery(query.value)));
          }
          return Finish(NoBody);
        } else if status == 401 {
          return Finish(NoBody);
        } else if 400 <= status < 600 {
          // raise_for_status raises an HTTPError, handled as any failed request
          if attempt == MaxRetries - 1 {
            return Finish(Raised(HttpErrorText(status, reason, url)));
          }
          return Next([(RetryDelay * Pow2(attempt)) as real], query);
        }
        return Next([], query);
      case TimedOut =>
        if attempt < MaxRetries - 1 {
          return Next([RetryDelay as real], query);
        }
        return Next([], query);
      case ConnectionFailed(message) =>
        if attempt == MaxRetries - 1 {
          return Finish(Raised(message));
        }
        return Next([(RetryDelay * Pow2(attempt)) as real], query);
    }
  }

  /** `_make_request(url, params)`, where `query` is `params['query']`. */
  method MakeRequest(url: string, query: Option<string>, responses: seq<Response>)
    returns (outcome: RequestOutcome, sent: seq<Option<string>>, waits: seq<real>)
    requires |responses| == MaxRetries
    ensures Trace(outcome, sent, waits) == Run(0, responses, query, url)
  {
    sent := [];
    waits := [];
    var q := query;
    var attempt := 0;
    while attempt < MaxRetries
      invariant 0 <= attempt <= MaxRetries
      invariant Run(0, responses, query, url) ==
        Trace(Run(attempt, responses, q, url).outcome, sent + Run(attempt, responses, q, url).sent,
              waits + Run(attempt, responses, q, url).waits)
    {
      var delay := if attempt > 0 then [RequestDelay] else [];
      var step := AttemptOnce(attempt, responses[attempt], q, url);
      match step {
        case Finish(o) =>
          return o, sent + [q], waits + delay;
        case Next(w, next) =>
          var rest := Run(attempt + 1, responses, next, url);
          assert sent + ([q] + rest.sent) == (sent + [q]) + rest.sent;
          assert waits + (delay + w + rest.waits) == (waits + delay + w) + rest.waits;
          sent, waits, q := sent + [q], waits + delay + w, next;
      }
      attempt := attempt + 1;
    }
    outcome := NoBody;
  }

  predicate IsStatus(r: Response, status: int) { r.Answered? && r.status == status }

  /** A body is returned only for a 200, and it is the body of the last
      response; a 200 on the first attempt is returned at once. */
  lemma BodyOnlyOnOk(responses: seq<Response>, query: Option<string>, url: string)
    requires |responses| == MaxRetries
    ensures var t := Run(0, responses, query, url);
      && (t.outcome.Body? ==> IsStatus(responses[|t.sent| - 1], 200) && t.outcome.payload == responses[|t.sent| - 1].payload)
      && (IsStatus(responses[0], 200) ==> t == Trace(Body(responses[0].payload), [query], []))
  {
    var t := Run(0, responses, query, url);
    if t.outcome.Body? && |t.sent| == 2 {
      match StepOf(0, responses[0], query, url)
      case Finish(o) =>
      case Next(w, q) =>
        assert t.outcome == Run(1, responses, q, url).outcome;
    }
  }

  /** The loop gives up with the empty result on a 401, and on a 400 or a
      429 (with a readable Retry-After) at the second attempt. */
  lemma GivesUp(responses: seq<Response>, query: Option<string>, url: string)
    requires |responses| == MaxRetries
    ensures var t := Run(0, responses, query, url);
      && (IsStatus(responses[0], 401) ==> t == Trace(NoBody, [query], []))
      && (|t.sent| == 2 && (IsStatus(responses[1], 401) || IsStatus(responses[1], 400) ||
            (IsStatus(responses[1], 429) && (responses[1].retryAfter.None? || ParseInt(responses[1].retryAfter.value).Some?)))
          ==> t.outcome == NoBody)
  {
    var t := Run(0, responses, query, url);
    if |t.sent| == 2 {
      match StepOf(0, responses[0], query, url)
      case Finish(o) =>
      case Next(w, q) =>
        assert t.outcome == Run(1, responses, q, url).outcome;
    }
  }

  /** A first 429 is followed by a wait and a second attempt with the same
      query: the Retry-After seconds when the header is there, else
      min(60 * 2^0, 900) = 60 seconds; then the 2-second request delay. */
  lemma RateLimitWaits(responses: seq<Response>, query: Option<string>, url: string)
    requires |responses| == MaxRetries
    requires IsStatus(responses[0], 429)
    requires responses[0].retryAfter.Some? ==>
      ParseInt(responses[0].retryAfter.value).Some? && ParseInt(responses[0].retryAfter.value).value >= 0
    ensures var t := Run(0, responses, query, url);
      && |t.sent| == 2 && t.sent[1] == query
      && |t.waits| >= 2 && t.waits[1] == RequestDelay
      && t.waits[0] == (if responses[0].retryAfter.None? then RateLimitBackoff(0) as real
                        else ParseInt(responses[0].retryAfter.value).value as real)
      && (responses[0].retryAfter.None? ==> t.waits[0] == 60.0)
  {
  }

  /** A 400 on the first attempt of a request with a query retries once
      with the simplified query. */
  lemma BadRequestRetriesSimplified(responses: seq<Response>, q: string, url: string)
    requires |responses| == MaxRetries
    requires IsStatus(responses[0], 400)
    ensures var t := Run(0, responses, Some(q), url);
      |t.sent| == 2 && t.sent[1] == Some(SimplifiedQuery(q))
  {
  }

  /** Failed requests are retried, after retry_delay * 2^attempt seconds:
      an exception reaches the caller only from the last attempt, or when
      a 429's Retry-After is not a non-negative integer. */
  lemma RaisesOnlyAtTheEnd(responses: seq<Response>, query: Option<string>, url: string)
    requires |responses| == MaxRetries
    ensures var t := Run(0, responses, query, url);
      t.outcome.Raised? ==>
        |t.sent| == MaxRetries ||
        (IsStatus(responses[0], 429) && responses[0].retryAfter.Some? &&
         (ParseInt(responses[0].retryAfter.value).None? || ParseInt(responses[0].retryAfter.value).value < 0))
    ensures var t := Run(0, responses, query, url);
      responses[0].ConnectionFailed? ==> |t.sent| == 2 && t.waits[0] == RetryDelay as real
  {
  }

  // ---------------------------------------------------------------------
  // Turning a search response into posts
  // ---------------------------------------------------------------------

  /** `users.get(author_id)` on the dictionary built from the "users"
      list, where a later user with the same id replaces an earlier one. */
  function LookupUser(users: seq<User>, id: Option<string>): (r: Option<User>)
    ensures r.Some? ==> r.value in users && id == Some(r.value.id)
    ensures r.None? <==> id.None? || forall u :: u in users ==> u.id != id.value
  {
    if id.None? || |users| == 0 then None
    else if users[|users| - 1].id == id.value then Some(users[|users| - 1])
    else LookupUser(users[..|users| - 1], id)
  }

  /** The post made from one tweet. */
  function TweetPost(t: Tweet, users: seq<User>, query: string): (p: Post)
    ensures p.platform == "twitter" && p.id == t.id && p.queryUsed == Some(query)
    ensures LookupUser(users, t.authorId).None? ==>
      p.author == "unknown" && p.authorName == Some("Unknown") && p.verified == Some(false)
    ensures LookupUser(users, t.authorId).Some? ==>
      p.author == GetOr(LookupUser(users, t.authorId).value.username, "unknown")
    ensures t.text.None? ==> p.text == ""
  {
    var user := LookupUser(users, t.authorId);
    Post("twitter", t.id,
         if user.Some? then GetOr(user.value.username, "unknown") else "unknown",
         Some(if user.Some? then GetOr(user.value.name, "Unknown") else "Unknown"),
         None,
         GetOr(t.text, ""),
         t.createdAt,
         GetOr(t.metrics, map[]),
         Some(if user.Some? then GetOr(user.value.verified, false) else false),
         Some(query))
  }

  /** The posts of a search response: one per tweet, in order. */
  function TweetPosts(payload: Payload, query: string): (r: seq<Post>)
    ensures payload.data.None? ==> r == []
    ensures payload.data.Some? ==> |r| == |payload.data.value|
    ensures payload.data.Some? ==> forall i :: 0 <= i < |r| ==>
      r[i] == TweetPost(payload.data.value[i], GetOr(payload.users, []), query)
    ensures forall i :: 0 <= i < |r| ==> r[i].platform == "twitter" && r[i].id == payload.data.value[i].id
  {
    var data := GetOr(payload.data, []);
    var users := GetOr(payload.users, []);
    seq(|data|, i requires 0 <= i < |data| => TweetPost(data[i], users, query))
  }

  /** `_process_tweets_response(result, query)`. */
  method ProcessTweetsResponse(payload: Payload, query: string) returns (tweets: seq<Post>)
    ensures tweets == TweetPosts(payload, query)
  {
    var users: seq<User> := [];
    if payload.users.Some? {
      users := payload.users.value;
    }
    var data := GetOr(payload.data, []);
    tweets := [];
    var i := 0;
    while i < |data|
      invariant 0 <= i <= |data|
      invariant |tweets| == i
      invariant forall k :: 0 <= k < i ==> tweets[k] == TweetPost(data[k], users, query)
    {
      tweets := tweets + [TweetPost(data[i], users, query)];
      i := i + 1;
    }
  }

  // ---------------------------------------------------------------------
  // The search
  // ---------------------------------------------------------------------

  /** The page size requested. */
  function MaxResults(limit: int): (r: int)
    ensures r <= MaxResultsCap && r <= limit
    ensures r == limit || r == MaxResultsCap
  {
    Min(limit, MaxResultsCap)
  }

  /** One search request: the query variant and the page size. */
  datatype Search = Search(query: string, maxResults: int)

  predicate ValidRuns(runs: seq<seq<Response>>)
  {
    |runs| == 3 && |runs[0]| == MaxRetries && |runs[1]| == MaxRetries && |runs[2]| == MaxRetries
  }

  /** The posts query variant `i` yields; `runs[i]` are the responses its
      request meets. A failed request yields none. */
  function VariantPosts(ticker: string, i: nat, runs: seq<seq<Response>>): seq<Post>
    requires ValidRuns(runs) && i < 3
  {
    var query := QueryVariants(ticker)[i];
    var outcome := Run(0, runs[i], Some(query), SearchUrl).outcome;
    if outcome.Body? && outcome.payload.data.Some? then TweetPosts(outcome.payload, query) else []
  }

  /** The first variant from `from` on that yields posts, 3 if none does. */
  function FirstYielding(ticker: string, from: nat, runs: seq<seq<Response>>): (k: nat)
    requires ValidRuns(runs) && from <= 3
    ensures from <= k <= 3
    ensures forall i :: from <= i < k ==> VariantPosts(ticker, i, runs) == []
    ensures k < 3 ==> VariantPosts(ticker, k, runs) != []
    decreases 3 - from
  {
    if from == 3 then 3
    else if VariantPosts(ticker, from, runs) != [] then from
    else FirstYielding(ticker, from + 1, runs)
  }

  /** One pass of the search loop: the request for variant `i`, and the
      posts of its response when it has a "data" entry. A request that
      raises yields nothing. */
  method TryVariant(ticker: string, i: nat, runs: seq<seq<Response>>) returns (posts: seq<Post>)
    requires ValidRuns(runs) && i < 3
    ensures posts == VariantPosts(ticker, i, runs)
  {
    var query := QueryVariants(ticker)[i];
    var outcome, _, _ := MakeRequest(SearchUrl, Some(query), runs[i]);
    posts := [];
    if outcome.Body? && outcome.payload.data.Some? {
      posts := ProcessTweetsResponse(outcome.payload, query);
    }
  }

  /** `get_posts_for_ticker(ticker, limit)`: nothing when unconfigured;
      otherwise the variants are tried in order, each asking for
      min(limit, 100) posts, and the search stops at the first that
      yields posts. */
  method GetPostsForTicker(configured: bool, ticker: string, limit: int, runs: seq<seq<Response>>)
    returns (tweets: seq<Post>, issued: seq<Search>)
    requires ValidRuns(runs)
    ensures !configured ==> tweets == [] && issued == []
    ensures configured ==>
      var k := FirstYielding(ticker, 0, runs);
      && tweets == (if k < 3 then VariantPosts(ticker, k, runs) else [])
      && |issued| == (if k < 3 then k + 1 else 3)
      && forall i :: 0 <= i < |issued| ==> issued[i] == Search(QueryVariants(ticker)[i], MaxResults(limit))
  {
    tweets := [];
    issued := [];
    if !configured {
      return;
    }
    var variants := QueryVariants(ticker);
    var i := 0;
    while i < 3
      invariant 0 <= i <= 3
      invariant tweets == []
      invariant |issued| == i
      invariant forall j :: 0 <= j < i ==> issued[j] == Search(variants[j], MaxResults(limit))
      invariant FirstYielding(ticker, 0, runs) == FirstYielding(ticker, i, runs)
    {
      issued := issued + [Search(variants[i], MaxResults(limit))];
      var processed := TryVariant(ticker, i, runs);
      tweets := tweets + processed;
      if |tweets| > 0 {
        return;
      }
      i := i + 1;
    }
  }
}
