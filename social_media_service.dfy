/** The social-media collection service with its per-platform breakers and
    the shared 180-second Twitter deadline
    (app/social_media/social_media_service.py). The two platform clients are
    abstracted: each call a method makes is recorded in the returned call
    log, and what the call gave back (posts, or the text of the exception
    it raised) is an input. The clock is the parameter `now`, in seconds. */
module SocialMediaService {
  import opened Common
  import opened Posts

  // ---------------------------------------------------------------------
  // Breaker rules
  // ---------------------------------------------------------------------

  /** Seconds after the global start time at which Twitter is given up. */
  const TwitterDeadline: real := 180.0

  /** `self.global_start_time and time.time() - self.global_start_time > 180`:
      an unset or zero start time is falsy and never expires. */
  predicate DeadlinePassed(start: Option<real>, now: real)
  {
    start.Some? && start.value != 0.0 && now - start.value > TwitterDeadline
  }

  /** The Twitter breaker trips on "rate limit" in any case, or on "429". */
  predicate TwitterTrips(message: string)
  {
    Contains(Lower(message), "rate limit") || Contains(message, "429")
  }

  /** The Reddit breaker trips on "403" only. */
  predicate RedditTrips(message: string)
  {
    Contains(message, "403")
  }

  /** `InfluencersConfig.get_general_subreddits()`. */
  const GeneralSubreddits: seq<string> := ["wallstreetbets", "stocks", "investing", "StockMarket", "SecurityAnalysis"]

  /** The `high_quality_subreddits` list of `InfluencersConfig.get_reddit_sources()`. */
  const HighQualitySubreddits: seq<string> :=
    ["SecurityAnalysis", "ValueInvesting", "financialindependence", "investing", "StockMarket"]

  /** `InfluencersConfig.get_default_twitter_influencers()`. */
  const DefaultInfluencers: seq<string> :=
    ["jeromepowell", "realDonaldTrump", "elonmusk", "JHuangNVIDIA", "tim_cook",
     "sundarpichai", "zuck", "WarrenBuffett", "jimcramer"]

  /** A call the service makes to a platform client. */
  datatype Call =
    | TwitterSearch(ticker: string, limit: int)
    | TwitterInfluencers(ticker: string, accounts: seq<string>)
    | RedditSearch(ticker: string, limit: int, daysBack: int, subreddits: seq<string>)
    | RedditHighQuality(ticker: string, subreddits: seq<string>)

  predicate IsTwitterCall(c: Call) { c.TwitterSearch? || c.TwitterInfluencers? }

  /** The posts a client call contributes: its posts when it was made and
      returned, nothing otherwise. */
  function Gathered(called: bool, outcome: Result<seq<Post>>): seq<Post>
  {
    if called && outcome.Ok? then outcome.value else []
  }

  /** `ticker.upper().strip()`. */
  function NormalTicker(ticker: string): string
  {
    Strip(Upper(ticker))
  }

  // ---------------------------------------------------------------------
  // Ranking
  // ---------------------------------------------------------------------

  /** `_calculate_engagement_score`: a weighted sum of the platform's
      metrics, missing ones counting 0 (Reddit's upvote ratio 0.5). */
  function EngagementScore(p: Post): real
  {
    var m := p.metrics;
    if p.platform == "twitter" then
      Metric(m, "like_count", 0.0) * 1.0 + Metric(m, "retweet_count", 0.0) * 2.0 +
      Metric(m, "reply_count", 0.0) * 1.5 + Metric(m, "quote_count", 0.0) * 1.8
    else if p.platform == "reddit" then
      Metric(m, "score", 0.0) * 1.0 + Metric(m, "comments", 0.0) * 2.0 + Metric(m, "upvote_ratio", 0.5) * 10.0
    else 0.0
  }

  const TwitterMetrics: seq<string> := ["like_count", "retweet_count", "reply_count", "quote_count"]
  const RedditMetrics: seq<string> := ["score", "comments", "upvote_ratio"]

  /** The score only depends on the platform's own metrics, grows with
      each of them, and is zero on any other platform. */
  lemma EngagementMonotone(p: Post, q: Post)
    requires p.platform == q.platform
    requires forall k :: k in TwitterMetrics + RedditMetrics ==> Metric(p.metrics, k, 0.0) <= Metric(q.metrics, k, 0.0)
    requires Metric(p.metrics, "upvote_ratio", 0.5) <= Metric(q.metrics, "upvote_ratio", 0.5)
    ensures EngagementScore(p) <= EngagementScore(q)
    ensures p.platform != "twitter" && p.platform != "reddit" ==> EngagementScore(p) == 0.0
  {
    if p.platform == "twitter" {
      assert TwitterMetrics[0] in TwitterMetrics + RedditMetrics;
      assert TwitterMetrics[1] in TwitterMetrics + RedditMetrics;
      assert TwitterMetrics[2] in TwitterMetrics + RedditMetrics;
      assert TwitterMetrics[3] in TwitterMetrics + RedditMetrics;
    } else if p.platform == "reddit" {
      assert RedditMetrics[0] in TwitterMetrics + RedditMetrics;
      assert RedditMetrics[1] in TwitterMetrics + RedditMetrics;
    }
  }

  /** `a` may come before `b` in the reverse sort: its key
      `(date, engagement)` is at least `b`'s. */
  predicate RanksAtLeast(a: Post, b: Post)
  {
    a.date > b.date || (a.date == b.date && EngagementScore(a) >= EngagementScore(b))
  }

  lemma RanksTotal(a: Post, b: Post)
    ensures RanksAtLeast(a, b) || RanksAtLeast(b, a)
  {
  }

  lemma RanksTransitive(a: Post, b: Post, c: Post)
    requires RanksAtLeast(a, b) && RanksAtLeast(b, c)
    ensures RanksAtLeast(a, c)
  {
  }

  predicate SortedByRank(s: seq<Post>)
  {
    forall i, j :: 0 <= i < j < |s| ==> RanksAtLeast(s[i], s[j])
  }

  /** A post that ranks at least as high as the head of a sorted list
      ranks at least as high as all of it. */
  lemma AheadOfSorted(p: Post, s: seq<Post>)
    requires SortedByRank(s) && |s| > 0 && RanksAtLeast(p, s[0])
    ensures SortedByRank([p] + s)
  {
    var r := [p] + s;
    forall i, j | 0 <= i < j < |r| ensures RanksAtLeast(r[i], r[j]) {
      if i == 0 {
        if j > 1 { RanksTransitive(p, s[0], s[j - 1]); }
      } else {
        assert r[i] == s[i - 1] && r[j] == s[j - 1];
      }
    }
  }

  /** Keeping the head of a sorted list in front of a sorted insertion
      into its tail keeps the list sorted. */
  lemma HeadStaysAhead(p: Post, s: seq<Post>, rest: seq<Post>)
    requires SortedByRank(s) && |s| > 0 && RanksAtLeast(s[0], p)
    requires SortedByRank(rest) && multiset(rest) == multiset(s[1..]) + multiset{p}
    ensures SortedByRank([s[0]] + rest)
  {
    var r := [s[0]] + rest;
    forall i, j | 0 <= i < j < |r| ensures RanksAtLeast(r[i], r[j]) {
      if i == 0 {
        var x := rest[j - 1];
        assert x in multiset(rest);
        if x != p {
          assert x in multiset(s[1..]);
          var k :| 0 <= k < |s[1..]| && s[1..][k] == x;
          assert s[k + 1] == x;
        }
      } else {
        assert r[i] == rest[i - 1] && r[j] == rest[j - 1];
      }
    }
  }

  /** Places `p` before the first post it ranks at least as high as, so
      that it stays ahead of later posts with an equal key. */
  function InsertByRank(p: Post, s: seq<Post>): (r: seq<Post>)
    requires SortedByRank(s)
    ensures SortedByRank(r)
    ensures multiset(r) == multiset(s) + multiset{p}
  {
    if |s| == 0 then [p]
    else if RanksAtLeast(p, s[0]) then
      AheadOfSorted(p, s);
      [p] + s
    else
      var rest := InsertByRank(p, s[1..]);
      RanksTotal(p, s[0]);
      assert s == [s[0]] + s[1..];
      HeadStaysAhead(p, s, rest);
      [s[0]] + rest
  }

  /** `posts.sort(key=lambda x: (date, engagement), reverse=True)`: a
      stable sort, highest key first. */
  function SortPosts(s: seq<Post>): (r: seq<Post>)
    ensures SortedByRank(r)
    ensures multiset(r) == multiset(s)
  {
    if |s| == 0 then []
    else
      assert s == [s[0]] + s[1..];
      InsertByRank(s[0], SortPosts(s[1..]))
  }

  /** What `get_posts_for_ticker` returns from what it gathered: the
      highest-ranked posts first, at most `limit` of them for a
      non-negative limit. */
  lemma RankedSelection(s: seq<Post>, limit: int)
    ensures var r := SliceTo(SortPosts(s), limit);
      && SortedByRank(r)
      && multiset(r) <= multiset(s)
      && (limit >= 0 ==> |r| == Min(limit, |s|))
      && (forall i, x :: 0 <= i < |r| && x in s && x !in r ==> RanksAtLeast(r[i], x))
  {
    var sorted := SortPosts(s);
    var r := SliceTo(sorted, limit);
    PrefixOfRanked(sorted, |r|);
    forall i, x | 0 <= i < |r| && x in s && x !in r
      ensures RanksAtLeast(r[i], x)
    {
      assert x in multiset(sorted);
      PrefixOutranksRest(sorted, |r|, x);
    }
  }

  /** A prefix of a ranked list is ranked and draws on the list's posts. */
  lemma PrefixOfRanked(sorted: seq<Post>, k: nat)
    requires SortedByRank(sorted) && k <= |sorted|
    ensures SortedByRank(sorted[..k])
    ensures multiset(sorted[..k]) <= multiset(sorted)
    ensures |multiset(sorted)| == |sorted|
  {
    assert sorted == sorted[..k] + sorted[k..];
    assert multiset(sorted) == multiset(sorted[..k]) + multiset(sorted[k..]);
  }

  /** In a ranked list, every post of a prefix ranks at or above any post
      outside that prefix. */
  lemma PrefixOutranksRest(sorted: seq<Post>, k: nat, x: Post)
    requires SortedByRank(sorted) && k <= |sorted| && x in sorted && x !in sorted[..k]
    ensures forall i :: 0 <= i < k ==> RanksAtLeast(sorted[i], x)
  {
    var j :| 0 <= j < |sorted| && sorted[j] == x;
    assert j >= k;
  }

  // ---------------------------------------------------------------------
  // The service
  // ---------------------------------------------------------------------

  /** `get_platform_status()`. */
  datatype PlatformStatus = PlatformStatus(
    twitterConfigured: bool,
    twitterOperational: bool,
    twitterRateLimited: bool,
    globalTimeoutRemaining: real,
    redditConfigured: bool,
    redditOperational: bool,
    redditBlocked: bool)

  class SocialMediaService {
    /** Whether each client found its credentials when it was built. */
    const twitterConfigured: bool
    const redditConfigured: bool

    var twitterRateLimited: bool
    var redditBlocked: bool
    var globalStartTime: Option<real>

    constructor (twitterConfigured: bool, redditConfigured: bool)
      ensures this.twitterConfigured == twitterConfigured && this.redditConfigured == redditConfigured
      ensures !twitterRateLimited && !redditBlocked && globalStartTime.None?
    {
      this.twitterConfigured := twitterConfigured;
      this.redditConfigured := redditConfigured;
      twitterRateLimited := false;
      redditBlocked := false;
      globalStartTime := None;
    }

    /** Twitter may be asked: not rate limited and within the deadline. */
    predicate TwitterOpen(now: real)
      reads this
    {
      !twitterRateLimited && !DeadlinePassed(globalStartTime, now)
    }

    /** `set_global_start_time(start_time)`. */
    method SetGlobalStartTime(start: real)
      modifies this
      ensures globalStartTime == Some(start)
      ensures twitterRateLimited == old(twitterRateLimited) && redditBlocked == old(redditBlocked)
    {
      globalStartTime := Some(start);
    }

    /** One guarded Twitter call, as each entry point makes it: skipped
        while rate limited; past the deadline the breaker is set and no
        call is made; a failure sets the breaker only when its text says
        rate limit. */
    method AskTwitter(call: Call, now: real, outcome: Result<seq<Post>>) returns (found: seq<Post>, calls: seq<Call>)
      modifies this
      ensures globalStartTime == old(globalStartTime) && redditBlocked == old(redditBlocked)
      ensures twitterRateLimited ==
        (old(twitterRateLimited) || DeadlinePassed(globalStartTime, now) || (outcome.Err? && TwitterTrips(outcome.error)))
      ensures calls == if old(TwitterOpen(now)) then [call] else []
      ensures found == Gathered(old(TwitterOpen(now)), outcome)
    {
      found := [];
      calls := [];
      if twitterRateLimited {
        return;
      }
      if DeadlinePassed(globalStartTime, now) {
        twitterRateLimited := true;
        return;
      }
      calls := [call];
      match outcome {
        case Ok(posts) => found := posts;
        case Err(message) =>
          if TwitterTrips(message) {
            twitterRateLimited := true;
          }
      }
    }

    /** One guarded Reddit call: skipped while blocked; a failure blocks
        Reddit only when its text carries "403". */
    method AskReddit(call: Call, outcome: Result<seq<Post>>) returns (found: seq<Post>, calls: seq<Call>)
      modifies this
      ensures globalStartTime == old(globalStartTime) && twitterRateLimited == old(twitterRateLimited)
      ensures redditBlocked == (old(redditBlocked) || (outcome.Err? && RedditTrips(outcome.error)))
      ensures calls == if old(redditBlocked) then [] else [call]
      ensures found == Gathered(!old(redditBlocked), outcome)
    {
      found := [];
      calls := [];
      if redditBlocked {
        return;
      }
      calls := [call];
      match outcome {
        case Ok(posts) => found := posts;
        case Err(message) =>
          if RedditTrips(message) {
            redditBlocked := true;
          }
      }
    }

    /** `get_posts_for_ticker(ticker, limit, days_back, include_reddit)`:
        each platform is asked for `limit // 2` posts through its guarded
        call (Reddit only when included); the gathered posts are ranked and
        cut to `limit`. */
    method GetPostsForTicker(ticker: string, limit: int, daysBack: int, includeReddit: bool, now: real,
                             twitter: Result<seq<Post>>, reddit: Result<seq<Post>>)
      returns (posts: seq<Post>, calls: seq<Call>)
      modifies this
      ensures globalStartTime == old(globalStartTime)
      ensures twitterRateLimited ==
        (old(twitterRateLimited) || DeadlinePassed(globalStartTime, now) || (twitter.Err? && TwitterTrips(twitter.error)))
      ensures redditBlocked == (old(redditBlocked) || (includeReddit && reddit.Err? && RedditTrips(reddit.error)))
      ensures var askTwitter := old(TwitterOpen(now));
        var askReddit := includeReddit && !old(redditBlocked);
        && calls == (if askTwitter then [TwitterSearch(NormalTicker(ticker), limit / 2)] else []) +
                    (if askReddit then [RedditSearch(NormalTicker(ticker), limit / 2, daysBack, GeneralSubreddits)] else [])
        && posts == SliceTo(SortPosts(Gathered(askTwitter, twitter) + Gathered(askReddit, reddit)), limit)
    {
      var t := NormalTicker(ticker);
      var twitterPosts, twitterCalls := AskTwitter(TwitterSearch(t, limit / 2), now, twitter);
      var redditPosts: seq<Post> := [];
      var redditCalls: seq<Call> := [];
      if includeReddit {
        redditPosts, redditCalls := AskReddit(RedditSearch(t, limit / 2, daysBack, GeneralSubreddits), reddit);
      }
      calls := twitterCalls + redditCalls;
      posts := SliceTo(SortPosts(twitterPosts + redditPosts), limit);
    }

    /** `get_twitter_posts_only(ticker, limit)`: the guarded Twitter call
        alone, asking for `limit` posts. */
    method GetTwitterPostsOnly(ticker: string, limit: int, now: real, twitter: Result<seq<Post>>)
      returns (posts: seq<Post>, calls: seq<Call>)
      modifies this
      ensures globalStartTime == old(globalStartTime) && redditBlocked == old(redditBlocked)
      ensures twitterRateLimited ==
        (old(twitterRateLimited) || DeadlinePassed(globalStartTime, now) || (twitter.Err? && TwitterTrips(twitter.error)))
      ensures calls == if old(TwitterOpen(now)) then [TwitterSearch(NormalTicker(ticker), limit)] else []
      ensures posts == Gathered(old(TwitterOpen(now)), twitter)
    {
      posts, calls := AskTwitter(TwitterSearch(NormalTicker(ticker), limit), now, twitter);
    }

    /** `get_reddit_posts_only(ticker, limit, days_back)`: Reddit has no
        deadline. */
    method GetRedditPostsOnly(ticker: string, limit: int, daysBack: int, reddit: Result<seq<Post>>)
      returns (posts: seq<Post>, calls: seq<Call>)
      modifies this
      ensures globalStartTime == old(globalStartTime) && twitterRateLimited == old(twitterRateLimited)
      ensures redditBlocked == (old(redditBlocked) || (reddit.Err? && RedditTrips(reddit.error)))
      ensures calls == if old(redditBlocked) then [] else [RedditSearch(NormalTicker(ticker), limit, daysBack, GeneralSubreddits)]
      ensures posts == Gathered(!old(redditBlocked), reddit)
    {
      posts, calls := AskReddit(RedditSearch(NormalTicker(ticker), limit, daysBack, GeneralSubreddits), reddit);
    }

    /** `get_influencer_posts(ticker, influencers)`: an empty or absent
        account list means the default influencers; Twitter is asked only
        when its client is configured, Reddit's high-quality subreddits
        only when its client is. The posts are returned unranked. */
    method GetInfluencerPosts(ticker: string, influencers: seq<string>, now: real,
                              twitter: Result<seq<Post>>, reddit: Result<seq<Post>>)
      returns (posts: seq<Post>, calls: seq<Call>)
      modifies this
      ensures globalStartTime == old(globalStartTime)
      ensures twitterRateLimited ==
        (old(twitterRateLimited) ||
         (twitterConfigured && (DeadlinePassed(globalStartTime, now) || (twitter.Err? && TwitterTrips(twitter.error)))))
      ensures redditBlocked == (old(redditBlocked) || (redditConfigured && reddit.Err? && RedditTrips(reddit.error)))
      ensures var accounts := if |influencers| == 0 then DefaultInfluencers else influencers;
        var askTwitter := twitterConfigured && old(TwitterOpen(now));
        var askReddit := redditConfigured && !old(redditBlocked);
        && calls == (if askTwitter then [TwitterInfluencers(ticker, accounts)] else []) +
                    (if askReddit then [RedditHighQuality(ticker, HighQualitySubreddits)] else [])
        && posts == Gathered(askTwitter, twitter) + Gathered(askReddit, reddit)
    {
      var accounts := if |influencers| == 0 then DefaultInfluencers else influencers;
      var twitterPosts: seq<Post> := [];
      var twitterCalls: seq<Call> := [];
      if twitterConfigured {
        twitterPosts, twitterCalls := AskTwitter(TwitterInfluencers(ticker, accounts), now, twitter);
      }
      var redditPosts: seq<Post> := [];
      var redditCalls: seq<Call> := [];
      if redditConfigured {
        redditPosts, redditCalls := AskReddit(RedditHighQuality(ticker, HighQualitySubreddits), reddit);
      }
      calls := twitterCalls + redditCalls;
      posts := twitterPosts + redditPosts;
    }

    /** `is_twitter_available()`: a query that changes nothing. */
    function IsTwitterAvailable(now: real): (r: bool)
      reads this
      ensures r ==> !twitterRateLimited && !DeadlinePassed(globalStartTime, now) && twitterConfigured
      ensures !r ==> twitterRateLimited || DeadlinePassed(globalStartTime, now) || !twitterConfigured
    {
      TwitterOpen(now) && twitterConfigured
    }

    /** `is_reddit_available()`. */
    function IsRedditAvailable(): (r: bool)
      reads this
      ensures r <==> !redditBlocked && redditConfigured
    {
      !redditBlocked && redditConfigured
    }

    /** `get_platform_status()`: the remaining Twitter budget is
        max(0, 180 - elapsed) once a start time is set, and 0 otherwise. */
    function GetPlatformStatus(now: real): (r: PlatformStatus)
      reads this
      ensures r.globalTimeoutRemaining >= 0.0
      ensures DeadlinePassed(globalStartTime, now) ==> r.globalTimeoutRemaining == 0.0
      ensures r.globalTimeoutRemaining > 0.0 ==> !DeadlinePassed(globalStartTime, now)
      ensures globalStartTime.Some? && globalStartTime.value != 0.0 && !DeadlinePassed(globalStartTime, now) ==>
        r.globalTimeoutRemaining == TwitterDeadline - (now - globalStartTime.value)
      ensures r.twitterOperational == IsTwitterAvailable(now) && r.redditOperational == IsRedditAvailable()
      ensures r.twitterRateLimited == twitterRateLimited && r.redditBlocked == redditBlocked
    {
      var remaining :=
        if globalStartTime.Some? && globalStartTime.value != 0.0
        then MaxReal(0.0, TwitterDeadline - (now - globalStartTime.value))
        else 0.0;
      PlatformStatus(twitterConfigured, IsTwitterAvailable(now), twitterRateLimited, remaining,
                     redditConfigured, IsRedditAvailable(), redditBlocked)
    }

    /** `reset_platform_status()`: the only way to clear a breaker. */
    method ResetPlatformStatus()
      modifies this
      ensures !twitterRateLimited && !redditBlocked && globalStartTime.None?
    {
      twitterRateLimited := false;
      redditBlocked := false;
      globalStartTime := None;
    }

    // -------------------------------------------------------------------
    // The call sites as written
    // -------------------------------------------------------------------

    /** `get_posts_for_ticker` as written: the Twitter call passes three
        arguments to a client method that takes two, so it raises a
        TypeError whatever the network would have answered. */
    method GetPostsForTickerAsWritten(ticker: string, limit: int, daysBack: int, includeReddit: bool, now: real,
                                      reddit: Result<seq<Post>>)
      returns (posts: seq<Post>, calls: seq<Call>)
      modifies this
      ensures globalStartTime == old(globalStartTime)
      ensures twitterRateLimited == (old(twitterRateLimited) || DeadlinePassed(globalStartTime, now))
      ensures redditBlocked == (old(redditBlocked) || (includeReddit && reddit.Err? && RedditTrips(reddit.error)))
      ensures posts == SliceTo(SortPosts(Gathered(includeReddit && !old(redditBlocked), reddit)), limit)
    {
      ArityErrorsNeverTrip();
      posts, calls := GetPostsForTicker(ticker, limit, daysBack, includeReddit, now, Err(SearchArityError), reddit);
      ghost var fromReddit := Gathered(includeReddit && !old(redditBlocked), reddit);
      assert Gathered(old(TwitterOpen(now)), Err(SearchArityError)) + fromReddit == fromReddit;
    }

    /** `get_twitter_posts_only` as written: the same three-argument call. */
    method GetTwitterPostsOnlyAsWritten(ticker: string, limit: int, now: real)
      returns (posts: seq<Post>, calls: seq<Call>)
      modifies this
      ensures globalStartTime == old(globalStartTime) && redditBlocked == old(redditBlocked)
      ensures twitterRateLimited == (old(twitterRateLimited) || DeadlinePassed(globalStartTime, now))
      ensures posts == []
    {
      ArityErrorsNeverTrip();
      posts, calls := GetTwitterPostsOnly(ticker, limit, now, Err(SearchArityError));
    }

    /** `get_influencer_posts` as written: the influencer call passes three
        arguments to a client method that takes two. */
    method GetInfluencerPostsAsWritten(ticker: string, influencers: seq<string>, now: real, reddit: Result<seq<Post>>)
      returns (posts: seq<Post>, calls: seq<Call>)
      modifies this
      ensures globalStartTime == old(globalStartTime)
      ensures twitterRateLimited == (old(twitterRateLimited) || (twitterConfigured && DeadlinePassed(globalStartTime, now)))
      ensures redditBlocked == (old(redditBlocked) || (redditConfigured && reddit.Err? && RedditTrips(reddit.error)))
      ensures posts == Gathered(redditConfigured && !old(redditBlocked), reddit)
    {
      ArityErrorsNeverTrip();
      posts, calls := GetInfluencerPosts(ticker, influencers, now, Err(InfluencerArityError), reddit);
      ghost var fromReddit := Gathered(redditConfigured && !old(redditBlocked), reddit);
      assert Gathered(twitterConfigured && old(TwitterOpen(now)), Err(InfluencerArityError)) + fromReddit == fromReddit;
    }
  }

  // ---------------------------------------------------------------------
  // The TypeError texts
  // ---------------------------------------------------------------------

  /** CPython's messages for the two calls with one argument too many,
      in pieces short enough to reason about one at a time. */
  const ClientPrefix := "TwitterClient."
  const SearchName := "get_posts_for_ticker() "
  const InfluencerName := "get_influencer_posts() "
  const Takes := "takes "
  const SearchCount := "from 2 to 3 "
  const InfluencerCount := "3 "
  const Positional := "positional "
  const Arguments := "arguments "
  const Given := "but 4 were given"
  const SearchArityError := ClientPrefix + SearchName + Takes + SearchCount + Positional + Arguments + Given
  const InfluencerArityError := ClientPrefix + InfluencerName + Takes + InfluencerCount + Positional + Arguments + Given

  predicate IsR(c: char) { c == 'r' || c == 'R' }
  predicate IsA(c: char) { c == 'a' || c == 'A' }

  /** No "r" followed by "a" in any case, and no "9": text that cannot
      hold "rate limit" (in any case) or "429". */
  predicate Clean(s: string)
  {
    && (forall i :: 0 <= i < |s| - 1 ==> !((s[i] == 'r' || s[i] == 'R') && (s[i + 1] == 'a' || s[i + 1] == 'A')))
    && (forall i :: 0 <= i < |s| ==> s[i] != '9')
  }

  lemma CleanConcat(s: string, t: string)
    requires Clean(s) && Clean(t) && |s| > 0 && |t| > 0 && !(IsR(s[|s| - 1]) && IsA(t[0]))
    ensures Clean(s + t)
  {
    var u := s + t;
    forall i | 0 <= i < |u| - 1
      ensures !(IsR(u[i]) && IsA(u[i + 1]))
    {
      if i < |s| - 1 {
        assert u[i] == s[i] && u[i + 1] == s[i + 1];
      } else if i >= |s| {
        assert u[i] == t[i - |s|] && u[i + 1] == t[i + 1 - |s|];
      }
    }
    forall i | 0 <= i < |u|
      ensures u[i] != '9'
    {
      if i < |s| {
        assert u[i] == s[i];
      } else {
        assert u[i] == t[i - |s|];
      }
    }
  }

  lemma ClientPrefixClean() ensures Clean(ClientPrefix) {}
  lemma SearchNameClean() ensures Clean(SearchName) {}
  lemma InfluencerNameClean() ensures Clean(InfluencerName) {}
  lemma TakesClean() ensures Clean(Takes) {}
  lemma SearchCountClean() ensures Clean(SearchCount) {}
  lemma InfluencerCountClean() ensures Clean(InfluencerCount) {}
  lemma PositionalClean() ensures Clean(Positional) {}
  lemma ArgumentsClean() ensures Clean(Arguments) {}
  lemma GivenClean() ensures Clean(Given) {}

  /** A clean text never trips the Twitter breaker. */
  lemma CleanTextNeverTrips(s: string)
    requires Clean(s)
    ensures !TwitterTrips(s)
  {
    var lowered := Lower(s);
    forall i | 0 <= i <= |lowered| - 10
      ensures !OccursAt(lowered, "rate limit", i)
    {
      var w := lowered[i..i + 10];
      assert w[0] == LowerChar(s[i]) && w[1] == LowerChar(s[i + 1]);
      assert !(IsR(s[i]) && IsA(s[i + 1]));
      assert w[0] != "rate limit"[0] || w[1] != "rate limit"[1];
    }
    forall i | 0 <= i <= |s| - 3
      ensures !OccursAt(s, "429", i)
    {
      assert s[i..i + 3][2] == s[i + 2];
    }
  }

  lemma SearchTextClean()
    ensures Clean(SearchArityError)
  {
    ClientPrefixClean();
    SearchNameClean();
    TakesClean();
    SearchCountClean();
    PositionalClean();
    ArgumentsClean();
    GivenClean();
    CleanConcat(ClientPrefix, SearchName);
    CleanConcat(ClientPrefix + SearchName, Takes);
    CleanConcat(ClientPrefix + SearchName + Takes, SearchCount);
    CleanConcat(ClientPrefix + SearchName + Takes + SearchCount, Positional);
    CleanConcat(ClientPrefix + SearchName + Takes + SearchCount + Positional, Arguments);
    CleanConcat(ClientPrefix + SearchName + Takes + SearchCount + Positional + Arguments, Given);
  }

  lemma InfluencerTextClean()
    ensures Clean(InfluencerArityError)
  {
    ClientPrefixClean();
    InfluencerNameClean();
    TakesClean();
    InfluencerCountClean();
    PositionalClean();
    ArgumentsClean();
    GivenClean();
    CleanConcat(ClientPrefix, InfluencerName);
    CleanConcat(ClientPrefix + InfluencerName, Takes);
    CleanConcat(ClientPrefix + InfluencerName + Takes, InfluencerCount);
    CleanConcat(ClientPrefix + InfluencerName + Takes + InfluencerCount, Positional);
    CleanConcat(ClientPrefix + InfluencerName + Takes + InfluencerCount + Positional, Arguments);
    CleanConcat(ClientPrefix + InfluencerName + Takes + InfluencerCount + Positional + Arguments, Given);
  }

  /** Neither TypeError text trips the Twitter breaker. */
  lemma ArityErrorsNeverTrip()
    ensures !TwitterTrips(SearchArityError) && !TwitterTrips(InfluencerArityError)
  {
    SearchTextClean();
    CleanTextNeverTrips(SearchArityError);
    InfluencerTextClean();
    CleanTextNeverTrips(InfluencerArityError);
  }

  /** A rate-limit response does trip the breaker once the call is made
      with the arguments the client takes. */
  lemma RateLimitTextsTrip()
    ensures TwitterTrips("429 Client Error: Too Many Requests")
    ensures TwitterTrips("Rate limit exceeded")
    ensures RedditTrips("received 403 HTTP response")
  {
    assert OccursAt("429 Client Error: Too Many Requests", "429", 0);
    assert Lower("Rate limit exceeded")[..10] == "rate limit";
    assert OccursAt(Lower("Rate limit exceeded"), "rate limit", 0);
    assert OccursAt("received 403 HTTP response", "403", 9);
  }
}
