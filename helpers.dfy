/** Small utilities (app/utils/helpers.py): timeframe parsing, text
    truncation, keyword filtering of posts and the weighted sentiment
    label. */
module Helpers {
  import opened Common
  import opened Posts
  import AiPredictionService
  import SentimentAnalyzer

  // ---------------------------------------------------------------------
  // Timeframes
  // ---------------------------------------------------------------------

  const EmptyIndexError := "string index out of range"

  /** `parse_timeframe(timeframe)`: the number before the last character,
      scaled by the unit the last character names (d days, w weeks of 7,
      m months of 30, anything else days); text that is not a number
      before the unit means one day. The empty string has no last
      character and raises. */
  function ParseTimeframe(timeframe: string): (r: Result<int>)
    ensures r.Err? <==> |timeframe| == 0
    ensures |timeframe| > 0 && ParseInt(timeframe[..|timeframe| - 1]).None? ==> r == Ok(1)
    ensures |timeframe| > 0 && ParseInt(timeframe[..|timeframe| - 1]).Some? ==>
      var n := ParseInt(timeframe[..|timeframe| - 1]).value;
      var unit := LowerChar(timeframe[|timeframe| - 1]);
      r == Ok(if unit == 'w' then 7 * n else if unit == 'm' then 30 * n else n)
  {
    if |timeframe| == 0 then Err(EmptyIndexError)
    else
      var unit := LowerChar(timeframe[|timeframe| - 1]);
      match ParseInt(timeframe[..|timeframe| - 1])
      case None => Ok(1)
      case Some(value) =>
        if unit == 'd' then Ok(value)
        else if unit == 'w' then Ok(value * 7)
        else if unit == 'm' then Ok(value * 30)
        else Ok(value)
  }

  /** A count of days, weeks or months written out parses back to the
      number of days it stands for, whatever the case of the unit. */
  lemma ParseTimeframeOfCount(n: nat, unit: char)
    requires unit in "dDwWmM"
    ensures ParseTimeframe(NatToString(n) + [unit]) ==
      Ok(if unit in "wW" then 7 * n else if unit in "mM" then 30 * n else n)
  {
    var t := NatToString(n) + [unit];
    assert t[..|t| - 1] == NatToString(n);
    ParseIntOfNatToString(n);
  }

  /** The three timeframes the prediction service offers parse to the same
      number of days the service projects over. */
  lemma TimeframesAgreeWithPredictionDays(timeframe: string)
    requires timeframe in ["1d", "1w", "1m"]
    ensures ParseTimeframe(timeframe) == Ok(AiPredictionService.PredictionDays(timeframe))
  {
    ParseIntOfNatToString(1);
    assert NatToString(1) == "1";
    assert timeframe[..1] == "1";
  }

  // ---------------------------------------------------------------------
  // Truncation
  // ---------------------------------------------------------------------

  const Ellipsis := "..."

  /** `truncate_text(text, max_length)`. */
  function TruncateText(text: string, maxLength: int): (r: string)
    ensures |text| <= maxLength ==> r == text
    ensures |text| > maxLength >= 3 ==>
      |r| == maxLength && r == text[..maxLength - 3] + Ellipsis
    ensures |text| > maxLength ==> r == SliceTo(text, maxLength - 3) + Ellipsis
  {
    if |text| <= maxLength then text
    else SliceTo(text, maxLength - 3) + Ellipsis
  }

  /** For a bound of at least 3 the result fits the bound, and truncating
      again changes nothing. */
  lemma TruncateFitsAndSettles(text: string, maxLength: int)
    requires maxLength >= 3
    ensures |TruncateText(text, maxLength)| <= maxLength
    ensures TruncateText(TruncateText(text, maxLength), maxLength) == TruncateText(text, maxLength)
  {
  }

  // ---------------------------------------------------------------------
  // Keyword filtering
  // ---------------------------------------------------------------------

  /** Some keyword, lower-cased, occurs in the lower-cased text. */
  predicate MentionsAny(p: Post, keywords: seq<string>)
  {
    exists k :: k in keywords && Contains(Lower(p.text), Lower(k))
  }

  /** The posts that mention a keyword, in their original order. */
  function Mentioning(posts: seq<Post>, keywords: seq<string>): (r: seq<Post>)
    ensures |r| <= |posts|
  {
    if |posts| == 0 then []
    else
      (if MentionsAny(posts[0], keywords) then [posts[0]] else []) + Mentioning(posts[1..], keywords)
  }

  /** A post is kept exactly when it is one of the posts and mentions a
      keyword. */
  lemma {:induction false} MentioningKeepsMentions(posts: seq<Post>, keywords: seq<string>, p: Post)
    ensures p in Mentioning(posts, keywords) <==> p in posts && MentionsAny(p, keywords)
  {
    if |posts| > 0 {
      MentioningKeepsMentions(posts[1..], keywords, p);
      assert posts == [posts[0]] + posts[1..];
    }
  }

  /** Filtering twice is filtering once. */
  lemma {:induction false} MentioningIdempotent(posts: seq<Post>, keywords: seq<string>)
    ensures Mentioning(Mentioning(posts, keywords), keywords) == Mentioning(posts, keywords)
  {
    if |posts| > 0 {
      MentioningIdempotent(posts[1..], keywords);
      var rest := Mentioning(posts[1..], keywords);
      if MentionsAny(posts[0], keywords) {
        var r := [posts[0]] + rest;
        assert r[0] == posts[0] && r[1..] == rest;
      } else {
        assert Mentioning(posts, keywords) == rest;
      }
    }
  }

  /** `s` can be obtained from `t` by deleting elements. */
  predicate IsSubsequence<T(==)>(s: seq<T>, t: seq<T>)
  {
    || |s| == 0
    || (&& |t| > 0
        && ((s[0] == t[0] && IsSubsequence(s[1..], t[1..])) || IsSubsequence(s, t[1..])))
  }

  /** The filter never reorders: what it keeps is a subsequence of the
      input. */
  lemma {:induction false} MentioningIsSubsequence(posts: seq<Post>, keywords: seq<string>)
    ensures IsSubsequence(Mentioning(posts, keywords), posts)
  {
    if |posts| > 0 {
      MentioningIsSubsequence(posts[1..], keywords);
      var rest := Mentioning(posts[1..], keywords);
      if MentionsAny(posts[0], keywords) {
        var r := [posts[0]] + rest;
        assert r[0] == posts[0] && r[1..] == rest;
      } else {
        assert Mentioning(posts, keywords) == rest;
      }
    }
  }

  /** One step of the filter: the first post, if it mentions a keyword,
      then the filtered rest. */
  lemma MentioningStep(posts: seq<Post>, i: int, keywords: seq<string>)
    requires 0 <= i < |posts|
    ensures Mentioning(posts[i..], keywords) ==
      (if MentionsAny(posts[i], keywords) then [posts[i]] else []) + Mentioning(posts[i + 1..], keywords)
  {
    assert posts[i..][0] == posts[i] && posts[i..][1..] == posts[i + 1..];
  }

  /** `filter_posts_by_keywords(posts, keywords)`. */
  method FilterPostsByKeywords(posts: seq<Post>, keywords: seq<string>) returns (filtered: seq<Post>)
    ensures |keywords| == 0 ==> filtered == posts
    ensures |keywords| > 0 ==> filtered == Mentioning(posts, keywords)
  {
    if |keywords| == 0 {
      return posts;
    }
    filtered := [];
    var i := 0;
    while i < |posts|
      invariant 0 <= i <= |posts|
      invariant filtered + Mentioning(posts[i..], keywords) == Mentioning(posts, keywords)
    {
      var keep := MentionsAny(posts[i], keywords);
      ghost var tail := Mentioning(posts[i + 1..], keywords);
      MentioningStep(posts, i, keywords);
      if keep {
        assert filtered + ([posts[i]] + tail) == (filtered + [posts[i]]) + tail;
        filtered := filtered + [posts[i]];
      } else {
        assert filtered + ([] + tail) == filtered + tail;
      }
      i := i + 1;
    }
    assert posts[i..] == [];
  }

  // ---------------------------------------------------------------------
  // Weighted sentiment
  // ---------------------------------------------------------------------

  /** One entry of the input: its "score" and "weight", when present. */
  datatype Scored = Scored(score: Option<real>, weight: Option<real>)

  datatype WeightedSentiment = WeightedSentiment(score: real, category: string)

  function WeightOf(s: Scored): real { GetOr(s.weight, 1.0) }

  function ScoreOf(s: Scored): real { GetOr(s.score, 0.0) }

  function TotalWeight(items: seq<Scored>): real
  {
    if |items| == 0 then 0.0 else TotalWeight(items[..|items| - 1]) + WeightOf(items[|items| - 1])
  }

  function WeightedTotal(items: seq<Scored>): real
  {
    if |items| == 0 then 0.0
    else WeightedTotal(items[..|items| - 1]) + Prod(ScoreOf(items[|items| - 1]), WeightOf(items[|items| - 1]))
  }

  /** The label of a weighted score. */
  function SentimentLabel(score: real): (r: string)
    ensures r in SentimentAnalyzer.ValidSentiments
    ensures r == "very positive" <==> score >= 0.6
    ensures r == "positive" <==> 0.2 <= score < 0.6
    ensures r == "neutral" <==> -0.2 < score < 0.2
    ensures r == "negative" <==> -0.6 < score <= -0.2
    ensures r == "very negative" <==> score <= -0.6
  {
    if score >= 0.6 then "very positive"
    else if score >= 0.2 then "positive"
    else if score > -0.2 then "neutral"
    else if score > -0.6 then "negative"
    else "very negative"
  }

  function LabelRank(category: string): int
  {
    if category == "very negative" then 0
    else if category == "negative" then 1
    else if category == "neutral" then 2
    else if category == "positive" then 3
    else 4
  }

  /** A higher score never gets a lower label. */
  lemma LabelMonotone(a: real, b: real)
    requires a <= b
    ensures LabelRank(SentimentLabel(a)) <= LabelRank(SentimentLabel(b))
  {
  }

  const DivisionByZero := "division by zero"

  /** `calculate_weighted_sentiment(sentiments)`: the weighted mean of the
      scores (score 0 and weight 1 when absent) with its label; an empty
      list is neutral, and weights that cancel out raise. */
  function CalculateWeightedSentiment(items: seq<Scored>): (r: Result<WeightedSentiment>)
    ensures |items| == 0 ==> r == Ok(WeightedSentiment(0.0, "neutral"))
    ensures |items| > 0 ==> (r.Err? <==> TotalWeight(items) == 0.0)
    ensures r.Ok? ==> r.value.category == SentimentLabel(r.value.score)
    ensures r.Ok? && |items| > 0 ==> Prod(r.value.score, TotalWeight(items)) == WeightedTotal(items)
  {
    if |items| == 0 then Ok(WeightedSentiment(0.0, "neutral"))
    else
      var total := TotalWeight(items);
      if total == 0.0 then Err(DivisionByZero)
      else
        var score := WeightedTotal(items) / total;
        QuotientTimesDivisor(WeightedTotal(items), total);
        Ok(WeightedSentiment(score, SentimentLabel(score)))
  }

  predicate ScoresWithin(items: seq<Scored>, lo: real, hi: real)
  {
    forall i :: 0 <= i < |items| ==> lo <= ScoreOf(items[i]) <= hi
  }

  predicate WeightsNonNegative(items: seq<Scored>)
  {
    forall i :: 0 <= i < |items| ==> WeightOf(items[i]) >= 0.0
  }

  /** `lo·w <= s·w <= hi·w` for a non-negative `w`. */
  lemma ScaledBetween(lo: real, s: real, hi: real, w: real)
    requires lo <= s <= hi && w >= 0.0
    ensures Prod(lo, w) <= Prod(s, w) <= Prod(hi, w)
  {
    ProductNonNegative(s - lo, w);
    ProductNonNegative(hi - s, w);
    ProdCommutes(s - lo, w);
    ProdCommutes(hi - s, w);
    ProdSub(w, s, lo);
    ProdSub(w, hi, s);
    ProdCommutes(w, s);
    ProdCommutes(w, lo);
    ProdCommutes(w, hi);
  }

  lemma {:induction false} WeightedTotalBetween(items: seq<Scored>, lo: real, hi: real)
    requires ScoresWithin(items, lo, hi) && WeightsNonNegative(items)
    ensures Prod(lo, TotalWeight(items)) <= WeightedTotal(items) <= Prod(hi, TotalWeight(items))
    ensures TotalWeight(items) >= 0.0
  {
    if |items| == 0 {
      ProdZero(lo);
      ProdZero(hi);
    } else {
      var last := items[|items| - 1];
      var init := items[..|items| - 1];
      assert ScoresWithin(init, lo, hi) && WeightsNonNegative(init) by {
        forall i | 0 <= i < |init| ensures init[i] == items[i] { }
      }
      WeightedTotalBetween(init, lo, hi);
      ScaledBetween(lo, ScoreOf(last), hi, WeightOf(last));
      ProdAdd(lo, TotalWeight(init), WeightOf(last));
      ProdAdd(hi, TotalWeight(init), WeightOf(last));
    }
  }

  /** With non-negative weights the weighted score is a mean: it lies
      between the smallest and the largest score. */
  lemma WeightedScoreIsMean(items: seq<Scored>, lo: real, hi: real)
    requires |items| > 0 && ScoresWithin(items, lo, hi) && WeightsNonNegative(items)
    requires TotalWeight(items) != 0.0
    ensures CalculateWeightedSentiment(items).Ok?
    ensures lo <= CalculateWeightedSentiment(items).value.score <= hi
  {
    WeightedTotalBetween(items, lo, hi);
    var w := TotalWeight(items);
    var score := CalculateWeightedSentiment(items).value.score;
    if score < lo {
      ScaledBelow(score, lo, w);
    }
    if score > hi {
      ScaledBelow(hi, score, w);
    }
  }

  lemma ScaledBelow(a: real, b: real, w: real)
    requires a < b && w > 0.0
    ensures Prod(a, w) < Prod(b, w)
  {
    SameSignProduct(b - a, w);
    ProdAddLeft(a, b - a, w);
  }
}
