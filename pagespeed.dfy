/**
 * The PageSpeed side of the scoring crawler: `get_pagespeed_data` with the
 * HTTP request left abstract, and `calculate_website_score`, which turns
 * a report into the sub-scores and the weighted composite stored in
 * `results`. Python's `round` is not modelled: every score is the exact
 * real value before rounding.
 */
module PageSpeed {
  import opened Wrappers

  /** The numeric members of one Lighthouse category or audit object. */
  type Members = map<string, real>

  /**
   * A truthy PageSpeed document. `categories` and `audits` are the objects
   * under `lighthouseResult` (an absent one reads as `{}`, exactly as the
   * chained `.get(…, {})` does), and `loadingExperience` is the top-level
   * object of that name when the document has it.
   */
  datatype Report = Report(
    categories: map<string, Members>,
    audits: map<string, Members>,
    loadingExperience: Option<map<string, string>>)

  /** The dictionary `calculate_website_score` returns, one field per key. */
  datatype Scores = Scores(
    total: real,
    performance: real, seo: real, accessibility: real, bestPractices: real,
    userExperience: real,
    fcp: real, lcp: real, cls: real, tbt: real)

  /** `objects.get(name, {}).get(member, 0)`. */
  function Lookup(objects: map<string, Members>, name: string, member: string): (v: real)
  {
    if name in objects && member in objects[name] then objects[name][member] else 0.0
  }

  /** The inner `get_score(category)`: the category's `score` fraction times 100. */
  function GetScore(r: Report, category: string): (score: real)
  {
    100.0 * Lookup(r.categories, category, "score")
  }

  /** `{"FAST": 100, "AVERAGE": 50, "SLOW": 20}.get(overall, 50)`. */
  function ExperienceScore(overall: string): (score: real)
  {
    if overall == "FAST" then 100.0
    else if overall == "AVERAGE" then 50.0
    else if overall == "SLOW" then 20.0
    else 50.0
  }

  /** The user-experience score; a missing `overall_category` reads as "N/A". */
  function UserExperienceScore(r: Report): (score: real)
  {
    match r.loadingExperience
    case None => 50.0
    case Some(le) => ExperienceScore(if "overall_category" in le then le["overall_category"] else "N/A")
  }

  /** The fixed weighting of the composite score. */
  function Composite(performance: real, seo: real, accessibility: real, bestPractices: real, userExperience: real): (total: real)
  {
    performance * 0.4 + seo * 0.2 + accessibility * 0.1 + bestPractices * 0.1 + userExperience * 0.2
  }

  /**
   * `calculate_website_score(data)`; `None` stands for every falsy `data`
   * (None and the empty document), which yields the unscored record.
   */
  function CalculateWebsiteScore(data: Option<Report>): (s: Scores)
    ensures data.None? ==>
      s.total == 0.0 && s.performance == 0.0 && s.seo == 0.0 && s.accessibility == 0.0
      && s.bestPractices == 0.0 && s.userExperience == 50.0
      && s.fcp == 0.0 && s.lcp == 0.0 && s.cls == 0.0 && s.tbt == 0.0
    ensures data.Some? ==>
      s.total == Composite(s.performance, s.seo, s.accessibility, s.bestPractices, s.userExperience)
  {
    match data
    case None => Scores(0.0, 0.0, 0.0, 0.0, 0.0, 50.0, 0.0, 0.0, 0.0, 0.0)
    case Some(r) =>
      var performance := GetScore(r, "performance");
      var seo := GetScore(r, "seo");
      var accessibility := GetScore(r, "accessibility");
      var bestPractices := GetScore(r, "best-practices");
      var userExperience := UserExperienceScore(r);
      Scores(
        Composite(performance, seo, accessibility, bestPractices, userExperience),
        performance, seo, accessibility, bestPractices, userExperience,
        Lookup(r.audits, "first-contentful-paint", "numericValue"),
        Lookup(r.audits, "largest-contentful-paint", "numericValue"),
        Lookup(r.audits, "cumulative-layout-shift", "numericValue"),
        Lookup(r.audits, "total-blocking-time", "numericValue"))
  }

  /**
   * Each category score of a report is its upstream fraction times 100, and
   * 0 when the category or its `score` is missing.
   */
  lemma CategoryScores(r: Report)
    ensures var s := CalculateWebsiteScore(Some(r));
      && (s.performance == if "performance" in r.categories && "score" in r.categories["performance"]
                           then 100.0 * r.categories["performance"]["score"] else 0.0)
      && (s.seo == if "seo" in r.categories && "score" in r.categories["seo"]
                   then 100.0 * r.categories["seo"]["score"] else 0.0)
      && (s.accessibility == if "accessibility" in r.categories && "score" in r.categories["accessibility"]
                             then 100.0 * r.categories["accessibility"]["score"] else 0.0)
      && (s.bestPractices == if "best-practices" in r.categories && "score" in r.categories["best-practices"]
                             then 100.0 * r.categories["best-practices"]["score"] else 0.0)
  {
  }

  /** The timing metrics are the audits' `numericValue`s, 0 when missing. */
  lemma Metrics(r: Report)
    ensures var s := CalculateWebsiteScore(Some(r));
      && (s.fcp == if "first-contentful-paint" in r.audits && "numericValue" in r.audits["first-contentful-paint"]
                   then r.audits["first-contentful-paint"]["numericValue"] else 0.0)
      && (s.lcp == if "largest-contentful-paint" in r.audits && "numericValue" in r.audits["largest-contentful-paint"]
                   then r.audits["largest-contentful-paint"]["numericValue"] else 0.0)
      && (s.cls == if "cumulative-layout-shift" in r.audits && "numericValue" in r.audits["cumulative-layout-shift"]
                   then r.audits["cumulative-layout-shift"]["numericValue"] else 0.0)
      && (s.tbt == if "total-blocking-time" in r.audits && "numericValue" in r.audits["total-blocking-time"]
                   then r.audits["total-blocking-time"]["numericValue"] else 0.0)
  {
  }

  /**
   * The user-experience score is one of 100, 50 and 20; it is 100 exactly
   * for a FAST label and 20 exactly for a SLOW one, and 50 otherwise,
   * including when `loadingExperience` or its label is missing.
   */
  lemma UserExperienceMapping(r: Report)
    ensures var u := CalculateWebsiteScore(Some(r)).userExperience;
      var overall := if r.loadingExperience.Some? && "overall_category" in r.loadingExperience.value
                   then Some(r.loadingExperience.value["overall_category"]) else None;
      && (u == 100.0 <==> overall == Some("FAST"))
      && (u == 20.0 <==> overall == Some("SLOW"))
      && (u == 50.0 <==> overall != Some("FAST") && overall != Some("SLOW"))
  {
  }

  /** A Lighthouse report whose every category fraction lies in [0, 1]. */
  ghost predicate FractionsInRange(r: Report)
  {
    forall c :: c in r.categories && "score" in r.categories[c] ==>
      0.0 <= r.categories[c]["score"] <= 1.0
  }

  /** The weights of the composite, in the order of `Composite`'s parameters. */
  const Weights: seq<real> := [0.4, 0.2, 0.1, 0.1, 0.2]

  /** The weighted sum of `x`, the reference definition of a composite score. */
  function Dot(w: seq<real>, x: seq<real>): (s: real)
    requires |w| == |x|
  {
    if w == [] then 0.0 else w[0] * x[0] + Dot(w[1..], x[1..])
  }

  /** `Composite` is the weighted sum of its arguments under `Weights`. */
  lemma CompositeIsWeighted(p: real, s: real, a: real, b: real, u: real)
    ensures Composite(p, s, a, b, u) == Dot(Weights, [p, s, a, b, u])
  {
    var w, x := Weights, [p, s, a, b, u];
    assert Dot(w[4..], x[4..]) == 0.2 * u by {
      assert w[4..][1..] == [] && x[4..][1..] == [];
    }
    assert Dot(w[3..], x[3..]) == 0.1 * b + 0.2 * u by {
      assert w[3..][1..] == w[4..] && x[3..][1..] == x[4..];
    }
    assert Dot(w[2..], x[2..]) == 0.1 * a + 0.1 * b + 0.2 * u by {
      assert w[2..][1..] == w[3..] && x[2..][1..] == x[3..];
    }
    assert Dot(w[1..], x[1..]) == 0.2 * s + 0.1 * a + 0.1 * b + 0.2 * u by {
      assert w[1..][1..] == w[2..] && x[1..][1..] == x[2..];
    }
  }

  lemma ScaleMonotone(w: real, x: real, y: real)
    requires 0.0 <= w && x <= y
    ensures w * x <= w * y
  {
  }

  /** With non-negative weights, raising any value never lowers the weighted sum. */
  lemma {:induction false} DotMonotone(w: seq<real>, x: seq<real>, y: seq<real>)
    requires |w| == |x| == |y|
    requires forall i :: 0 <= i < |w| ==> 0.0 <= w[i]
    requires forall i :: 0 <= i < |x| ==> x[i] <= y[i]
    ensures Dot(w, x) <= Dot(w, y)
  {
    if w != [] {
      DotMonotone(w[1..], x[1..], y[1..]);
      ScaleMonotone(w[0], x[0], y[0]);
    }
  }

  /** The weights sum to one: five equal sub-scores give that score as the composite. */
  lemma CompositeOfEqualScores(x: real)
    ensures Composite(x, x, x, x, x) == x
  {
  }

  /** Five sub-scores in [0, 100] give a composite in [0, 100]. */
  lemma CompositeInRange(p: real, s: real, a: real, b: real, u: real)
    requires 0.0 <= p <= 100.0 && 0.0 <= s <= 100.0 && 0.0 <= a <= 100.0
    requires 0.0 <= b <= 100.0 && 0.0 <= u <= 100.0
    ensures 0.0 <= Composite(p, s, a, b, u) <= 100.0
  {
    CompositeIsWeighted(p, s, a, b, u);
    CompositeIsWeighted(0.0, 0.0, 0.0, 0.0, 0.0);
    CompositeIsWeighted(100.0, 100.0, 100.0, 100.0, 100.0);
    CompositeOfEqualScores(0.0);
    CompositeOfEqualScores(100.0);
    DotMonotone(Weights, [0.0, 0.0, 0.0, 0.0, 0.0], [p, s, a, b, u]);
    DotMonotone(Weights, [p, s, a, b, u], [100.0, 100.0, 100.0, 100.0, 100.0]);
  }

  /** A report with fractions in [0, 1] yields sub-scores and a composite in [0, 100]. */
  lemma ScoresInRange(r: Report)
    requires FractionsInRange(r)
    ensures var s := CalculateWebsiteScore(Some(r));
      && 0.0 <= s.performance <= 100.0 && 0.0 <= s.seo <= 100.0
      && 0.0 <= s.accessibility <= 100.0 && 0.0 <= s.bestPractices <= 100.0
      && 0.0 <= s.userExperience <= 100.0 && 0.0 <= s.total <= 100.0
  {
    var s := CalculateWebsiteScore(Some(r));
    CompositeInRange(s.performance, s.seo, s.accessibility, s.bestPractices, s.userExperience);
  }

  /** The composite of the unscored inputs: no category data and an unknown experience. */
  lemma CompositeOfUnknownExperience()
    ensures Composite(0.0, 0.0, 0.0, 0.0, 50.0) == 10.0
  {
  }

  /** A worked value: sub-scores 80, 70, 90, 60 and 100 weigh in at exactly 81. */
  lemma CompositeExample()
    ensures Composite(80.0, 70.0, 90.0, 60.0, 100.0) == 81.0
  {
  }

  /**
   * The unscored record is not the composite of its own sub-scores: its
   * total is 0 where a report with no data at all scores 10.
   */
  lemma UnscoredIsNotComposite()
    ensures var s := CalculateWebsiteScore(None);
      s.total != Composite(s.performance, s.seo, s.accessibility, s.bestPractices, s.userExperience)
  {
    CompositeOfUnknownExperience();
  }

  /**
   * A truthy document with no category scores and no `loadingExperience`
   * scores 10, not the 0 of the unscored record.
   */
  lemma UnscoredReportScoresTen(r: Report)
    requires r.categories == map[] && r.loadingExperience.None?
    ensures CalculateWebsiteScore(Some(r)).total == 10.0
  {
    var s := CalculateWebsiteScore(Some(r));
    assert s.performance == 0.0 && s.seo == 0.0 && s.accessibility == 0.0 && s.bestPractices == 0.0;
    CompositeOfUnknownExperience();
  }

  /**
   * What `get_pagespeed_data` returns: the string "N/A" for an empty or
   * "N/A" URL, None when the request fails or the document is falsy, and
   * the report otherwise.
   */
  datatype PageSpeedData = NotApplicable | NoData | Data(report: Report)

  /**
   * `get_pagespeed_data(url, api_key)`. `speed` stands for the request to the
   * PageSpeed endpoint and its JSON decoding: None for a non-200 status or a
   * falsy document.
   */
  function GetPageSpeedData(url: string, speed: string -> Option<Report>): (d: PageSpeedData)
    ensures d.NotApplicable? <==> url == "" || url == "N/A"
    ensures d.NoData? <==> url != "" && url != "N/A" && speed(url).None?
    ensures d.Data? ==> speed(url) == Some(d.report)
  {
    if url == "" || url == "N/A" then NotApplicable
    else match speed(url)
      case None => NoData
      case Some(r) => Data(r)
  }
}
