/**
 * main.py: crawl one category of the directory, score every company whose
 * JSON-LD block names a website, and persist it twice: in `firmy`
 * (insert if the name is absent) and in `results` (insert or replace).
 * Page fetching and the PageSpeed request are the parameters `fetch` and
 * `speed`.
 */
module ScoringCrawler {
  import opened Wrappers
  import opened Tables
  import opened Listing
  import opened PageSpeed
  import Category

  /** A row of `firmy` apart from its key `nazwa`. */
  datatype CompanyRow = CompanyRow(telephone: string, email: string, website: string)

  /** A row of `results` apart from its key `nazwa`. */
  datatype ResultRow = ResultRow(website: string, telephone: string, email: string, category: string, scores: Scores)

  /** The `firmy` table of firmy.db, keyed by the company name. */
  class CompanyTable {
    var rows: map<string, CompanyRow>

    /** The table as an earlier run left it. */
    constructor (existing: map<string, CompanyRow>)
      ensures rows == existing
    {
      rows := existing;
    }

    /** `company_exists(name)`. */
    method CompanyExists(name: string) returns (found: bool)
      ensures found <==> name in rows
    {
      found := name in rows;
    }

    /** `add_company(name, telephone, email, website)`: nothing happens when the name is already stored. */
    method AddCompany(name: string, telephone: string, email: string, website: string)
      modifies this
      ensures rows == InsertIfAbsent(old(rows), name, CompanyRow(telephone, email, website))
      ensures name in rows
    {
      var found := CompanyExists(name);
      if !found {
        rows := rows[name := CompanyRow(telephone, email, website)];
      }
    }
  }

  /** The `results` table of results.db, keyed by the company name. */
  class ResultTable {
    var rows: map<string, ResultRow>

    constructor (existing: map<string, ResultRow>)
      ensures rows == existing
    {
      rows := existing;
    }

    /** `add_result(…)`: `INSERT OR REPLACE`, so the newest scores for a name win. */
    method AddResult(name: string, telephone: string, email: string, website: string, category: string, scores: Scores)
      modifies this
      ensures rows == Upsert(old(rows), name, ResultRow(website, telephone, email, category, scores))
    {
      rows := rows[name := ResultRow(website, telephone, email, category, scores)];
    }
  }

  /** The members `process_page` reads from a decoded block, with its defaults applied. */
  datatype Record = Record(name: string, telephone: string, email: string, website: Option<string>)

  function ExtractRecord(fields: map<string, string>): (rec: Record)
  {
    Record(
      Get(fields, "name").GetOr("N/A"),
      Get(fields, "telephone").GetOr("N/A"),
      Get(fields, "email").GetOr("N/A"),
      Get(fields, "sameAs"))
  }

  /** Name, telephone and email default to "N/A"; the website is `sameAs`, or None. */
  lemma ExtractionDefaults(fields: map<string, string>)
    ensures var r := ExtractRecord(fields);
      && r.name == (if "name" in fields then fields["name"] else "N/A")
      && r.telephone == (if "telephone" in fields then fields["telephone"] else "N/A")
      && r.email == (if "email" in fields then fields["email"] else "N/A")
      && (r.website.Some? <==> "sameAs" in fields)
      && (r.website.Some? ==> r.website.value == fields["sameAs"])
  {
  }

  /** What the body of the loop over the script blocks does with one block. */
  datatype Action =
    | Skip
    | Persist(name: string, telephone: string, email: string, website: string, scores: Scores)
    | Raise(fault: Fault)

  /**
   * The loop body as written. `json.loads` and `data.get` are outside any
   * `try`, so a block that does not decode to an object raises. A website
   * of "N/A" makes `get_pagespeed_data` return the truthy string "N/A",
   * which `calculate_website_score` then calls `.get` on.
   */
  function DecideAsWritten(b: Block, speed: string -> Option<Report>): (a: Action)
  {
    match b
    case Undecodable => Raise(JsonDecodeError)
    case NoText => Raise(TypeError)
    case NotObject => Raise(AttributeError)
    case Object(fields) =>
      var rec := ExtractRecord(fields);
      if !Truthy(rec.website) then Skip
      else
        match GetPageSpeedData(rec.website.value, speed)
        case NoData => Skip
        case NotApplicable => Raise(AttributeError)
        case Data(report) =>
          Persist(rec.name, rec.telephone, rec.email, rec.website.value, CalculateWebsiteScore(Some(report)))
  }

  /**
   * The loop body with the "N/A" answer of `get_pagespeed_data` read as
   * "no data", like None: the block is skipped.
   */
  function Decide(b: Block, speed: string -> Option<Report>): (a: Action)
  {
    match b
    case Undecodable => Raise(JsonDecodeError)
    case NoText => Raise(TypeError)
    case NotObject => Raise(AttributeError)
    case Object(fields) =>
      var rec := ExtractRecord(fields);
      if !Truthy(rec.website) then Skip
      else
        match GetPageSpeedData(rec.website.value, speed)
        case NoData => Skip
        case NotApplicable => Skip
        case Data(report) =>
          Persist(rec.name, rec.telephone, rec.email, rec.website.value, CalculateWebsiteScore(Some(report)))
  }

  /** As written, a block whose `sameAs` is "N/A" raises AttributeError; corrected, it is skipped. */
  lemma NaWebsiteRaisesAsWritten(speed: string -> Option<Report>)
    ensures DecideAsWritten(Object(map["name" := "Firma", "sameAs" := "N/A"]), speed) == Raise(AttributeError)
    ensures Decide(Object(map["name" := "Firma", "sameAs" := "N/A"]), speed) == Skip
  {
  }

  /** The correction changes only blocks whose `sameAs` is "N/A". */
  lemma DecideAgreesWithAsWritten(b: Block, speed: string -> Option<Report>)
    requires !(b.Object? && Get(b.fields, "sameAs") == Some("N/A"))
    ensures Decide(b, speed) == DecideAsWritten(b, speed)
  {
  }

  /** Corrected, a block raises exactly when it does not decode to a JSON object. */
  lemma DecideRaisesOnlyOnBadBlocks(b: Block, speed: string -> Option<Report>)
    ensures Decide(b, speed).Raise? <==> !b.Object?
    ensures b.Undecodable? ==> Decide(b, speed) == Raise(JsonDecodeError)
    ensures b.NoText? ==> Decide(b, speed) == Raise(TypeError)
    ensures b.NotObject? ==> Decide(b, speed) == Raise(AttributeError)
  {
  }

  /**
   * As written, a block raises exactly when it does not decode to a JSON
   * object or its `sameAs` is "N/A".
   */
  lemma DecideAsWrittenRaises(b: Block, speed: string -> Option<Report>)
    ensures DecideAsWritten(b, speed).Raise? <==> !b.Object? || Get(b.fields, "sameAs") == Some("N/A")
    ensures b.Object? && Get(b.fields, "sameAs") == Some("N/A") ==> DecideAsWritten(b, speed) == Raise(AttributeError)
  {
  }

  /**
   * Under either reading, a decoded block is scored and persisted exactly
   * when its `sameAs` is a non-empty string other than "N/A" and PageSpeed
   * answers for it; it is then persisted with the defaults of
   * `ExtractRecord` and the scores of that answer.
   */
  lemma DecidePersists(reading: Reading, fields: map<string, string>, speed: string -> Option<Report>)
    ensures var a := Decision(reading, Object(fields), speed);
      && (a.Persist? <==>
            "sameAs" in fields && fields["sameAs"] != "" && fields["sameAs"] != "N/A"
            && speed(fields["sameAs"]).Some?)
      && (a.Persist? ==>
            && a.name == (if "name" in fields then fields["name"] else "N/A")
            && a.telephone == (if "telephone" in fields then fields["telephone"] else "N/A")
            && a.email == (if "email" in fields then fields["email"] else "N/A")
            && a.website == fields["sameAs"]
            && a.scores == CalculateWebsiteScore(speed(fields["sameAs"])))
  {
  }

  /** Which block decision a run uses: main.py's own, or the one of `Decide`. */
  datatype Reading = AsWritten | Corrected

  function Decision(reading: Reading, b: Block, speed: string -> Option<Report>): (a: Action)
  {
    if reading == AsWritten then DecideAsWritten(b, speed) else Decide(b, speed)
  }

  /** The contents of both tables. */
  datatype Stores = Stores(firmy: map<string, CompanyRow>, results: map<string, ResultRow>)

  /** `add_company` then `add_result` for a persisted block; nothing otherwise. */
  function Persisted(t: Stores, a: Action, category: string): (t2: Stores)
  {
    match a
    case Persist(name, telephone, email, website, scores) =>
      Stores(
        InsertIfAbsent(t.firmy, name, CompanyRow(telephone, email, website)),
        Upsert(t.results, name, ResultRow(website, telephone, email, category, scores)))
    case _ => t
  }

  /** The tables after a run over some blocks, and the exception that ended it early, if any. */
  datatype PageRun = PageRun(stores: Stores, fault: Option<Fault>)

  /** The loop over the script blocks, in order, up to the first exception. */
  function RunBlocks(reading: Reading, t: Stores, blocks: seq<Block>, category: string, speed: string -> Option<Report>): (run: PageRun)
    decreases |blocks|
  {
    if blocks == [] then PageRun(t, None)
    else
      var a := Decision(reading, blocks[0], speed);
      if a.Raise? then PageRun(t, Some(a.fault))
      else RunBlocks(reading, Persisted(t, a, category), blocks[1..], category, speed)
  }

  /** What `process_page` returns, with the tables it leaves. */
  datatype PageStep = PageStep(ret: PageReturn, stores: Stores)

  /**
   * `process_page(url, category)`. `fetch` stands for the HTTP request and
   * the parsing of the page: None for a non-200 status.
   */
  function ProcessPageEffect(reading: Reading, url: string, t: Stores, category: string,
                             fetch: string -> Option<Page>, speed: string -> Option<Report>): (step: PageStep)
  {
    match fetch(url)
    case None => PageStep(Returned(None), t)
    case Some(page) =>
      var run := RunBlocks(reading, t, page.blocks, category, speed);
      if run.fault.Some? then PageStep(Raised(run.fault.value), run.stores)
      else PageStep(NextUrl(page.next), run.stores)
  }

  /** The pages a crawl visited, in order, the tables it left and how it ended. */
  datatype CrawlRun = CrawlRun(visited: seq<string>, stores: Stores, outcome: Outcome)

  function Prepend(visited: seq<string>, c: CrawlRun): (c2: CrawlRun)
  {
    CrawlRun(visited + c.visited, c.stores, c.outcome)
  }

  /** The loop of `main` from `url` on, visiting at most `fuel` pages. */
  function CrawlFrom(reading: Reading, url: string, t: Stores, category: string, fetch: string -> Option<Page>,
                     speed: string -> Option<Report>, fuel: nat): (run: CrawlRun)
    decreases fuel
  {
    if fuel == 0 then CrawlRun([], t, OutOfFuel)
    else
      var step := ProcessPageEffect(reading, url, t, category, fetch, speed);
      match step.ret
      case Raised(f) => CrawlRun([url], step.stores, Aborted(f))
      case Returned(next) =>
        if Truthy(next) then Prepend([url], CrawlFrom(reading, next.value, step.stores, category, fetch, speed, fuel - 1))
        else CrawlRun([url], step.stores, Completed)
  }

  /** One iteration of `main`'s loop: the crawl so far, extended by the page at `url`. */
  lemma CrawlStep(reading: Reading, whole: CrawlRun, seen: seq<string>, url: string, t: Stores, category: string,
                  fetch: string -> Option<Page>, speed: string -> Option<Report>, fuel: nat,
                  ret: PageReturn, t': Stores)
    requires fuel > 0 && whole == Prepend(seen, CrawlFrom(reading, url, t, category, fetch, speed, fuel))
    requires ProcessPageEffect(reading, url, t, category, fetch, speed) == PageStep(ret, t')
    ensures ret.Raised? ==> whole == CrawlRun(seen + [url], t', Aborted(ret.fault))
    ensures ret.Returned? && Truthy(ret.next) ==>
      whole == Prepend(seen + [url], CrawlFrom(reading, ret.next.value, t', category, fetch, speed, fuel - 1))
    ensures ret.Returned? && !Truthy(ret.next) ==> whole == CrawlRun(seen + [url], t', Completed)
  {
    if ret.Returned? && Truthy(ret.next) {
      var rest := CrawlFrom(reading, ret.next.value, t', category, fetch, speed, fuel - 1);
      assert seen + ([url] + rest.visited) == (seen + [url]) + rest.visited;
    }
  }

  /** The loop over the blocks, read from block `i` on. */
  lemma RunBlocksAt(reading: Reading, t: Stores, blocks: seq<Block>, i: nat, category: string, speed: string -> Option<Report>)
    requires i < |blocks|
    ensures var a := Decision(reading, blocks[i], speed);
      RunBlocks(reading, t, blocks[i..], category, speed)
      == if a.Raise? then PageRun(t, Some(a.fault)) else RunBlocks(reading, Persisted(t, a, category), blocks[i + 1..], category, speed)
  {
    assert blocks[i..][0] == blocks[i] && blocks[i..][1..] == blocks[i + 1..];
  }

  /**
   * `process_page(url, category)` on the two tables, as main.py has it:
   * the blocks are decided by `DecideAsWritten`.
   */
  method ProcessPage(firmy: CompanyTable, results: ResultTable, url: string, category: string,
                     fetch: string -> Option<Page>, speed: string -> Option<Report>) returns (ret: PageReturn)
    modifies firmy, results
    ensures ProcessPageEffect(AsWritten, url, old(Stores(firmy.rows, results.rows)), category, fetch, speed)
            == PageStep(ret, Stores(firmy.rows, results.rows))
  {
    var page := fetch(url);
    if page.None? {
      return Returned(None);
    }
    var blocks := page.value.blocks;
    ghost var t0 := Stores(firmy.rows, results.rows);
    var i := 0;
    while i < |blocks|
      invariant 0 <= i <= |blocks|
      invariant RunBlocks(AsWritten, t0, blocks, category, speed)
                == RunBlocks(AsWritten, Stores(firmy.rows, results.rows), blocks[i..], category, speed)
    {
      RunBlocksAt(AsWritten, Stores(firmy.rows, results.rows), blocks, i, category, speed);
      var action := DecideAsWritten(blocks[i], speed);
      match action {
        case Raise(f) =>
          return Raised(f);
        case Skip =>
        case Persist(name, telephone, email, website, scores) =>
          firmy.AddCompany(name, telephone, email, website);
          results.AddResult(name, telephone, email, website, category, scores);
      }
      i := i + 1;
    }
    assert blocks[i..] == [];
    ret := NextUrl(page.value.next);
  }

  /**
   * `main()`: `input` is the text typed at the prompt, and the model
   * visits at most `fuel` pages. The encoded category is both the URL's
   * path and the category stored in `results`.
   */
  method Crawl(firmy: CompanyTable, results: ResultTable, input: string,
               fetch: string -> Option<Page>, speed: string -> Option<Report>, fuel: nat)
    returns (visited: seq<string>, outcome: Outcome)
    modifies firmy, results
    ensures var category := Category.EncodeSpaces(Category.Strip(input));
      CrawlFrom(AsWritten, Category.StartUrl(category), old(Stores(firmy.rows, results.rows)), category, fetch, speed, fuel)
      == CrawlRun(visited, Stores(firmy.rows, results.rows), outcome)
  {
    var category := Category.EncodeSpaces(Category.Strip(input));
    visited, outcome := CrawlPages(firmy, results, Category.StartUrl(category), category, fetch, speed, fuel);
  }

  /** The page loop of `Crawl`, from the first result page `start` on. */
  method CrawlPages(firmy: CompanyTable, results: ResultTable, start: string, category: string,
                    fetch: string -> Option<Page>, speed: string -> Option<Report>, fuel: nat)
    returns (visited: seq<string>, outcome: Outcome)
    requires start != ""
    modifies firmy, results
    ensures CrawlFrom(AsWritten, start, old(Stores(firmy.rows, results.rows)), category, fetch, speed, fuel)
      == CrawlRun(visited, Stores(firmy.rows, results.rows), outcome)
  {
    var currentUrl := start;
    ghost var whole := CrawlFrom(AsWritten, currentUrl, Stores(firmy.rows, results.rows), category, fetch, speed, fuel);
    var left := fuel;
    var running := true;
    visited, outcome := [], OutOfFuel;
    while running && currentUrl != "" && left > 0
      invariant currentUrl != ""
      invariant running ==> outcome == OutOfFuel
      invariant running ==>
        whole == Prepend(visited, CrawlFrom(AsWritten, currentUrl, Stores(firmy.rows, results.rows), category, fetch, speed, left))
      invariant !running ==> whole == CrawlRun(visited, Stores(firmy.rows, results.rows), outcome)
      decreases left
    {
      ghost var before := Stores(firmy.rows, results.rows);
      ghost var seen := visited;
      visited := visited + [currentUrl];
      var ret := ProcessPage(firmy, results, currentUrl, category, fetch, speed);
      CrawlStep(AsWritten, whole, seen, currentUrl, before, category, fetch, speed, left, ret, Stores(firmy.rows, results.rows));
      left := left - 1;
      match ret {
        case Raised(f) =>
          outcome, running := Aborted(f), false;
        case Returned(next) =>
          if Truthy(next) {
            currentUrl := next.value;
          } else {
            outcome, running := Completed, false;
          }
      }
    }
    if running {
      assert visited + [] == visited;
    }
  }

  // Properties of a page.

  /** A block that is skipped can be dropped from a page without changing what the page does. */
  lemma {:induction false} SkippedBlockIsInert(reading: Reading, t: Stores, before: seq<Block>, b: Block, after: seq<Block>,
                                               category: string, speed: string -> Option<Report>)
    requires Decision(reading, b, speed) == Skip
    ensures RunBlocks(reading, t, before + [b] + after, category, speed) == RunBlocks(reading, t, before + after, category, speed)
    decreases |before|
  {
    if before == [] {
      assert [] + [b] + after == [b] + after && ([b] + after)[1..] == after;
      assert [] + after == after;
    } else {
      var a := Decision(reading, before[0], speed);
      assert (before + [b] + after)[0] == before[0] && (before + after)[0] == before[0];
      assert (before + [b] + after)[1..] == before[1..] + [b] + after;
      assert (before + after)[1..] == before[1..] + after;
      if !a.Raise? {
        SkippedBlockIsInert(reading, Persisted(t, a, category), before[1..], b, after, category, speed);
      }
    }
  }

  /** A page none of whose blocks has a non-empty `sameAs` leaves both tables as they were. */
  lemma {:induction false} NoWebsiteNoWrites(reading: Reading, t: Stores, blocks: seq<Block>, category: string,
                                             speed: string -> Option<Report>)
    requires forall i :: 0 <= i < |blocks| ==> blocks[i].Object? && !Truthy(Get(blocks[i].fields, "sameAs"))
    ensures RunBlocks(reading, t, blocks, category, speed) == PageRun(t, None)
    decreases |blocks|
  {
    if blocks != [] {
      NoWebsiteNoWrites(reading, t, blocks[1..], category, speed);
    }
  }

  /** The rows of `firmy` are write-once: a run over blocks keeps every row it found. */
  lemma {:induction false} RunBlocksKeepsCompanies(reading: Reading, t: Stores, blocks: seq<Block>, category: string,
                                                   speed: string -> Option<Report>)
    ensures Extends(t.firmy, RunBlocks(reading, t, blocks, category, speed).stores.firmy)
    decreases |blocks|
  {
    if blocks != [] {
      var a := Decision(reading, blocks[0], speed);
      if !a.Raise? {
        var t' := Persisted(t, a, category);
        RunBlocksKeepsCompanies(reading, t', blocks[1..], category, speed);
        if a.Persist? {
          InsertIfAbsentGrowth(t.firmy, a.name, CompanyRow(a.telephone, a.email, a.website));
        }
        ExtendsTransitive(t.firmy, t'.firmy, RunBlocks(reading, t', blocks[1..], category, speed).stores.firmy);
      }
    }
  }

  /** Every `results` row a run writes carries the run's category. */
  ghost predicate WrittenWith(before: map<string, ResultRow>, after: map<string, ResultRow>, category: string)
  {
    forall k :: k in after ==> (k in before && after[k] == before[k]) || after[k].category == category
  }

  lemma {:induction false} RunBlocksResultsCategory(reading: Reading, t: Stores, blocks: seq<Block>, category: string,
                                                    speed: string -> Option<Report>)
    ensures WrittenWith(t.results, RunBlocks(reading, t, blocks, category, speed).stores.results, category)
    decreases |blocks|
  {
    if blocks != [] {
      var a := Decision(reading, blocks[0], speed);
      if !a.Raise? {
        RunBlocksResultsCategory(reading, Persisted(t, a, category), blocks[1..], category, speed);
      }
    }
  }

  // Properties of the crawl.

  /** The crawl visits the start URL first and at most `fuel` pages; it runs out of fuel only after `fuel` pages. */
  lemma {:induction false} CrawlLength(reading: Reading, url: string, t: Stores, category: string, fetch: string -> Option<Page>,
                                       speed: string -> Option<Report>, fuel: nat)
    ensures var c := CrawlFrom(reading, url, t, category, fetch, speed, fuel);
      && |c.visited| <= fuel
      && (fuel > 0 ==> |c.visited| > 0 && c.visited[0] == url)
      && (c.outcome == OutOfFuel ==> |c.visited| == fuel)
    decreases fuel
  {
    if fuel > 0 {
      var step := ProcessPageEffect(reading, url, t, category, fetch, speed);
      if step.ret.Returned? && Truthy(step.ret.next) {
        CrawlLength(reading, step.ret.next.value, step.stores, category, fetch, speed, fuel - 1);
      }
    }
  }

  /** Each visited page after the first is the `href` of the previous page's next link. */
  lemma {:induction false} CrawlFollowsLinks(reading: Reading, url: string, t: Stores, category: string, fetch: string -> Option<Page>,
                                             speed: string -> Option<Report>, fuel: nat)
    ensures FollowsLinks(fetch, CrawlFrom(reading, url, t, category, fetch, speed, fuel).visited)
    decreases fuel
  {
    if fuel > 0 {
      var step := ProcessPageEffect(reading, url, t, category, fetch, speed);
      if step.ret.Returned? && Truthy(step.ret.next) {
        var next := step.ret.next.value;
        var rest := CrawlFrom(reading, next, step.stores, category, fetch, speed, fuel - 1);
        CrawlFollowsLinks(reading, next, step.stores, category, fetch, speed, fuel - 1);
        CrawlLength(reading, next, step.stores, category, fetch, speed, fuel - 1);
        FollowsLinksCons(fetch, url, rest.visited);
      }
    }
  }

  /**
   * A crawl that completes stops at a page that failed to load or has no
   * non-empty next link: nothing after it is fetched.
   */
  lemma {:induction false} CrawlStopsAtLastPage(reading: Reading, url: string, t: Stores, category: string, fetch: string -> Option<Page>,
                                                speed: string -> Option<Report>, fuel: nat)
    ensures var c := CrawlFrom(reading, url, t, category, fetch, speed, fuel);
      c.outcome == Completed ==> c.visited != [] && IsLastPage(fetch, c.visited[|c.visited| - 1])
    decreases fuel
  {
    if fuel > 0 {
      var step := ProcessPageEffect(reading, url, t, category, fetch, speed);
      if step.ret.Returned? {
        if Truthy(step.ret.next) {
          var rest := CrawlFrom(reading, step.ret.next.value, step.stores, category, fetch, speed, fuel - 1);
          CrawlStopsAtLastPage(reading, step.ret.next.value, step.stores, category, fetch, speed, fuel - 1);
          if rest.outcome == Completed {
            LastOfCons(url, rest.visited);
          }
        } else if fetch(url).Some? {
          NoNextUrl(fetch(url).value.next);
        }
      }
    }
  }

  /** A start page without a next link ends the crawl after that one page. */
  lemma StopsWithoutNextLink(reading: Reading, url: string, blocks: seq<Block>, t: Stores, category: string,
                             fetch: string -> Option<Page>, speed: string -> Option<Report>, fuel: nat)
    requires fuel > 0 && fetch(url) == Some(Page(blocks, NoLink))
    ensures var c := CrawlFrom(reading, url, t, category, fetch, speed, fuel);
      c.visited == [url] && c.outcome != OutOfFuel
  {
  }

  /** Over a whole crawl, `firmy` keeps every row it had. */
  lemma {:induction false} CrawlKeepsCompanies(reading: Reading, url: string, t: Stores, category: string, fetch: string -> Option<Page>,
                                               speed: string -> Option<Report>, fuel: nat)
    ensures Extends(t.firmy, CrawlFrom(reading, url, t, category, fetch, speed, fuel).stores.firmy)
    decreases fuel
  {
    if fuel > 0 {
      var step := ProcessPageEffect(reading, url, t, category, fetch, speed);
      match fetch(url)
      case None =>
      case Some(page) => RunBlocksKeepsCompanies(reading, t, page.blocks, category, speed);
      if step.ret.Returned? && Truthy(step.ret.next) {
        CrawlKeepsCompanies(reading, step.ret.next.value, step.stores, category, fetch, speed, fuel - 1);
        ExtendsTransitive(t.firmy, step.stores.firmy,
                          CrawlFrom(reading, step.ret.next.value, step.stores, category, fetch, speed, fuel - 1).stores.firmy);
      }
    }
  }

  /** Over a whole crawl, every `results` row written carries the crawl's category. */
  lemma {:induction false} CrawlResultsCategory(reading: Reading, url: string, t: Stores, category: string, fetch: string -> Option<Page>,
                                                speed: string -> Option<Report>, fuel: nat)
    ensures WrittenWith(t.results, CrawlFrom(reading, url, t, category, fetch, speed, fuel).stores.results, category)
    decreases fuel
  {
    if fuel > 0 {
      var step := ProcessPageEffect(reading, url, t, category, fetch, speed);
      match fetch(url)
      case None =>
      case Some(page) => RunBlocksResultsCategory(reading, t, page.blocks, category, speed);
      if step.ret.Returned? && Truthy(step.ret.next) {
        CrawlResultsCategory(reading, step.ret.next.value, step.stores, category, fetch, speed, fuel - 1);
      }
    }
  }

  /**
   * The `kategoria` column of `results` holds the category as it went into
   * the URL: stripped, with every space encoded, so it never holds a space.
   */
  lemma EncodedCategoryStored(reading: Reading, input: string, t: Stores, fetch: string -> Option<Page>,
                              speed: string -> Option<Report>, fuel: nat)
    ensures var category := Category.EncodeSpaces(Category.Strip(input));
      var after := CrawlFrom(reading, Category.StartUrl(category), t, category, fetch, speed, fuel).stores.results;
      forall k :: k in after && !(k in t.results && after[k] == t.results[k]) ==>
        after[k].category == category && ' ' !in after[k].category
  {
    var category := Category.EncodeSpaces(Category.Strip(input));
    CrawlResultsCategory(reading, Category.StartUrl(category), t, category, fetch, speed, fuel);
  }

  /**
   * The finding on a whole crawl: a start page whose one company lists the
   * website "N/A" aborts main.py with AttributeError, while the corrected
   * reading completes after that page with both tables unchanged.
   */
  lemma NaPageAbortsAsWritten(url: string, t: Stores, category: string, fetch: string -> Option<Page>,
                              speed: string -> Option<Report>, fuel: nat)
    requires fuel > 0
    requires fetch(url) == Some(Page([Object(map["name" := "Firma", "sameAs" := "N/A"])], NoLink))
    ensures CrawlFrom(AsWritten, url, t, category, fetch, speed, fuel) == CrawlRun([url], t, Aborted(AttributeError))
    ensures CrawlFrom(Corrected, url, t, category, fetch, speed, fuel) == CrawlRun([url], t, Completed)
  {
    var blocks := [Object(map["name" := "Firma", "sameAs" := "N/A"])];
    NaWebsiteRaisesAsWritten(speed);
    assert RunBlocks(AsWritten, t, blocks, category, speed) == PageRun(t, Some(AttributeError));
    assert blocks[1..] == [];
    assert RunBlocks(Corrected, t, blocks, category, speed) == PageRun(t, None);
  }
}
