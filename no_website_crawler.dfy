/**
 * companies-without-website.py: crawl one category of the directory and
 * record every company whose JSON-LD block has a name but no website, once
 * per (name, category). Page fetching is the parameter `fetch`.
 */
module NoWebsiteCrawler {
  import opened Wrappers
  import opened Tables
  import opened Listing
  import Category

  /** The primary key `(nazwa, kategoria)` of `firmy`. */
  datatype Key = Key(name: string, category: string)

  /** A row of `firmy` apart from its key. */
  datatype Row = Row(telephone: string, email: string, website: Option<string>)

  /** The `firmy` table of firmy.db, keyed by name and category. */
  class CompanyTable {
    var rows: map<Key, Row>

    /** The table as an earlier run left it. */
    constructor (existing: map<Key, Row>)
      ensures rows == existing
    {
      rows := existing;
    }

    /** `company_exists(name, category)`: a row with exactly this pair is stored. */
    method CompanyExists(name: string, category: string) returns (found: bool)
      ensures found <==> Key(name, category) in rows
    {
      found := Key(name, category) in rows;
    }

    /** `add_company(name, telephone, email, website, category)`: nothing happens when the pair is stored. */
    method AddCompany(name: string, telephone: string, email: string, website: Option<string>, category: string)
      modifies this
      ensures rows == InsertIfAbsent(old(rows), Key(name, category), Row(telephone, email, website))
      ensures Key(name, category) in rows
    {
      var found := CompanyExists(name, category);
      if !found {
        rows := rows[Key(name, category) := Row(telephone, email, website)];
      }
    }
  }

  /** Adding the same pair twice leaves one row, the first; the second call changes nothing. */
  method AddTwice(table: CompanyTable, name: string, telephone: string, email: string, category: string,
                  telephone': string, email': string)
    modifies table
    ensures table.rows == InsertIfAbsent(old(table.rows), Key(name, category), Row(telephone, email, None))
  {
    table.AddCompany(name, telephone, email, None, category);
    ghost var afterFirst := table.rows;
    table.AddCompany(name, telephone', email', None, category);
    assert table.rows == afterFirst;
  }

  /** One name under two categories is two rows, because the key is the pair. */
  lemma SameNameTwoCategories(m: map<Key, Row>, name: string, c1: string, c2: string, r1: Row, r2: Row)
    requires c1 != c2 && Key(name, c1) !in m && Key(name, c2) !in m
    ensures var m' := InsertIfAbsent(InsertIfAbsent(m, Key(name, c1), r1), Key(name, c2), r2);
      m'[Key(name, c1)] == r1 && m'[Key(name, c2)] == r2 && |m'| == |m| + 2
  {
    InsertIfAbsentGrowth(m, Key(name, c1), r1);
    InsertIfAbsentGrowth(InsertIfAbsent(m, Key(name, c1), r1), Key(name, c2), r2);
  }

  /** What the body of the loop over the script blocks does with one block. */
  datatype Action = Skip | Store(name: string, telephone: string, email: string) | Raise(fault: Fault)

  /**
   * The `try` body and its `except (json.JSONDecodeError, TypeError)`. The
   * AttributeError of `data.get` on JSON that is not an object is not
   * caught.
   */
  function Decide(b: Block): (a: Action)
  {
    match b
    case Undecodable => Skip
    case NoText => Skip
    case NotObject => Raise(AttributeError)
    case Object(fields) =>
      var name := Get(fields, "name");
      var telephone := Get(fields, "telephone").GetOr("N/A");
      var email := Get(fields, "email").GetOr("N/A");
      var website := Get(fields, "sameAs");
      if Truthy(name) && !Truthy(website) then Store(name.value, telephone, email) else Skip
  }

  /**
   * A block is stored exactly when it decodes to an object whose name is a
   * non-empty string and whose `sameAs` is absent or empty; telephone and
   * email then default to "N/A". Blocks that do not decode are skipped.
   */
  lemma DecideStores(b: Block)
    ensures Decide(b).Store? <==>
      b.Object? && "name" in b.fields && b.fields["name"] != ""
      && !("sameAs" in b.fields && b.fields["sameAs"] != "")
    ensures Decide(b).Store? ==>
      && Decide(b).name == b.fields["name"]
      && Decide(b).telephone == (if "telephone" in b.fields then b.fields["telephone"] else "N/A")
      && Decide(b).email == (if "email" in b.fields then b.fields["email"] else "N/A")
    ensures b.Undecodable? || b.NoText? ==> Decide(b) == Skip
    ensures Decide(b).Raise? <==> b.NotObject?
    ensures b.NotObject? ==> Decide(b) == Raise(AttributeError)
  {
  }

  /** `add_company(name, telephone, email, None, category)` for a stored block; nothing otherwise. */
  function Stored(m: map<Key, Row>, a: Action, category: string): (m2: map<Key, Row>)
  {
    match a
    case Store(name, telephone, email) => InsertIfAbsent(m, Key(name, category), Row(telephone, email, None))
    case _ => m
  }

  /** The table after a run over some blocks, and the exception that ended it early, if any. */
  datatype PageRun = PageRun(rows: map<Key, Row>, fault: Option<Fault>)

  /** The loop over the script blocks, in order, up to the first uncaught exception. */
  function RunBlocks(m: map<Key, Row>, blocks: seq<Block>, category: string): (run: PageRun)
    decreases |blocks|
  {
    if blocks == [] then PageRun(m, None)
    else
      var a := Decide(blocks[0]);
      if a.Raise? then PageRun(m, Some(a.fault))
      else RunBlocks(Stored(m, a, category), blocks[1..], category)
  }

  /** What `process_page` returns, with the table it leaves. */
  datatype PageStep = PageStep(ret: PageReturn, rows: map<Key, Row>)

  /**
   * `process_page(url, category)`. `fetch` stands for the HTTP request and
   * the parsing of the page: None for a non-200 status.
   */
  function ProcessPageEffect(url: string, m: map<Key, Row>, category: string, fetch: string -> Option<Page>): (step: PageStep)
  {
    match fetch(url)
    case None => PageStep(Returned(None), m)
    case Some(page) =>
      var run := RunBlocks(m, page.blocks, category);
      if run.fault.Some? then PageStep(Raised(run.fault.value), run.rows)
      else PageStep(NextUrl(page.next), run.rows)
  }

  /** The pages a crawl visited, in order, the table it left and how it ended. */
  datatype CrawlRun = CrawlRun(visited: seq<string>, rows: map<Key, Row>, outcome: Outcome)

  function Prepend(visited: seq<string>, c: CrawlRun): (c2: CrawlRun)
  {
    CrawlRun(visited + c.visited, c.rows, c.outcome)
  }

  /** The loop of `main` from `url` on, visiting at most `fuel` pages. */
  function CrawlFrom(url: string, m: map<Key, Row>, category: string, fetch: string -> Option<Page>, fuel: nat): (run: CrawlRun)
    decreases fuel
  {
    if fuel == 0 then CrawlRun([], m, OutOfFuel)
    else
      var step := ProcessPageEffect(url, m, category, fetch);
      match step.ret
      case Raised(f) => CrawlRun([url], step.rows, Aborted(f))
      case Returned(next) =>
        if Truthy(next) then Prepend([url], CrawlFrom(next.value, step.rows, category, fetch, fuel - 1))
        else CrawlRun([url], step.rows, Completed)
  }

  /** One iteration of `main`'s loop: the crawl so far, extended by the page at `url`. */
  lemma CrawlStep(whole: CrawlRun, seen: seq<string>, url: string, m: map<Key, Row>, category: string,
                  fetch: string -> Option<Page>, fuel: nat, ret: PageReturn, m': map<Key, Row>)
    requires fuel > 0 && whole == Prepend(seen, CrawlFrom(url, m, category, fetch, fuel))
    requires ProcessPageEffect(url, m, category, fetch) == PageStep(ret, m')
    ensures ret.Raised? ==> whole == CrawlRun(seen + [url], m', Aborted(ret.fault))
    ensures ret.Returned? && Truthy(ret.next) ==>
      whole == Prepend(seen + [url], CrawlFrom(ret.next.value, m', category, fetch, fuel - 1))
    ensures ret.Returned? && !Truthy(ret.next) ==> whole == CrawlRun(seen + [url], m', Completed)
  {
    if ret.Returned? && Truthy(ret.next) {
      var rest := CrawlFrom(ret.next.value, m', category, fetch, fuel - 1);
      assert seen + ([url] + rest.visited) == (seen + [url]) + rest.visited;
    }
  }

  /** The loop over the blocks, read from block `i` on. */
  lemma RunBlocksAt(m: map<Key, Row>, blocks: seq<Block>, i: nat, category: string)
    requires i < |blocks|
    ensures var a := Decide(blocks[i]);
      RunBlocks(m, blocks[i..], category)
      == if a.Raise? then PageRun(m, Some(a.fault)) else RunBlocks(Stored(m, a, category), blocks[i + 1..], category)
  {
    assert blocks[i..][0] == blocks[i] && blocks[i..][1..] == blocks[i + 1..];
  }

  /** `process_page(url, category)` on the table. */
  method ProcessPage(table: CompanyTable, url: string, category: string, fetch: string -> Option<Page>)
    returns (ret: PageReturn)
    modifies table
    ensures ProcessPageEffect(url, old(table.rows), category, fetch) == PageStep(ret, table.rows)
  {
    var page := fetch(url);
    if page.None? {
      return Returned(None);
    }
    var blocks := page.value.blocks;
    ghost var m0 := table.rows;
    for i := 0 to |blocks|
      invariant RunBlocks(m0, blocks, category) == RunBlocks(table.rows, blocks[i..], category)
    {
      RunBlocksAt(table.rows, blocks, i, category);
      match Decide(blocks[i]) {
        case Raise(f) =>
          return Raised(f);
        case Skip =>
        case Store(name, telephone, email) =>
          table.AddCompany(name, telephone, email, None, category);
      }
    }
    assert blocks[|blocks|..] == [];
    ret := NextUrl(page.value.next);
  }

  /**
   * `main()`: `input` is the text typed at the prompt, and the model
   * visits at most `fuel` pages. The URL uses the category with spaces
   * encoded; the table stores the stripped text as typed.
   */
  method Crawl(table: CompanyTable, input: string, fetch: string -> Option<Page>, fuel: nat)
    returns (visited: seq<string>, outcome: Outcome)
    modifies table
    ensures var category := Category.Strip(input);
      CrawlFrom(Category.StartUrl(Category.EncodeSpaces(category)), old(table.rows), category, fetch, fuel)
      == CrawlRun(visited, table.rows, outcome)
  {
    var category := Category.Strip(input);
    var encodedCategory := Category.EncodeSpaces(category);
    visited, outcome := CrawlPages(table, Category.StartUrl(encodedCategory), category, fetch, fuel);
  }

  /** The page loop of `Crawl`, from the first result page `start` on. */
  method CrawlPages(table: CompanyTable, start: string, category: string, fetch: string -> Option<Page>, fuel: nat)
    returns (visited: seq<string>, outcome: Outcome)
    requires start != ""
    modifies table
    ensures CrawlFrom(start, old(table.rows), category, fetch, fuel) == CrawlRun(visited, table.rows, outcome)
  {
    var currentUrl := start;
    ghost var whole := CrawlFrom(currentUrl, table.rows, category, fetch, fuel);
    var left := fuel;
    var running := true;
    visited, outcome := [], OutOfFuel;
    while running && currentUrl != "" && left > 0
      invariant currentUrl != ""
      invariant running ==> outcome == OutOfFuel
      invariant running ==> whole == Prepend(visited, CrawlFrom(currentUrl, table.rows, category, fetch, left))
      invariant !running ==> whole == CrawlRun(visited, table.rows, outcome)
      decreases left
    {
      ghost var before := table.rows;
      ghost var seen := visited;
      visited := visited + [currentUrl];
      var ret := ProcessPage(table, currentUrl, category, fetch);
      CrawlStep(whole, seen, currentUrl, before, category, fetch, left, ret, table.rows);
      left := left - 1;
      match ret {
        case Raised(f) =>
          outcome, running := Aborted(f), false;
        case Returned(next) =>
          if Truthy(next) {
            currentUrl := next.value;
          } else {
            outcome, running := Completed, false;
          }
      }
    }
    if running {
      assert visited + [] == visited;
    }
  }

  // Properties of a page.

  /**
   * A skipped block, among them every block that fails to decode, can be
   * dropped from a page without changing what the page does: the blocks
   * after it are still processed.
   */
  lemma {:induction false} SkippedBlockIsInert(m: map<Key, Row>, before: seq<Block>, b: Block, after: seq<Block>,
                                               category: string)
    requires Decide(b) == Skip
    ensures RunBlocks(m, before + [b] + after, category) == RunBlocks(m, before + after, category)
    decreases |before|
  {
    if before == [] {
      assert [] + [b] + after == [b] + after && ([b] + after)[1..] == after;
      assert [] + after == after;
    } else {
      var a := Decide(before[0]);
      assert (before + [b] + after)[0] == before[0] && (before + after)[0] == before[0];
      assert (before + [b] + after)[1..] == before[1..] + [b] + after;
      assert (before + after)[1..] == before[1..] + after;
      if !a.Raise? {
        SkippedBlockIsInert(Stored(m, a, category), before[1..], b, after, category);
      }
    }
  }

  /**
   * A run keeps every row it found, and every row it adds is keyed by the
   * run's category and has no website.
   */
  ghost predicate AddsWithoutWebsite(before: map<Key, Row>, after: map<Key, Row>, category: string)
  {
    && Extends(before, after)
    && forall k :: k in after && k !in before ==> k.category == category && after[k].website == None
  }

  lemma AddsWithoutWebsiteTransitive(m1: map<Key, Row>, m2: map<Key, Row>, m3: map<Key, Row>, category: string)
    requires AddsWithoutWebsite(m1, m2, category) && AddsWithoutWebsite(m2, m3, category)
    ensures AddsWithoutWebsite(m1, m3, category)
  {
  }

  lemma {:induction false} RunBlocksAddsWithoutWebsite(m: map<Key, Row>, blocks: seq<Block>, category: string)
    ensures AddsWithoutWebsite(m, RunBlocks(m, blocks, category).rows, category)
    decreases |blocks|
  {
    if blocks != [] {
      var a := Decide(blocks[0]);
      if !a.Raise? {
        var m' := Stored(m, a, category);
        RunBlocksAddsWithoutWebsite(m', blocks[1..], category);
        AddsWithoutWebsiteTransitive(m, m', RunBlocks(m', blocks[1..], category).rows, category);
      }
    }
  }

  /** The key every block of `blocks` that is stored would be stored under is already in `m`. */
  ghost predicate Covers(m: map<Key, Row>, blocks: seq<Block>, category: string)
  {
    forall i :: 0 <= i < |blocks| && Decide(blocks[i]).Store? ==> Key(Decide(blocks[i]).name, category) in m
  }

  /** A run that ends without an exception leaves a table that covers its blocks. */
  lemma {:induction false} RunBlocksCovers(m: map<Key, Row>, blocks: seq<Block>, category: string)
    requires RunBlocks(m, blocks, category).fault == None
    ensures Covers(RunBlocks(m, blocks, category).rows, blocks, category)
    decreases |blocks|
  {
    if blocks != [] {
      var a := Decide(blocks[0]);
      var m' := Stored(m, a, category);
      var r := RunBlocks(m', blocks[1..], category).rows;
      RunBlocksCovers(m', blocks[1..], category);
      RunBlocksAddsWithoutWebsite(m', blocks[1..], category);
      forall i | 0 <= i < |blocks| && Decide(blocks[i]).Store?
        ensures Key(Decide(blocks[i]).name, category) in r
      {
        if i > 0 {
          assert blocks[i] == blocks[1..][i - 1];
        }
      }
    }
  }

  /** Over a table that covers them, blocks that raise nothing change nothing. */
  lemma {:induction false} CoveredRunIsNoOp(m: map<Key, Row>, blocks: seq<Block>, category: string)
    requires Covers(m, blocks, category)
    requires forall i :: 0 <= i < |blocks| ==> !Decide(blocks[i]).Raise?
    ensures RunBlocks(m, blocks, category) == PageRun(m, None)
    decreases |blocks|
  {
    if blocks != [] {
      var a := Decide(blocks[0]);
      assert Stored(m, a, category) == m;
      forall i | 0 <= i < |blocks| - 1 && Decide(blocks[1..][i]).Store?
        ensures Key(Decide(blocks[1..][i]).name, category) in m
      {
        assert blocks[1..][i] == blocks[i + 1];
      }
      forall i | 0 <= i < |blocks| - 1
        ensures !Decide(blocks[1..][i]).Raise?
      {
        assert blocks[1..][i] == blocks[i + 1];
      }
      CoveredRunIsNoOp(m, blocks[1..], category);
    }
  }

  /** A run that ends without an exception met no block that raises. */
  lemma {:induction false} CleanRunRaisesNothing(m: map<Key, Row>, blocks: seq<Block>, category: string)
    requires RunBlocks(m, blocks, category).fault == None
    ensures forall i :: 0 <= i < |blocks| ==> !Decide(blocks[i]).Raise?
    decreases |blocks|
  {
    if blocks != [] {
      var a := Decide(blocks[0]);
      CleanRunRaisesNothing(Stored(m, a, category), blocks[1..], category);
      forall i | 0 <= i < |blocks|
        ensures !Decide(blocks[i]).Raise?
      {
        if i > 0 {
          assert blocks[i] == blocks[1..][i - 1];
        }
      }
    }
  }

  /**
   * Processing the same blocks again, as a second crawl of the same
   * category does, adds no duplicate and changes nothing, and it ends the
   * same way: a page stopped by an uncaught exception raises it again.
   */
  lemma RerunChangesNothing(m: map<Key, Row>, blocks: seq<Block>, category: string)
    ensures var once := RunBlocks(m, blocks, category);
      RunBlocks(once.rows, blocks, category) == once
  {
    RerunFrom(m, RunBlocks(m, blocks, category).rows, blocks, category);
  }

  /** Over the table a run leaves, the same blocks change nothing and raise the same exception. */
  lemma {:induction false} RerunFrom(m: map<Key, Row>, m2: map<Key, Row>, blocks: seq<Block>, category: string)
    requires m2 == RunBlocks(m, blocks, category).rows
    ensures RunBlocks(m2, blocks, category) == PageRun(m2, RunBlocks(m, blocks, category).fault)
    decreases |blocks|
  {
    if blocks != [] {
      var a := Decide(blocks[0]);
      if !a.Raise? {
        var m' := Stored(m, a, category);
        RunBlocksAddsWithoutWebsite(m', blocks[1..], category);
        assert Stored(m2, a, category) == m2;
        RerunFrom(m', m2, blocks[1..], category);
      }
    }
  }

  // Properties of the crawl.

  /** The crawl visits the start URL first and at most `fuel` pages; it runs out of fuel only after `fuel` pages. */
  lemma {:induction false} CrawlLength(url: string, m: map<Key, Row>, category: string, fetch: string -> Option<Page>,
                                       fuel: nat)
    ensures var c := CrawlFrom(url, m, category, fetch, fuel);
      && |c.visited| <= fuel
      && (fuel > 0 ==> |c.visited| > 0 && c.visited[0] == url)
      && (c.outcome == OutOfFuel ==> |c.visited| == fuel)
    decreases fuel
  {
    if fuel > 0 {
      var step := ProcessPageEffect(url, m, category, fetch);
      if step.ret.Returned? && Truthy(step.ret.next) {
        CrawlLength(step.ret.next.value, step.rows, category, fetch, fuel - 1);
      }
    }
  }

  /** Each visited page after the first is the `href` of the previous page's next link. */
  lemma {:induction false} CrawlFollowsLinks(url: string, m: map<Key, Row>, category: string,
                                             fetch: string -> Option<Page>, fuel: nat)
    ensures FollowsLinks(fetch, CrawlFrom(url, m, category, fetch, fuel).visited)
    decreases fuel
  {
    if fuel > 0 {
      var step := ProcessPageEffect(url, m, category, fetch);
      if step.ret.Returned? && Truthy(step.ret.next) {
        var next := step.ret.next.value;
        var rest := CrawlFrom(next, step.rows, category, fetch, fuel - 1);
        CrawlFollowsLinks(next, step.rows, category, fetch, fuel - 1);
        CrawlLength(next, step.rows, category, fetch, fuel - 1);
        FollowsLinksCons(fetch, url, rest.visited);
      }
    }
  }

  /**
   * A crawl that completes stops at a page that failed to load or has no
   * non-empty next link: nothing after it is fetched.
   */
  lemma {:induction false} CrawlStopsAtLastPage(url: string, m: map<Key, Row>, category: string,
                                                fetch: string -> Option<Page>, fuel: nat)
    ensures var c := CrawlFrom(url, m, category, fetch, fuel);
      c.outcome == Completed ==> c.visited != [] && IsLastPage(fetch, c.visited[|c.visited| - 1])
    decreases fuel
  {
    if fuel > 0 {
      var step := ProcessPageEffect(url, m, category, fetch);
      if step.ret.Returned? {
        if Truthy(step.ret.next) {
          var rest := CrawlFrom(step.ret.next.value, step.rows, category, fetch, fuel - 1);
          CrawlStopsAtLastPage(step.ret.next.value, step.rows, category, fetch, fuel - 1);
          if rest.outcome == Completed {
            LastOfCons(url, rest.visited);
          }
        } else if fetch(url).Some? {
          NoNextUrl(fetch(url).value.next);
        }
      }
    }
  }

  /** A start page that fails to load ends the crawl at once, with the table untouched. */
  lemma StopsOnFailedFetch(url: string, m: map<Key, Row>, category: string, fetch: string -> Option<Page>, fuel: nat)
    requires fuel > 0 && fetch(url).None?
    ensures CrawlFrom(url, m, category, fetch, fuel) == CrawlRun([url], m, Completed)
  {
  }

  /**
   * Over a whole crawl every row is kept, and every row added is keyed by
   * the crawl's category and has no website.
   */
  lemma {:induction false} CrawlAddsWithoutWebsite(url: string, m: map<Key, Row>, category: string,
                                                   fetch: string -> Option<Page>, fuel: nat)
    ensures AddsWithoutWebsite(m, CrawlFrom(url, m, category, fetch, fuel).rows, category)
    decreases fuel
  {
    if fuel > 0 {
      var step := ProcessPageEffect(url, m, category, fetch);
      match fetch(url)
      case None =>
      case Some(page) => RunBlocksAddsWithoutWebsite(m, page.blocks, category);
      if step.ret.Returned? && Truthy(step.ret.next) {
        CrawlAddsWithoutWebsite(step.ret.next.value, step.rows, category, fetch, fuel - 1);
        AddsWithoutWebsiteTransitive(m, step.rows,
          CrawlFrom(step.ret.next.value, step.rows, category, fetch, fuel - 1).rows, category);
      }
    }
  }

  /**
   * The start URL carries the encoded category while rows are stored under
   * the stripped input; the two differ exactly when that input has a space.
   */
  lemma RawAndEncodedCategory(input: string, fetch: string -> Option<Page>, m: map<Key, Row>, fuel: nat)
    requires fuel > 0
    ensures var category := Category.Strip(input);
      var c := CrawlFrom(Category.StartUrl(Category.EncodeSpaces(category)), m, category, fetch, fuel);
      && c.visited[0] == Category.StartUrl(Category.EncodeSpaces(category))
      && (forall k :: k in c.rows && k !in m ==> k.category == category)
      && (Category.EncodeSpaces(category) == category <==> ' ' !in category)
  {
    var category := Category.Strip(input);
    var url := Category.StartUrl(Category.EncodeSpaces(category));
    CrawlLength(url, m, category, fetch, fuel);
    CrawlAddsWithoutWebsite(url, m, category, fetch, fuel);
  }
}
