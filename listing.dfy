/**
 * A fetched directory page, already parsed: its `application/ld+json`
 * script blocks and its `.pagination-next a` element, together with the
 * ways reading them can fail.
 */
module Listing {
  import opened Wrappers

  /** What `json.loads(script.string)` makes of one script block. */
  datatype Block =
    | Object(fields: map<string, string>)  // a JSON object; its string-valued members
    | NotObject                            // valid JSON that is not an object: `.get` raises AttributeError
    | Undecodable                          // not JSON at all: JSONDecodeError
    | NoText                               // `script.string` is None: TypeError

  /** The result of `doc.select_one(".pagination-next a")`. */
  datatype NextLink =
    | NoLink                 // no such element
    | Link(href: string)     // the element and its `href`
    | LinkWithoutHref        // the element without `href`: `tag["href"]` raises KeyError

  datatype Page = Page(blocks: seq<Block>, next: NextLink)

  /** The Python exceptions the crawl can raise from the page it has fetched. */
  datatype Fault = JsonDecodeError | TypeError | AttributeError | KeyError

  /** What `process_page` gives back to `main`: the next URL or None, or an exception. */
  datatype PageReturn = Returned(next: Option<string>) | Raised(fault: Fault)

  /** How a crawl ends: the loop breaks, an exception escapes `main`, or the model's page budget runs out. */
  datatype Outcome = Completed | Aborted(fault: Fault) | OutOfFuel

  /** Python truthiness of a member that may be absent: present and not the empty string. */
  predicate Truthy(v: Option<string>)
  {
    v.Some? && v.value != ""
  }

  /** `data.get(key)`. */
  function Get(fields: map<string, string>, key: string): (v: Option<string>)
    ensures v.Some? <==> key in fields
    ensures v.Some? ==> v.value == fields[key]
  {
    if key in fields then Some(fields[key]) else None
  }

  /** The tail of `process_page`: `next_page_tag["href"] if next_page_tag else None`. */
  function NextUrl(next: NextLink): (r: PageReturn)
    ensures r.Raised? <==> next.LinkWithoutHref?
    ensures next.LinkWithoutHref? ==> r == Raised(KeyError)
    ensures r == Returned(None) <==> next.NoLink?
    ensures next.Link? ==> r == Returned(Some(next.href))
  {
    match next
    case NoLink => Returned(None)
    case Link(href) => Returned(Some(href))
    case LinkWithoutHref => Raised(KeyError)
  }

  /** Page `a` loaded and its next link points to the non-empty URL `b`. */
  ghost predicate LinksTo(fetch: string -> Option<Page>, a: string, b: string)
  {
    fetch(a).Some? && fetch(a).value.next == Link(b) && b != ""
  }

  /** Every URL of `v` after the first is the next link of the page before it. */
  ghost predicate FollowsLinks(fetch: string -> Option<Page>, v: seq<string>)
  {
    forall i :: 0 <= i < |v| - 1 ==> LinksTo(fetch, v[i], v[i + 1])
  }

  lemma FollowsLinksCons(fetch: string -> Option<Page>, url: string, rest: seq<string>)
    requires FollowsLinks(fetch, rest)
    requires rest != [] ==> LinksTo(fetch, url, rest[0])
    ensures FollowsLinks(fetch, [url] + rest)
  {
    var v := [url] + rest;
    forall i | 0 <= i < |v| - 1
      ensures LinksTo(fetch, v[i], v[i + 1])
    {
      if i > 0 {
        assert v[i] == rest[i - 1] && v[i + 1] == rest[i];
      }
    }
  }

  /** Page `u` ends a crawl: it failed to load, or its next link is missing or empty. */
  ghost predicate IsLastPage(fetch: string -> Option<Page>, u: string)
  {
    fetch(u).None? || fetch(u).value.next == NoLink || fetch(u).value.next == Link("")
  }

  /** A link that gives the loop nothing to follow is missing or empty. */
  lemma NoNextUrl(next: NextLink)
    requires NextUrl(next).Returned? && !Truthy(NextUrl(next).next)
    ensures next == NoLink || next == Link("")
  {
  }

  /** The last of `[x] + rest` is the last of `rest`. */
  lemma LastOfCons(x: string, rest: seq<string>)
    requires rest != []
    ensures ([x] + rest)[|rest|] == rest[|rest| - 1]
  {
  }
}
