/** Paged retrieval of news inside an inclusive date window: a paged loop that refines one pass. */
module AlpacaNews {
  import opened Sequences

  datatype Article = Article(newsId: string, createdAt: int, updatedAt: int, body: string)

  /** An array element of a news response; `Unmappable` ones lack a required field. */
  datatype Item = Unmappable | Mapped(article: Article)

  datatype Token = NoToken | Next(text: string) | Malformed

  /** A response object; its `news` member may not be an array. */
  datatype Page = Page(news: Option<seq<Item>>, next: Token)

  /** The provider's answer to the k-th request with a page token; `None` when loading fails. */
  type Feed = (nat, Option<string>) -> Option<Page>

  datatype Window = Window(start: int, end: int)

  const DAY: int := 86_400_000_000

  /** From the first microsecond of the first day to the last one of the last day. */
  function NewsWindow(startDate: int, endDate: int): (w: Window) {
    Window(startDate * DAY, (endDate + 1) * DAY - 1)
  }

  // ----- one pass over a list of items -----

  /** The keys of the filter statistics. */
  datatype Reason = BeforeStart | DuplicateNewsId | TimestampAmbiguous | AfterResearchAsOf

  datatype Tally = Tally(raw: nat, records: seq<Article>, seen: set<string>, filtered: nat, reasons: map<Reason, nat>)

  const EMPTY := Tally(0, [], {}, 0, map[])

  function Get(m: map<Reason, nat>, key: Reason): nat { if key in m then m[key] else 0 }

  function Bump(m: map<Reason, nat>, key: Reason): map<Reason, nat> { m[key := Get(m, key) + 1] }

  /** The pass goes on, or an article outside the cutoff or an unreadable item has ended it. */
  datatype Pass = Going(t: Tally) | Refused(t: Tally, reason: Reason, newsId: string) | Unreadable

  function Look(w: Window, t: Tally, item: Item): Pass {
    match item
    case Unmappable => Unreadable
    case Mapped(a) =>
      var t := t.(raw := t.raw + 1);
      if a.updatedAt < a.createdAt then Refused(t, TimestampAmbiguous, a.newsId)
      else if a.createdAt > w.end || a.updatedAt > w.end then Refused(t, AfterResearchAsOf, a.newsId)
      else if a.createdAt < w.start then Going(t.(filtered := t.filtered + 1, reasons := Bump(t.reasons, BeforeStart)))
      else if a.newsId in t.seen then Going(t.(filtered := t.filtered + 1, reasons := Bump(t.reasons, DuplicateNewsId)))
      else Going(t.(records := t.records + [a], seen := t.seen + {a.newsId}))
  }

  function PassFrom(w: Window, p: Pass, items: seq<Item>, n: nat): Pass
    requires n <= |items|
  {
    if n == 0 then p
    else match PassFrom(w, p, items, n - 1)
      case Going(t) => Look(w, t, items[n - 1])
      case Refused(t, reason, id) => Refused(t, reason, id)
      case Unreadable => Unreadable
  }

  function OnePass(w: Window, items: seq<Item>): Pass { PassFrom(w, Going(EMPTY), items, |items|) }

  lemma {:induction false} PassStopped(w: Window, p: Pass, items: seq<Item>, i: nat, n: nat)
    requires i <= n <= |items| && !PassFrom(w, p, items, i).Going?
    ensures PassFrom(w, p, items, n) == PassFrom(w, p, items, i)
    decreases n
  {
    if i < n {
      PassStopped(w, p, items, i, n - 1);
    }
  }

  /** Where the list is cut makes no difference to the pass. */
  lemma {:induction false} PassConcat(w: Window, p: Pass, a: seq<Item>, b: seq<Item>, n: nat)
    requires n <= |b|
    ensures PassFrom(w, p, a + b, |a| + n) == PassFrom(w, PassFrom(w, p, a, |a|), b, n)
  {
    if n > 0 {
      PassConcat(w, p, a, b, n - 1);
      assert (a + b)[|a| + n - 1] == b[n - 1];
    } else {
      PassPrefix(w, p, a, b, |a|);
    }
  }

  lemma {:induction false} PassPrefix(w: Window, p: Pass, a: seq<Item>, b: seq<Item>, n: nat)
    requires n <= |a|
    ensures PassFrom(w, p, a + b, n) == PassFrom(w, p, a, n)
  {
    if n > 0 {
      PassPrefix(w, p, a, b, n - 1);
    }
  }

  // ----- what the pass computes, read off the list -----

  /** Published and last changed before the cutoff, in that order. */
  predicate Sound(w: Window, item: Item) {
    item.Mapped? && item.article.createdAt <= item.article.updatedAt <= w.end
  }

  predicate Inside(w: Window, item: Item) { item.Mapped? && w.start <= item.article.createdAt }

  predicate IsFirst(w: Window, items: seq<Item>, i: nat)
    requires i < |items|
  {
    && Inside(w, items[i])
    && forall j :: 0 <= j < i && Inside(w, items[j]) ==> items[j].article.newsId != items[i].article.newsId
  }

  /** The first in-window article of each id, in order. */
  function Firsts(w: Window, items: seq<Item>, n: nat): seq<Article>
    requires n <= |items|
  {
    if n == 0 then []
    else
      var before := Firsts(w, items, n - 1);
      if IsFirst(w, items, n - 1) then before + [items[n - 1].article] else before
  }

  function CountOutside(w: Window, items: seq<Item>, n: nat): nat
    requires n <= |items|
  {
    if n == 0 then 0 else CountOutside(w, items, n - 1) + if Inside(w, items[n - 1]) then 0 else 1
  }

  predicate Balanced(t: Tally) {
    && t.raw == |t.records| + t.filtered
    && t.filtered == Get(t.reasons, BeforeStart) + Get(t.reasons, DuplicateNewsId)
  }

  predicate AllSound(w: Window, items: seq<Item>, n: nat)
    requires n <= |items|
  {
    forall i :: 0 <= i < n ==> Sound(w, items[i])
  }

  /** `seen` holds the ids of the in-window articles. */
  ghost predicate SeenIds(w: Window, items: seq<Item>, n: nat, seen: set<string>)
    requires n <= |items|
  {
    && (forall i :: 0 <= i < n && Inside(w, items[i]) ==> items[i].article.newsId in seen)
    && (forall id :: id in seen ==> exists i :: 0 <= i < n && Inside(w, items[i]) && items[i].article.newsId == id)
  }

  ghost predicate Screened(w: Window, items: seq<Item>, n: nat, t: Tally)
    requires n <= |items|
  {
    && t.raw == n && t.records == Firsts(w, items, n) && Balanced(t)
    && SeenIds(w, items, n, t.seen)
    && Get(t.reasons, BeforeStart) == CountOutside(w, items, n)
  }

  lemma BumpBalanced(t: Tally, key: Reason)
    requires Balanced(t) && key in {BeforeStart, DuplicateNewsId}
    ensures Balanced(t.(raw := t.raw + 1, filtered := t.filtered + 1, reasons := Bump(t.reasons, key)))
  {}

  lemma ScreenedNext(w: Window, items: seq<Item>, n: nat, t: Tally)
    requires n < |items| && Screened(w, items, n, t) && Sound(w, items[n])
    ensures Look(w, t, items[n]).Going? && Screened(w, items, n + 1, Look(w, t, items[n]).t)
  {
    var a := items[n].article;
    BumpBalanced(t, BeforeStart);
    BumpBalanced(t, DuplicateNewsId);
    if Inside(w, items[n]) {
      assert IsFirst(w, items, n) <==> a.newsId !in t.seen;
    }
  }

  lemma BlankScreened(w: Window, items: seq<Item>, t: Tally)
    requires t.raw == 0 && t.records == [] && t.filtered == 0 && Balanced(t) && Get(t.reasons, BeforeStart) == 0
    requires SeenIds(w, items, 0, t.seen)
    ensures Screened(w, items, 0, t)
  {}

  lemma NothingScreened(w: Window, items: seq<Item>, t: Tally)
    requires t == EMPTY
    ensures Screened(w, items, 0, t)
  {
    EmptyBalanced();
    NoneSeen(w, items);
    BlankScreened(w, items, t);
  }

  lemma NoneSeen(w: Window, items: seq<Item>)
    ensures SeenIds(w, items, 0, EMPTY.seen)
  {}

  lemma EmptyBalanced()
    ensures Balanced(EMPTY) && Get(EMPTY.reasons, BeforeStart) == 0
  {}

  lemma LookGoes(w: Window, t: Tally, item: Item)
    ensures Look(w, t, item).Going? <==> Sound(w, item)
  {}

  /** The pass goes through exactly on sound lists. */
  lemma {:induction false} PassGoes(w: Window, items: seq<Item>, n: nat)
    requires n <= |items|
    ensures PassFrom(w, Going(EMPTY), items, n).Going? <==> AllSound(w, items, n)
  {
    if n > 0 {
      PassGoes(w, items, n - 1);
      if AllSound(w, items, n - 1) {
        LookGoes(w, PassFrom(w, Going(EMPTY), items, n - 1).t, items[n - 1]);
      }
    }
  }

  /** And then it has collected the first in-window articles. */
  lemma {:induction false} PassScreens(w: Window, items: seq<Item>, n: nat)
    requires n <= |items| && AllSound(w, items, n)
    ensures PassFrom(w, Going(EMPTY), items, n).Going?
    ensures Screened(w, items, n, PassFrom(w, Going(EMPTY), items, n).t)
  {
    if n == 0 {
      NothingScreened(w, items, EMPTY);
    } else {
      PassScreens(w, items, n - 1);
      var p := PassFrom(w, Going(EMPTY), items, n - 1);
      ScreenedNext(w, items, n - 1, p.t);
      assert PassFrom(w, Going(EMPTY), items, n) == Look(w, p.t, items[n - 1]);
    }
  }

  /** A refused article is counted once more than what was accepted and filtered before it. */
  lemma RefusedBalance(w: Window, items: seq<Item>)
    requires OnePass(w, items).Refused?
    ensures var t := OnePass(w, items).t;
            && t.raw == |t.records| + t.filtered + 1
            && t.filtered == Get(t.reasons, BeforeStart) + Get(t.reasons, DuplicateNewsId)
  {
    RefusedAt(w, items, |items|);
  }

  lemma {:induction false} RefusedAt(w: Window, items: seq<Item>, n: nat)
    requires n <= |items| && PassFrom(w, Going(EMPTY), items, n).Refused?
    ensures var t := PassFrom(w, Going(EMPTY), items, n).t;
            && t.raw == |t.records| + t.filtered + 1
            && t.filtered == Get(t.reasons, BeforeStart) + Get(t.reasons, DuplicateNewsId)
  {
    if PassFrom(w, Going(EMPTY), items, n - 1).Refused? {
      RefusedAt(w, items, n - 1);
    } else {
      PassGoes(w, items, n - 1);
      PassScreens(w, items, n - 1);
    }
  }

  /** The article that ends a pass is the first unsound one, and the reason says what is wrong with it. */
  lemma {:induction false} RefusalIsExplained(w: Window, items: seq<Item>, n: nat)
    requires n <= |items| && PassFrom(w, Going(EMPTY), items, n).Refused?
    ensures var p := PassFrom(w, Going(EMPTY), items, n);
            exists i ::
              0 <= i < n && AllSound(w, items, i) && items[i].Mapped?
                && Explains(w, items[i].article, p.reason, p.newsId)
  {
    var before := PassFrom(w, Going(EMPTY), items, n - 1);
    if before.Refused? {
      RefusalIsExplained(w, items, n - 1);
    } else {
      PassGoes(w, items, n - 1);
      assert Explains(w, items[n - 1].article, Look(w, before.t, items[n - 1]).reason, items[n - 1].article.newsId);
    }
  }

  predicate Explains(w: Window, a: Article, reason: Reason, newsId: string) {
    && newsId == a.newsId && !Sound(w, Mapped(a))
    && reason == (if a.updatedAt < a.createdAt then TimestampAmbiguous else AfterResearchAsOf)
  }

  // ----- pagination -----

  /** The token that requests page `k`. */
  function TokenAt(feed: Feed, k: nat): Option<string>
    decreases k, 0
  {
    if k == 0 then None else NextAt(feed, k - 1)
  }

  /** The token that page `k` carries. */
  function NextAt(feed: Feed, k: nat): Option<string>
    decreases k, 1
  {
    match feed(k, TokenAt(feed, k)) case Some(Page(_, Next(text))) => Some(text) case _ => None
  }

  function PageAt(feed: Feed, k: nat): Option<Page> { feed(k, TokenAt(feed, k)) }

  function NewsAt(feed: Feed, k: nat): seq<Item> {
    match PageAt(feed, k) case Some(Page(Some(news), _)) => news case _ => []
  }

  function AllItems(feed: Feed, n: nat): seq<Item> {
    if n == 0 then [] else AllItems(feed, n - 1) + NewsAt(feed, n - 1)
  }

  predicate Readable(feed: Feed, k: nat) { PageAt(feed, k).Some? && PageAt(feed, k).value.news.Some? }

  function Carried(feed: Feed): nat -> Option<string> { (k: nat) => NextAt(feed, k) }

  /** A token that no earlier page carried. */
  ghost predicate Fresh(carried: nat -> Option<string>, k: nat) {
    carried(k).Some? && forall j :: 0 <= j < k ==> carried(j) != carried(k)
  }

  ghost predicate FreshToken(feed: Feed, k: nat) { Fresh(Carried(feed), k) }

  /** The first `n` pages were read to their ends and each led on to another. */
  ghost predicate Followed(feed: Feed, w: Window, n: nat) {
    && (forall k :: 0 <= k < n ==> Readable(feed, k) && FreshToken(feed, k))
    && OnePass(w, AllItems(feed, n)).Going?
  }

  datatype FetchError =
    | EmptyWindow
    | PageUnavailable
    | ItemInvalid
    | ArticleRejected(reason: Reason, newsId: string)
    | TokenInvalid
    | SafetyLimit

  datatype Diagnostics = Diagnostics(ok: bool, window: Window, raw: nat, accepted: nat, filtered: nat, rejected: nat,
                                     reasons: map<Reason, nat>, pages: nat)

  function Report(w: Window, t: Tally, pages: nat): Diagnostics {
    Diagnostics(true, w, t.raw, |t.records|, t.filtered, 0, t.reasons, pages)
  }

  function RejectionReport(w: Window, t: Tally, reason: Reason, pages: nat): Diagnostics {
    Diagnostics(false, w, t.raw, |t.records|, t.filtered, 1, Bump(t.reasons, reason), pages)
  }

  type Fetched = Result<seq<Article>, FetchError>

  /** How a retrieval ends that has followed `n` pages; `before` are the diagnostics it found. */
  ghost predicate Ends(feed: Feed, w: Window, maxPages: nat, n: nat, before: Option<Diagnostics>, r: Fetched,
                       d: Option<Diagnostics>)
  {
    if n == maxPages then r == Err(SafetyLimit) && d == before
    else if !Readable(feed, n) then r == Err(PageUnavailable) && d == before
    else match OnePass(w, AllItems(feed, n + 1))
      case Unreadable => r == Err(ItemInvalid) && d == before
      case Refused(t, reason, id) => r == Err(ArticleRejected(reason, id))
        && d == Some(RejectionReport(w, t, reason, n + 1))
      case Going(t) =>
        if PageAt(feed, n).value.next.NoToken? then r == Ok(t.records) && d == Some(Report(w, t, n + 1))
        else !FreshToken(feed, n) && r == Err(TokenInvalid) && d == before
  }

  ghost predicate TokensSeen(carried: nat -> Option<string>, n: nat, seen: set<string>) {
    && (forall k :: 0 <= k < n && carried(k).Some? ==> carried(k).value in seen)
    && (forall x :: x in seen ==> exists k :: 0 <= k < n && carried(k) == Some(x))
  }

  lemma SeenOrFresh(carried: nat -> Option<string>, k: nat, seen: set<string>)
    requires TokensSeen(carried, k, seen)
    ensures Fresh(carried, k) <==> carried(k).Some? && carried(k).value !in seen
    ensures carried(k).Some? ==> TokensSeen(carried, k + 1, seen + {carried(k).value})
  {
    if carried(k).Some? {
      var more := seen + {carried(k).value};
      forall x | x in more ensures exists j :: 0 <= j < k + 1 && carried(j) == Some(x) {
        if x in seen {
          var j :| 0 <= j < k && carried(j) == Some(x);
        } else {
          assert carried(k) == Some(x);
        }
      }
    }
  }

  lemma AllItemsNext(feed: Feed, w: Window, k: nat, items: seq<Item>)
    requires OnePass(w, AllItems(feed, k)).Going? && items == NewsAt(feed, k)
    ensures OnePass(w, AllItems(feed, k + 1)) == PassFrom(w, OnePass(w, AllItems(feed, k)), items, |items|)
  {
    PassConcat(w, Going(EMPTY), AllItems(feed, k), items, |items|);
  }

  class AlpacaAdapter {
    const maxPages: nat

    var lastNewsFetchDiagnostics: Option<Diagnostics>

    constructor (maxPages: nat)
      ensures this.maxPages == maxPages && lastNewsFetchDiagnostics == None
    {
      this.maxPages, lastNewsFetchDiagnostics := maxPages, None;
    }

    /** One page's items, on top of the tally of the pages before. */
    method ScanPage(w: Window, start: Tally, items: seq<Item>) returns (p: Pass)
      ensures p == PassFrom(w, Going(start), items, |items|)
    {
      var t := start;
      for i := 0 to |items|
        invariant PassFrom(w, Going(start), items, i) == Going(t)
      {
        var next := Look(w, t, items[i]);
        if !next.Going? {
          PassStopped(w, Going(start), items, i + 1, |items|);
          return next;
        }
        t := next.t;
      }
      p := Going(t);
    }

    /** Page `k`: either the retrieval ends with it, or it leads on. */
    method FetchPage(feed: Feed, w: Window, k: nat, token: Option<string>, start: Tally, seenTokens: set<string>)
      returns (done: Option<Fetched>, t: Tally, next: string)
      requires k < maxPages && Followed(feed, w, k) && token == TokenAt(feed, k)
      requires OnePass(w, AllItems(feed, k)) == Going(start) && TokensSeen(Carried(feed), k, seenTokens)
      modifies this
      ensures done.Some? ==>
        Ends(feed, w, maxPages, k, old(lastNewsFetchDiagnostics), done.value, lastNewsFetchDiagnostics)
      ensures done.None? ==>
                && lastNewsFetchDiagnostics == old(lastNewsFetchDiagnostics)
                && Followed(feed, w, k + 1) && OnePass(w, AllItems(feed, k + 1)) == Going(t)
                && TokenAt(feed, k + 1) == Some(next) && TokensSeen(Carried(feed), k + 1, seenTokens + {next})
    {
      t, next := start, "";
      var page := feed(k, token);
      if page.None? || page.value.news.None? {
        return Some(Err(PageUnavailable)), t, next;
      }
      var items := page.value.news.value;
      var p := ScanPage(w, start, items);
      AllItemsNext(feed, w, k, items);
      match p {
        case Unreadable => return Some(Err(ItemInvalid)), t, next;
        case Refused(stopped, reason, id) =>
          lastNewsFetchDiagnostics := Some(RejectionReport(w, stopped, reason, k + 1));
          return Some(Err(ArticleRejected(reason, id))), t, next;
        case Going(more) => t := more;
      }
      if page.value.next.NoToken? {
        lastNewsFetchDiagnostics := Some(Report(w, t, k + 1));
        return Some(Ok(t.records)), t, next;
      }
      SeenOrFresh(Carried(feed), k, seenTokens);
      if page.value.next.Malformed? || page.value.next.text in seenTokens {
        return Some(Err(TokenInvalid)), t, next;
      }
      done, next := None, page.value.next.text;
    }

    method FetchPages(feed: Feed, w: Window) returns (r: Fetched, ghost n: nat)
      modifies this
      ensures n <= maxPages && Followed(feed, w, n)
      ensures Ends(feed, w, maxPages, n, old(lastNewsFetchDiagnostics), r, lastNewsFetchDiagnostics)
    {
      var t, seenTokens: set<string>, token: Option<string> := EMPTY, {}, None;
      for k := 0 to maxPages
        invariant Followed(feed, w, k) && token == TokenAt(feed, k)
        invariant OnePass(w, AllItems(feed, k)) == Going(t) && TokensSeen(Carried(feed), k, seenTokens)
        invariant lastNewsFetchDiagnostics == old(lastNewsFetchDiagnostics)
      {
        var done, more, next := FetchPage(feed, w, k, token, t, seenTokens);
        if done.Some? {
          return done.value, k;
        }
        t, token, seenTokens := more, Some(next), seenTokens + {next};
      }
      r, n := Err(SafetyLimit), maxPages;
    }

    method FetchDocuments(feed: Feed, symbols: seq<string>, startDate: int, endDate: int) returns (r: Fetched)
      modifies this
      ensures endDate < startDate ==> r == Err(EmptyWindow) && lastNewsFetchDiagnostics == old(lastNewsFetchDiagnostics)
      ensures startDate <= endDate && symbols == [] ==>
        r == Ok([]) && lastNewsFetchDiagnostics == old(lastNewsFetchDiagnostics)
      ensures startDate <= endDate && symbols != [] ==>
                exists n: nat :: n <= maxPages && Followed(feed, NewsWindow(startDate, endDate), n)
                  && Ends(feed, NewsWindow(startDate, endDate), maxPages, n, old(lastNewsFetchDiagnostics), r,
                          lastNewsFetchDiagnostics)
    {
      if endDate < startDate {
        return Err(EmptyWindow);
      }
      if symbols == [] {
        return Ok([]);
      }
      ghost var n;
      r, n := FetchPages(feed, NewsWindow(startDate, endDate));
    }
  }

  // ----- the paged loop refines one pass -----

  /** On success: the first in-window article of each id over all pages together, and honest counts. */
  lemma SuccessIsOnePass(feed: Feed, w: Window, maxPages: nat, n: nat, before: Option<Diagnostics>, r: Fetched,
                         d: Option<Diagnostics>)
    requires n <= maxPages && Followed(feed, w, n) && Ends(feed, w, maxPages, n, before, r, d) && r.Ok?
    ensures var items := AllItems(feed, n + 1);
            && AllSound(w, items, |items|) && r.value == Firsts(w, items, |items|)
            && d.Some? && d.value.ok && d.value.raw == |items| && d.value.accepted == |r.value|
            && d.value.raw == d.value.accepted + d.value.filtered
            && d.value.filtered == Get(d.value.reasons, BeforeStart) + Get(d.value.reasons, DuplicateNewsId)
            && Get(d.value.reasons, BeforeStart) == CountOutside(w, items, |items|)
  {
    PassGoes(w, AllItems(feed, n + 1), |AllItems(feed, n + 1)|);
    PassScreens(w, AllItems(feed, n + 1), |AllItems(feed, n + 1)|);
  }

  /** A rejection counts one article that is neither accepted nor filtered. */
  lemma RejectionIsCounted(feed: Feed, w: Window, maxPages: nat, n: nat, before: Option<Diagnostics>, r: Fetched,
                           d: Option<Diagnostics>)
    requires n <= maxPages && Followed(feed, w, n) && Ends(feed, w, maxPages, n, before, r, d)
    requires r.Err? && r.error.ArticleRejected?
    ensures d.Some? && !d.value.ok && d.value.rejected == 1
    ensures d.value.raw == d.value.accepted + d.value.filtered + 1
    ensures Get(d.value.reasons, r.error.reason) >= 1
  {
    RefusedBalance(w, AllItems(feed, n + 1));
  }

  // ----- how the pages are cut -----

  /** The provider delivers `items` in `c` pages: readable, each but the last with a new token, the last with none. */
  ghost predicate Cut(feed: Feed, items: seq<Item>, c: nat) {
    && c > 0 && AllItems(feed, c) == items
    && (forall k :: 0 <= k < c ==> Readable(feed, k))
    && (forall k :: 0 <= k < c - 1 ==> FreshToken(feed, k))
    && Readable(feed, c - 1) && PageAt(feed, c - 1).value.next.NoToken?
  }

  lemma LastPageEnds(feed: Feed, items: seq<Item>, c: nat)
    requires Cut(feed, items, c)
    ensures NextAt(feed, c - 1) == None && !FreshToken(feed, c - 1)
  {}

  lemma {:induction false} PagesArePrefix(feed: Feed, n: nat, c: nat)
    requires n <= c
    ensures |AllItems(feed, n)| <= |AllItems(feed, c)| && AllItems(feed, n) == AllItems(feed, c)[..|AllItems(feed, n)|]
    decreases c
  {
    if n < c {
      PagesArePrefix(feed, n, c - 1);
    }
  }

  /** A pass that stops on the first pages stops there on all of them. */
  lemma StopsEarly(w: Window, feed: Feed, items: seq<Item>, n: nat, c: nat)
    requires Cut(feed, items, c) && n <= c && !OnePass(w, AllItems(feed, n)).Going?
    ensures OnePass(w, items) == OnePass(w, AllItems(feed, n))
  {
    PagesArePrefix(feed, n, c);
    var first := AllItems(feed, n);
    assert items == first + items[|first|..];
    PassPrefix(w, Going(EMPTY), first, items[|first|..], |first|);
    PassStopped(w, Going(EMPTY), items, |first|, |items|);
  }

  /** A retrieval of a cut list ends within it. */
  lemma EndsWithin(feed: Feed, w: Window, items: seq<Item>, c: nat, n: nat)
    requires Cut(feed, items, c) && Followed(feed, w, n)
    ensures n < c
  {
    LastPageEnds(feed, items, c);
  }

  /** The result that one pass over the list gives. */
  predicate Settles(w: Window, items: seq<Item>, r: Fetched, d: Option<Diagnostics>, before: Option<Diagnostics>) {
    match OnePass(w, items)
    case Going(t) => r == Ok(t.records) && d.Some? && d.value.(pages := 0) == Report(w, t, 0)
    case Refused(t, reason, id) =>
      r == Err(ArticleRejected(reason, id)) && d.Some? && d.value.(pages := 0) == RejectionReport(w, t, reason, 0)
    case Unreadable => r == Err(ItemInvalid) && d == before
  }

  /**
   Whatever the cut, a list in few enough pages is retrieved as one pass says: the articles, the
   rejection, the counts and the success itself depend on the list alone.
   */
  lemma CutsDoNotMatter(feed: Feed, w: Window, maxPages: nat, items: seq<Item>, c: nat, n: nat,
                        before: Option<Diagnostics>, r: Fetched, d: Option<Diagnostics>)
    requires Cut(feed, items, c) && c <= maxPages
    requires n <= maxPages && Followed(feed, w, n) && Ends(feed, w, maxPages, n, before, r, d)
    ensures Settles(w, items, r, d, before)
  {
    EndsWithin(feed, w, items, c, n);
    if OnePass(w, AllItems(feed, n + 1)).Going? {
      LastPageEnds(feed, items, c);
      if n < c - 1 {
        assert FreshToken(feed, n);
        TokenOrNone(feed, n);
      }
    } else {
      StopsEarly(w, feed, items, n + 1, c);
    }
  }

  lemma TokenOrNone(feed: Feed, k: nat)
    requires FreshToken(feed, k)
    ensures PageAt(feed, k).Some? && PageAt(feed, k).value.next.Next?
  {}

  /** Two providers that cut one list differently give one result. */
  lemma SameListSameResult(feed: Feed, other: Feed, w: Window, maxPages: nat, items: seq<Item>, c: nat, c': nat, n: nat,
                           n': nat,
                           r: Fetched, r': Fetched, d: Option<Diagnostics>, d': Option<Diagnostics>)
    requires Cut(feed, items, c) && Cut(other, items, c') && c <= maxPages && c' <= maxPages
    requires n <= maxPages && Followed(feed, w, n) && Ends(feed, w, maxPages, n, None, r, d)
    requires n' <= maxPages && Followed(other, w, n') && Ends(other, w, maxPages, n', None, r', d')
    ensures r == r' && (d.Some? <==> d'.Some?) && (d.Some? ==> d.value.(pages := 0) == d'.value.(pages := 0))
    ensures r.Ok? <==> AllSound(w, items, |items|)
  {
    CutsDoNotMatter(feed, w, maxPages, items, c, n, None, r, d);
    CutsDoNotMatter(other, w, maxPages, items, c', n', None, r', d');
    PassGoes(w, items, |items|);
  }
}
