/**
 * The token acquisition logic of src/lib/artblocks.ts. The GraphQL endpoint is an oracle: a
 * `Server` answers the request for (owner, offset, attempt) with a `Reply`, which is either an
 * HTTP response (status and GraphQL body) or an exception thrown by `fetch` or `json()`.
 * Timers are not modelled: the retry waits are returned as a list of milliseconds, the progress
 * callbacks as the list of values they were called with.
 */
module ArtBlocks {
  import opened Wrappers
  import opened Strings

  const PAGE_SIZE: nat := 100
  /** the default `retries` of fetchPage */
  const RETRIES: nat := 3
  const CONCURRENT_LIMIT: nat := 3

  // ---------------------------------------------------------------- data model

  /** `lowest_listing` is kept as an integer (it is only compared); `aspect_ratio` is left out. */
  datatype Project = Project(
    name: string,
    artistName: string,
    curationStatus: Option<string>,
    verticalName: Option<string>,
    description: string,
    maxInvocations: Option<int>,
    invocations: int,
    slug: string,
    lowestListing: Option<int>)

  datatype Token = Token(
    id: string,
    tokenId: string,
    projectName: string,
    mediaUrl: string,
    previewAssetUrl: string,
    invocation: int,
    project: Project)

  datatype TokenDetail = TokenDetail(
    token: Token,
    liveViewUrl: Option<string>,
    hash: string,
    mintedAt: Option<string>,
    ownerAddress: string,
    contractAddress: string,
    website: Option<string>,
    license: Option<string>,
    scriptTypeAndVersion: Option<string>)

  datatype UserProfile = UserProfile(
    id: int,
    username: Option<string>,
    name: Option<string>,
    bio: Option<string>,
    twitterUsername: Option<string>,
    instagramUsername: Option<string>,
    externalWebsite: Option<string>)

  datatype User = User(
    publicAddress: string,
    displayName: Option<string>,
    profileId: Option<int>,
    profile: Option<UserProfile>)

  datatype LinkedUser = LinkedUser(publicAddress: string)

  datatype LinkedWalletsResult = LinkedWalletsResult(
    profile: Option<UserProfile>,
    linkedWallets: seq<string>,
    displayName: Option<string>)

  // ---------------------------------------------------------------- the remote API

  /** A GraphQL body: the rows under `data`, or an `errors` array (with its first message, if any). */
  datatype Body<T> = Data(rows: seq<T>) | Errors(firstMessage: Option<string>)

  /** What one `fetch` + `json()` comes back with. */
  datatype Reply<T> = Response(status: int, body: Body<T>) | Thrown(message: string)

  /** `response.ok` */
  predicate IsOk(status: int) {
    200 <= status <= 299
  }

  /** the token-page endpoint, asked for (lower-cased owner, offset, attempt number) */
  type Server = (string, nat, nat) -> Reply<Token>

  datatype FetchError =
    | ApiError(status: int)         // `API error: ${status}`
    | GraphQLError(message: string) // `errors[0]?.message || "GraphQL error"`
    | NetworkError(message: string) // whatever fetch or json() threw

  /** JavaScript's `s || null` on an optional string: the empty string counts as missing. */
  function Truthy(s: Option<string>): (r: Option<string>)
    ensures r.Some? <==> s.Some? && s.value != ""
    ensures r.Some? ==> r == s
  {
    if s == Some("") then None else s
  }

  function GraphQLMessage(first: Option<string>): (m: string)
    ensures m != ""
    ensures Truthy(first).Some? ==> m == first.value
  {
    match Truthy(first)
    case Some(msg) => msg
    case None => "GraphQL error"
  }

  // ---------------------------------------------------------------- fetchPage

  /** The reply that fetchPage returns rows for: an OK status with a body without `errors`. */
  predicate Succeeds<T>(reply: Reply<T>) {
    reply.Response? && IsOk(reply.status) && reply.body.Data?
  }

  /** The error a failed attempt throws. */
  function ErrorOf<T>(reply: Reply<T>): FetchError {
    match reply
    case Thrown(msg) => NetworkError(msg)
    case Response(status, body) =>
      if !IsOk(status) then ApiError(status)
      else if body.Errors? then GraphQLError(GraphQLMessage(body.firstMessage))
      else GraphQLError("GraphQL error")
  }

  /** The wait after failed attempt `attempt` (numbered from 0): 1000·(attempt+1) after a 429, 500·(attempt+1) otherwise. */
  function Backoff<T>(reply: Reply<T>, attempt: nat): nat {
    if reply.Response? && reply.status == 429 then 1000 * (attempt + 1) else 500 * (attempt + 1)
  }

  datatype PageRun = PageRun(result: Result<seq<Token>, FetchError>, waits: seq<nat>, attempts: nat)

  /** The attempts of fetchPage from attempt `attempt` on: the specification of the retry loop. */
  function RunAttempts(server: Server, owner: string, offset: nat, attempt: nat, retries: nat): PageRun
    decreases retries - attempt
  {
    if attempt >= retries then PageRun(Ok([]), [], 0)
    else
      var reply := server(owner, offset, attempt);
      if Succeeds(reply) then PageRun(Ok(reply.body.rows), [], 1)
      else if attempt == retries - 1 then PageRun(Err(ErrorOf(reply)), [], 1)
      else
        var rest := RunAttempts(server, owner, offset, attempt + 1, retries);
        PageRun(rest.result, [Backoff(reply, attempt)] + rest.waits, rest.attempts + 1)
  }

  /** The first attempt from `attempt` on whose reply succeeds, or `retries` when none does. */
  function FirstSuccess(server: Server, owner: string, offset: nat, attempt: nat, retries: nat): (k: nat)
    requires attempt <= retries
    ensures attempt <= k <= retries
    ensures forall j :: attempt <= j < k ==> !Succeeds(server(owner, offset, j))
    ensures k < retries ==> Succeeds(server(owner, offset, k))
    decreases retries - attempt
  {
    if attempt == retries || Succeeds(server(owner, offset, attempt)) then attempt
    else FirstSuccess(server, owner, offset, attempt + 1, retries)
  }

  /**
   * fetchPage makes at most `retries` attempts; it returns the rows of the first attempt that
   * succeeds, else rethrows the failure of the last attempt (a 429 on the last attempt
   * included); before every further attempt it waits `Backoff` of the failed one.
   */
  lemma {:induction false} RunAttemptsSpec(server: Server, owner: string, offset: nat, attempt: nat, retries: nat)
    requires attempt < retries
    ensures var run := RunAttempts(server, owner, offset, attempt, retries);
      var k := FirstSuccess(server, owner, offset, attempt, retries);
      && 1 <= run.attempts <= retries - attempt
      && (k < retries ==> run.result == Ok(server(owner, offset, k).body.rows) && run.attempts == k - attempt + 1)
      && (k == retries ==> run.result == Err(ErrorOf(server(owner, offset, retries - 1))) && run.attempts == retries - attempt)
      && |run.waits| == run.attempts - 1
      && forall i :: 0 <= i < |run.waits| ==> run.waits[i] == Backoff(server(owner, offset, attempt + i), attempt + i)
    decreases retries - attempt
  {
    var reply := server(owner, offset, attempt);
    if !Succeeds(reply) && attempt < retries - 1 {
      RunAttemptsSpec(server, owner, offset, attempt + 1, retries);
      var rest := RunAttempts(server, owner, offset, attempt + 1, retries);
      assert RunAttempts(server, owner, offset, attempt, retries)
          == PageRun(rest.result, [Backoff(reply, attempt)] + rest.waits, rest.attempts + 1);
      WaitsCons(server, owner, offset, attempt, rest.waits);
    }
  }

  /** The backoff of a failed attempt, then the backoffs of the attempts after it. */
  lemma WaitsCons(server: Server, owner: string, offset: nat, attempt: nat, rest: seq<nat>)
    requires forall i :: 0 <= i < |rest| ==>
      rest[i] == Backoff(server(owner, offset, attempt + 1 + i), attempt + 1 + i)
    ensures var waits := [Backoff(server(owner, offset, attempt), attempt)] + rest;
      forall i :: 0 <= i < |waits| ==> waits[i] == Backoff(server(owner, offset, attempt + i), attempt + i)
  {
    var waits := [Backoff(server(owner, offset, attempt), attempt)] + rest;
    forall i | 0 < i < |waits|
      ensures waits[i] == Backoff(server(owner, offset, attempt + i), attempt + i)
    {
      assert waits[i] == rest[i - 1];
      assert attempt + 1 + (i - 1) == attempt + i;
    }
  }

  /** The state of fetchPage before attempt `attempt`: what is left to do is RunAttempts from there. */
  ghost predicate Attempting(server: Server, owner: string, offset: nat, retries: nat,
                             attempt: nat, waits: seq<nat>)
  {
    var spec := RunAttempts(server, owner, offset, 0, retries);
    var rest := RunAttempts(server, owner, offset, attempt, retries);
    && attempt <= retries
    && spec.result == rest.result
    && spec.waits == waits + rest.waits
    && spec.attempts == attempt + rest.attempts
  }

  /** An attempt whose reply succeeds returns its rows. */
  lemma AttemptSucceeds(server: Server, owner: string, offset: nat, retries: nat, attempt: nat, waits: seq<nat>)
    requires Attempting(server, owner, offset, retries, attempt, waits) && attempt < retries
    requires Succeeds(server(owner, offset, attempt))
    ensures RunAttempts(server, owner, offset, 0, retries)
         == PageRun(Ok(server(owner, offset, attempt).body.rows), waits, attempt + 1)
  {
    assert waits + [] == waits;
  }

  /** A failure on the last attempt is rethrown. */
  lemma AttemptFailsLast(server: Server, owner: string, offset: nat, retries: nat, attempt: nat, waits: seq<nat>)
    requires Attempting(server, owner, offset, retries, attempt, waits) && attempt == retries - 1
    requires !Succeeds(server(owner, offset, attempt))
    ensures RunAttempts(server, owner, offset, 0, retries)
         == PageRun(Err(ErrorOf(server(owner, offset, attempt))), waits, attempt + 1)
  {
    assert waits + [] == waits;
  }

  /** A failure before the last attempt waits its backoff and tries again. */
  lemma AttemptRetries(server: Server, owner: string, offset: nat, retries: nat, attempt: nat, waits: seq<nat>, w: nat)
    requires Attempting(server, owner, offset, retries, attempt, waits) && attempt < retries - 1
    requires !Succeeds(server(owner, offset, attempt))
    requires w == Backoff(server(owner, offset, attempt), attempt)
    ensures Attempting(server, owner, offset, retries, attempt + 1, waits + [w])
  {
    var next := RunAttempts(server, owner, offset, attempt + 1, retries);
    assert waits + ([w] + next.waits) == (waits + [w]) + next.waits;
  }

  /**
   * fetchPage: the attempt loop with `continue` after a rate-limit wait and the catch-block
   * wait after any other failure, proved against RunAttempts.
   */
  method FetchPage(server: Server, ownerAddress: string, offset: nat, retries: nat)
    returns (result: Result<seq<Token>, FetchError>, waits: seq<nat>, attempts: nat)
    ensures PageRun(result, waits, attempts) == RunAttempts(server, ToLower(ownerAddress), offset, 0, retries)
  {
    var owner := ToLower(ownerAddress);
    waits, attempts := [], 0;
    var attempt := 0;
    while attempt < retries
      invariant attempts == attempt
      invariant Attempting(server, owner, offset, retries, attempt, waits)
      decreases retries - attempt
    {
      var reply := server(owner, offset, attempt);
      attempts := attempts + 1;
      var err: FetchError;
      if reply.Thrown? {
        err := NetworkError(reply.message);
      } else if !IsOk(reply.status) {
        if reply.status == 429 && attempt < retries - 1 {
          // rate limited: wait and retry, skipping the catch block
          var wait: nat := 1000 * (attempt + 1);
          assert !Succeeds(reply) && Backoff(reply, attempt) == wait;
          AttemptRetries(server, owner, offset, retries, attempt, waits, wait);
          waits := waits + [wait];
          attempt := attempt + 1;
          continue;
        }
        err := ApiError(reply.status);
      } else if reply.body.Errors? {
        err := GraphQLError(GraphQLMessage(reply.body.firstMessage));
      } else {
        assert Succeeds(reply);
        AttemptSucceeds(server, owner, offset, retries, attempt, waits);
        return Ok(reply.body.rows), waits, attempts;
      }
      // catch (err)
      assert !Succeeds(reply) && err == ErrorOf(reply);
      if attempt == retries - 1 {
        AttemptFailsLast(server, owner, offset, retries, attempt, waits);
        return Err(err), waits, attempts;
      }
      var wait: nat := 500 * (attempt + 1);
      AttemptRetries(server, owner, offset, retries, attempt, waits, wait);
      waits := waits + [wait];
      attempt := attempt + 1;
    }
    assert waits + [] == waits;
    result := Ok([]);
  }

  // ---------------------------------------------------------------- fetchWalletTokens

  /** What fetchPage(owner, offset) with the default retry budget comes to. */
  function PageOutcome(server: Server, owner: string, offset: nat): Result<seq<Token>, FetchError> {
    RunAttempts(server, ToLower(owner), offset, 0, RETRIES).result
  }

  /** The outcome of the request for each page number, at offset page·PAGE_SIZE. */
  type Pages = nat -> Result<seq<Token>, FetchError>

  function PagesOf(server: Server, owner: string): Pages {
    (page: nat) => PageOutcome(server, owner, page * PAGE_SIZE)
  }

  /** Page number `page` ends the pagination: it fails or holds fewer than PAGE_SIZE rows. */
  predicate EndsAt(pageAt: Pages, page: nat) {
    pageAt(page).Err? || |pageAt(page).value| < PAGE_SIZE
  }

  /** The pages fetched in order and, when the last request failed, its error. */
  datatype Pagination = Pagination(pages: seq<seq<Token>>, error: Option<FetchError>)

  /** The pages from `page` on, up to the first short page or the first failure. */
  function Paginate(pageAt: Pages, page: nat, lastPage: nat): Pagination
    requires page <= lastPage && EndsAt(pageAt, lastPage)
    decreases lastPage - page
  {
    var r := pageAt(page);
    if r.Err? then Pagination([], Some(r.error))
    else if |r.value| < PAGE_SIZE then Pagination([r.value], None)
    else
      var rest := Paginate(pageAt, page + 1, lastPage);
      Pagination([r.value] + rest.pages, rest.error)
  }

  function Concat<T>(ss: seq<seq<T>>): seq<T> {
    if ss == [] then [] else Concat(ss[..|ss| - 1]) + ss[|ss| - 1]
  }

  lemma {:induction false} ConcatAppend<T>(a: seq<seq<T>>, b: seq<seq<T>>)
    ensures Concat(a + b) == Concat(a) + Concat(b)
    decreases |b|
  {
    if b != [] {
      var b' := b[..|b| - 1];
      ConcatAppend(a, b');
      assert (a + b)[..|a + b| - 1] == a + b';
      assert Concat(a + b) == Concat(a + b') + b[|b| - 1];
      assert Concat(b) == Concat(b') + b[|b| - 1];
    } else {
      assert a + b == a;
    }
  }

  /** The running totals the progress callback receives, one per page. */
  function RunningTotals<T>(pages: seq<seq<T>>): (totals: seq<nat>)
    ensures |totals| == |pages|
    ensures forall i :: 0 <= i < |pages| ==> totals[i] == |Concat(pages[..i + 1])|
  {
    seq(|pages|, i requires 0 <= i < |pages| => |Concat(pages[..i + 1])|)
  }

  lemma RunningTotalsAppend<T>(pages: seq<seq<T>>, page: seq<T>)
    ensures Concat(pages + [page]) == Concat(pages) + page
    ensures RunningTotals(pages + [page]) == RunningTotals(pages) + [|Concat(pages) + page|]
  {
    var ps := pages + [page];
    assert ps[..|ps| - 1] == pages;
    forall i | 0 <= i < |pages|
      ensures RunningTotals(ps)[i] == RunningTotals(pages)[i]
    {
      assert ps[..i + 1] == pages[..i + 1];
    }
    assert ps[..|ps|] == ps;
  }

  /** The offsets requested: 0, PAGE_SIZE, 2·PAGE_SIZE, ... */
  function Offsets(n: nat): (offsets: seq<nat>)
    ensures |offsets| == n
    ensures forall i :: 0 <= i < n ==> offsets[i] == i * PAGE_SIZE
  {
    seq(n, i requires 0 <= i < n => i * PAGE_SIZE)
  }

  lemma {:induction false} ConcatLength<T>(ss: seq<seq<T>>, n: nat)
    requires forall i :: 0 <= i < |ss| ==> |ss[i]| == n
    ensures |Concat(ss)| == |ss| * n
  {
    if ss != [] {
      var init := ss[..|ss| - 1];
      ConcatLength(init, n);
      assert |Concat(ss)| == |init| * n + n;
      assert |init| * n + n == (|init| + 1) * n;
    }
  }

  lemma {:induction false} ConcatPrefixGrows<T>(ss: seq<seq<T>>, i: nat, j: nat)
    requires i <= j <= |ss|
    ensures |Concat(ss[..i])| <= |Concat(ss[..j])|
    decreases j - i
  {
    if i < j {
      ConcatPrefixGrows(ss, i, j - 1);
      assert ss[..j][..j - 1] == ss[..j - 1];
    }
  }

  /**
   * The progress callback sees non-decreasing running totals, the last of which is the number of
   * rows returned.
   */
  lemma RunningTotalsMonotone<T>(pages: seq<seq<T>>)
    ensures var t := RunningTotals(pages);
      && (forall i, j :: 0 <= i <= j < |t| ==> t[i] <= t[j])
      && (|t| > 0 ==> t[|t| - 1] == |Concat(pages)|)
  {
    var t := RunningTotals(pages);
    forall i, j | 0 <= i <= j < |t|
      ensures t[i] <= t[j]
    {
      ConcatPrefixGrows(pages, i + 1, j + 1);
    }
    if |t| > 0 {
      assert pages[..|pages|] == pages;
    }
  }

  /**
   * Pagination from `page` on: page i of the result is the rows of the request for page
   * page + i; every page but the last is full (has at least PAGE_SIZE rows); without an error
   * the last page is short; with one, the error is that of the request after the last page.
   */
  ghost predicate PagesFrom(pageAt: Pages, page: nat, p: Pagination) {
    && (forall i :: 0 <= i < |p.pages| ==> pageAt(page + i) == Ok(p.pages[i]))
    && (forall i :: 0 <= i < |p.pages| - 1 ==> |p.pages[i]| >= PAGE_SIZE)
    && (p.error.None? ==> |p.pages| > 0 && |p.pages[|p.pages| - 1]| < PAGE_SIZE)
    && (p.error.Some? ==> |p.pages| > 0 ==> |p.pages[|p.pages| - 1]| >= PAGE_SIZE)
    && (p.error.Some? ==> pageAt(page + |p.pages|) == Err(p.error.value))
  }

  /** fetchWalletTokens' loop pages as described above, from whatever page it starts at. */
  lemma {:induction false} PaginateSpec(pageAt: Pages, page: nat, lastPage: nat)
    requires page <= lastPage && EndsAt(pageAt, lastPage)
    ensures PagesFrom(pageAt, page, Paginate(pageAt, page, lastPage))
    decreases lastPage - page
  {
    var r := pageAt(page);
    if r.Ok? && |r.value| >= PAGE_SIZE {
      PaginateSpec(pageAt, page + 1, lastPage);
      var rest := Paginate(pageAt, page + 1, lastPage);
      assert Paginate(pageAt, page, lastPage) == Pagination([r.value] + rest.pages, rest.error);
      PagesFromFull(pageAt, page, r.value, rest);
    }
  }

  /** A full page followed by what paging from the next page gives. */
  lemma PagesFromFull(pageAt: Pages, page: nat, rows: seq<Token>, rest: Pagination)
    requires pageAt(page) == Ok(rows) && |rows| >= PAGE_SIZE
    requires PagesFrom(pageAt, page + 1, rest)
    ensures PagesFrom(pageAt, page, Pagination([rows] + rest.pages, rest.error))
  {
    var p := Pagination([rows] + rest.pages, rest.error);
    forall i | 0 < i < |p.pages|
      ensures pageAt(page + i) == Ok(p.pages[i])
    {
      assert p.pages[i] == rest.pages[i - 1];
      assert page + i == (page + 1) + (i - 1);
    }
    forall i | 0 < i < |p.pages| - 1
      ensures |p.pages[i]| >= PAGE_SIZE
    {
      assert p.pages[i] == rest.pages[i - 1];
    }
    if |rest.pages| > 0 {
      assert p.pages[|p.pages| - 1] == rest.pages[|rest.pages| - 1];
    }
  }

  /** Pages of 100, 100, 100 and 42 rows: four requests, 342 rows, progress 100, 200, 300, 342. */
  lemma PaginationOf342(pageAt: Pages, lastPage: nat)
    requires EndsAt(pageAt, lastPage)
    requires forall i :: 0 <= i < 3 ==> pageAt(i).Ok? && |pageAt(i).value| == 100
    requires pageAt(3).Ok? && |pageAt(3).value| == 42
    ensures var p := Paginate(pageAt, 0, lastPage);
      && p.error.None? && |p.pages| == 4
      && |Concat(p.pages)| == 342
      && RunningTotals(p.pages) == [100, 200, 300, 342]
      && Offsets(|p.pages|) == [0, 100, 200, 300]
  {
    assert pageAt(0).Ok? && pageAt(1).Ok? && pageAt(2).Ok?;
    var p := Paginate(pageAt, 0, lastPage);
    var p3 := Paginate(pageAt, 3, lastPage);
    var p2 := Paginate(pageAt, 2, lastPage);
    var p1 := Paginate(pageAt, 1, lastPage);
    assert p3 == Pagination([pageAt(3).value], None);
    assert p2.pages == [pageAt(2).value] + p3.pages;
    assert p1.pages == [pageAt(1).value] + p2.pages;
    assert p.pages == [pageAt(0).value, pageAt(1).value, pageAt(2).value, pageAt(3).value];
    RunningTotalsValues(p.pages);
    var t := RunningTotals(p.pages);
    assert |p.pages[0]| == |p.pages[1]| == |p.pages[2]| == 100 && |p.pages[3]| == 42;
    assert t[0] == 100 && t[1] == 200 && t[2] == 300 && t[3] == 342;
  }

  /** Pages of 100, 100 and 0 rows: three requests, 200 rows. */
  lemma PaginationOf200(pageAt: Pages, lastPage: nat)
    requires EndsAt(pageAt, lastPage)
    requires forall i :: 0 <= i < 2 ==> pageAt(i).Ok? && |pageAt(i).value| == 100
    requires pageAt(2) == Ok([])
    ensures var p := Paginate(pageAt, 0, lastPage);
      && p.error.None? && |p.pages| == 3
      && |Concat(p.pages)| == 200
      && RunningTotals(p.pages) == [100, 200, 200]
      && Offsets(|p.pages|) == [0, 100, 200]
  {
    assert pageAt(0).Ok? && pageAt(1).Ok?;
    var p := Paginate(pageAt, 0, lastPage);
    var p2 := Paginate(pageAt, 2, lastPage);
    var p1 := Paginate(pageAt, 1, lastPage);
    assert p2 == Pagination([[]], None);
    assert p1.pages == [pageAt(1).value] + p2.pages;
    assert p.pages == [pageAt(0).value, pageAt(1).value, []];
    RunningTotalsValues(p.pages);
    var t := RunningTotals(p.pages);
    assert |p.pages[0]| == |p.pages[1]| == 100 && |p.pages[2]| == 0;
    assert t[0] == 100 && t[1] == 200 && t[2] == 200;
  }

  /** The running totals of a list of pages, computed page by page. */
  lemma {:induction false} RunningTotalsValues<T>(pages: seq<seq<T>>)
    ensures |pages| >= 1 ==> RunningTotals(pages)[0] == |pages[0]|
    ensures forall i :: 1 <= i < |pages| ==> RunningTotals(pages)[i] == RunningTotals(pages)[i - 1] + |pages[i]|
    ensures |pages| >= 1 ==> RunningTotals(pages)[|pages| - 1] == |Concat(pages)|
  {
    var t := RunningTotals(pages);
    forall i | 1 <= i < |pages|
      ensures t[i] == t[i - 1] + |pages[i]|
    {
      assert pages[..i + 1][..i] == pages[..i];
    }
    if |pages| >= 1 {
      assert pages[..1][..0] == [];
      assert Concat(pages[..1]) == Concat(pages[..1][..0]) + pages[0];
      assert pages[..|pages|] == pages;
    }
  }

  /** One unfolding of Paginate at page `page`, by the outcome of its request. */
  lemma PaginateStep(pageAt: Pages, page: nat, lastPage: nat)
    requires page <= lastPage && EndsAt(pageAt, lastPage)
    ensures var here := Paginate(pageAt, page, lastPage);
      var r := pageAt(page);
      && (r.Err? ==> here == Pagination([], Some(r.error)))
      && (r.Ok? && |r.value| < PAGE_SIZE ==> here == Pagination([r.value], None))
      && (r.Ok? && |r.value| >= PAGE_SIZE ==>
            page < lastPage
            && here.pages == [r.value] + Paginate(pageAt, page + 1, lastPage).pages
            && here.error == Paginate(pageAt, page + 1, lastPage).error)
  {
  }

  lemma OffsetsAppend(n: nat)
    ensures Offsets(n + 1) == Offsets(n) + [n * PAGE_SIZE]
  {
  }

  /** fetchPage(owner, offset) for the request of page number `page`. */
  method FetchPageAt(server: Server, ownerAddress: string, offset: nat, ghost page: nat)
    returns (r: Result<seq<Token>, FetchError>)
    requires offset == page * PAGE_SIZE
    ensures r == PagesOf(server, ownerAddress)(page)
  {
    var waits, attempts;
    r, waits, attempts := FetchPage(server, ownerAddress, offset, RETRIES);
  }

  /** What fetchWalletTokens returns and reports for a pagination. */
  ghost predicate Fetched(p: Pagination, result: Result<seq<Token>, FetchError>, progress: seq<nat>, offsets: seq<nat>) {
    && result == (if p.error.Some? then Err(p.error.value) else Ok(Concat(p.pages)))
    && progress == RunningTotals(p.pages)
    && offsets == Offsets(|p.pages| + if p.error.Some? then 1 else 0)
  }

  /** The state of fetchWalletTokens after the full pages `done`. */
  ghost predicate Paginating(pageAt: Pages, lastPage: nat, done: seq<seq<Token>>,
                             allTokens: seq<Token>, progress: seq<nat>, offsets: seq<nat>)
  {
    && |done| <= lastPage && EndsAt(pageAt, lastPage)
    && allTokens == Concat(done)
    && progress == RunningTotals(done)
    && offsets == Offsets(|done|)
    && Paginate(pageAt, 0, lastPage).pages == done + Paginate(pageAt, |done|, lastPage).pages
    && Paginate(pageAt, 0, lastPage).error == Paginate(pageAt, |done|, lastPage).error
  }

  /** A failed request ends the pagination with its error. */
  lemma PaginatingErr(pageAt: Pages, lastPage: nat, done: seq<seq<Token>>,
                      allTokens: seq<Token>, progress: seq<nat>, offsets: seq<nat>)
    requires Paginating(pageAt, lastPage, done, allTokens, progress, offsets)
    requires pageAt(|done|).Err?
    ensures Fetched(Paginate(pageAt, 0, lastPage), Err(pageAt(|done|).error), progress, offsets + [|done| * PAGE_SIZE])
  {
    PaginateStep(pageAt, |done|, lastPage);
    OffsetsAppend(|done|);
    assert done + [] == done;
  }

  /** A short page is the last one. */
  lemma PaginatingShort(pageAt: Pages, lastPage: nat, done: seq<seq<Token>>,
                        allTokens: seq<Token>, progress: seq<nat>, offsets: seq<nat>)
    requires Paginating(pageAt, lastPage, done, allTokens, progress, offsets)
    requires pageAt(|done|).Ok? && |pageAt(|done|).value| < PAGE_SIZE
    ensures var rows := pageAt(|done|).value;
      Fetched(Paginate(pageAt, 0, lastPage), Ok(allTokens + rows),
              progress + [|allTokens + rows|], offsets + [|done| * PAGE_SIZE])
  {
    PaginateStep(pageAt, |done|, lastPage);
    OffsetsAppend(|done|);
    RunningTotalsAppend(done, pageAt(|done|).value);
  }

  /** A full page is followed by the request for the next one. */
  lemma PaginatingFull(pageAt: Pages, lastPage: nat, done: seq<seq<Token>>,
                       allTokens: seq<Token>, progress: seq<nat>, offsets: seq<nat>)
    requires Paginating(pageAt, lastPage, done, allTokens, progress, offsets)
    requires pageAt(|done|).Ok? && |pageAt(|done|).value| >= PAGE_SIZE
    ensures var rows := pageAt(|done|).value;
      Paginating(pageAt, lastPage, done + [rows], allTokens + rows,
                 progress + [|allTokens + rows|], offsets + [|done| * PAGE_SIZE])
  {
    var rows := pageAt(|done|).value;
    PaginateStep(pageAt, |done|, lastPage);
    OffsetsAppend(|done|);
    RunningTotalsAppend(done, rows);
    assert done + ([rows] + Paginate(pageAt, |done| + 1, lastPage).pages)
        == (done + [rows]) + Paginate(pageAt, |done| + 1, lastPage).pages;
  }

  /** The result of fetchWalletTokens(owner): all pages' rows, or the error of the failed request. */
  ghost function WalletOutcome(server: Server, owner: string, lastPage: nat): Result<seq<Token>, FetchError>
    requires EndsAt(PagesOf(server, owner), lastPage)
  {
    var p := Paginate(PagesOf(server, owner), 0, lastPage);
    if p.error.Some? then Err(p.error.value) else Ok(Concat(p.pages))
  }

  /** The bound only ensures termination: any page at which the server stops gives the same pagination. */
  lemma {:induction false} PaginateBoundIrrelevant(pageAt: Pages, page: nat, last1: nat, last2: nat)
    requires page <= last1 && EndsAt(pageAt, last1)
    requires page <= last2 && EndsAt(pageAt, last2)
    ensures Paginate(pageAt, page, last1) == Paginate(pageAt, page, last2)
    decreases last1 - page
  {
    var r := pageAt(page);
    if r.Ok? && |r.value| >= PAGE_SIZE {
      PaginateBoundIrrelevant(pageAt, page + 1, last1, last2);
    }
  }

  /**
   * fetchWalletTokens: `while (true)` over offsets 0, 100, 200, ..., appending each page and
   * reporting the running total, until the first short page. `lastPage` is a page at which the
   * server stops (fails or answers short); it only bounds the loop.
   */
  method FetchWalletTokens(server: Server, ownerAddress: string, ghost lastPage: nat)
    returns (result: Result<seq<Token>, FetchError>, progress: seq<nat>, offsets: seq<nat>)
    requires EndsAt(PagesOf(server, ownerAddress), lastPage)
    ensures result == WalletOutcome(server, ownerAddress, lastPage)
    ensures var p := Paginate(PagesOf(server, ownerAddress), 0, lastPage);
      && progress == RunningTotals(p.pages)
      && offsets == Offsets(|p.pages| + if p.error.Some? then 1 else 0)
  {
    ghost var pageAt := PagesOf(server, ownerAddress);
    var allTokens: seq<Token> := [];
    var offset: nat := 0;
    progress, offsets := [], [];
    ghost var done: seq<seq<Token>> := [];
    while true
      invariant offset == |done| * PAGE_SIZE
      invariant Paginating(pageAt, lastPage, done, allTokens, progress, offsets)
      decreases lastPage - |done|
    {
      var page := FetchPageAt(server, ownerAddress, offset, |done|);
      if page.Err? {
        PaginatingErr(pageAt, lastPage, done, allTokens, progress, offsets);
        return Err(page.error), progress, offsets + [offset];
      }
      if |page.value| < PAGE_SIZE {
        PaginatingShort(pageAt, lastPage, done, allTokens, progress, offsets);
        allTokens := allTokens + page.value;
        return Ok(allTokens), progress + [|allTokens|], offsets + [offset];
      }
      PaginatingFull(pageAt, lastPage, done, allTokens, progress, offsets);
      allTokens := allTokens + page.value;
      progress := progress + [|allTokens|];
      offsets := offsets + [offset];
      done := done + [page.value];
      offset := offset + PAGE_SIZE;
    }
  }

  // ---------------------------------------------------------------- fetchMultiWalletTokens

  /** The outcome of each wallet's fetchWalletTokens, in address order. */
  ghost function WalletOutcomes(server: Server, addresses: seq<string>, lastPages: seq<nat>)
    : (outs: seq<Result<seq<Token>, FetchError>>)
    requires |lastPages| == |addresses|
    requires forall i :: 0 <= i < |addresses| ==> EndsAt(PagesOf(server, addresses[i]), lastPages[i])
    ensures |outs| == |addresses|
    ensures forall i :: 0 <= i < |addresses| ==> outs[i] == WalletOutcome(server, addresses[i], lastPages[i])
  {
    seq(|addresses|, i requires 0 <= i < |addresses| => WalletOutcome(server, addresses[i], lastPages[i]))
  }

  /** The wallets' rows concatenated in address order, or the first failure in that order. */
  function Merge(outs: seq<Result<seq<Token>, FetchError>>): Result<seq<Token>, FetchError> {
    if outs == [] then Ok([])
    else
      var init := Merge(outs[..|outs| - 1]);
      var last := outs[|outs| - 1];
      if init.Err? then init
      else if last.Err? then Err(last.error)
      else Ok(init.value + last.value)
  }

  /** The index of the first failed wallet, or the number of wallets when none failed. */
  function FirstFailure(outs: seq<Result<seq<Token>, FetchError>>): (k: nat)
    ensures k <= |outs|
    ensures forall i :: 0 <= i < k ==> outs[i].Ok?
    ensures k < |outs| ==> outs[k].Err?
  {
    if outs == [] then 0
    else if outs[0].Err? then 0
    else 1 + FirstFailure(outs[1..])
  }

  /** The rows of each wallet that succeeded (none for one that failed). */
  function Rows(outs: seq<Result<seq<Token>, FetchError>>): (rows: seq<seq<Token>>)
    ensures |rows| == |outs|
    ensures forall i :: 0 <= i < |outs| ==> rows[i] == (if outs[i].Ok? then outs[i].value else [])
  {
    seq(|outs|, i requires 0 <= i < |outs| => if outs[i].Ok? then outs[i].value else [])
  }

  /**
   * Merging fails exactly when some wallet fails, with the error of the first one; otherwise it
   * is the concatenation of the wallets' rows in address order.
   */
  lemma {:induction false} MergeSpec(outs: seq<Result<seq<Token>, FetchError>>)
    ensures var k := FirstFailure(outs);
      && (Merge(outs).Err? <==> k < |outs|)
      && (k < |outs| ==> Merge(outs) == Err(outs[k].error))
      && (k == |outs| ==> Merge(outs) == Ok(Concat(Rows(outs))))
  {
    if outs != [] {
      var init := outs[..|outs| - 1];
      MergeSpec(init);
      FirstFailurePrefix(outs, |outs| - 1);
      if FirstFailure(init) == |init| {
        MergeLast(outs);
      }
    }
  }

  /** Once every earlier wallet succeeded, the last one decides the merge. */
  lemma MergeLast(outs: seq<Result<seq<Token>, FetchError>>)
    requires outs != []
    requires FirstFailure(outs[..|outs| - 1]) == |outs| - 1
    requires Merge(outs[..|outs| - 1]) == Ok(Concat(Rows(outs[..|outs| - 1])))
    ensures outs[|outs| - 1].Err? ==> Merge(outs) == Err(outs[|outs| - 1].error)
    ensures outs[|outs| - 1].Ok? ==> Merge(outs) == Ok(Concat(Rows(outs)))
  {
    var n := |outs|;
    if outs[n - 1].Ok? {
      RowsAppend(outs, n - 1);
      assert outs[..n] == outs;
    }
  }

  /** The first failure of a prefix is that of the whole list, or the prefix has none. */
  lemma FirstFailurePrefix(outs: seq<Result<seq<Token>, FetchError>>, m: nat)
    requires m <= |outs|
    ensures FirstFailure(outs[..m]) == if FirstFailure(outs) < m then FirstFailure(outs) else m
  {
    var k := FirstFailure(outs);
    var km := FirstFailure(outs[..m]);
    if km < m {
      assert outs[km].Err?;
    }
    if k < m {
      assert outs[..m][k].Err?;
    }
  }

  /** The first failure is the index before which every wallet succeeded and at which one failed. */
  lemma FirstFailureIs(outs: seq<Result<seq<Token>, FetchError>>, k: nat)
    requires k <= |outs|
    requires forall j :: 0 <= j < k ==> outs[j].Ok?
    requires k < |outs| ==> outs[k].Err?
    ensures FirstFailure(outs) == k
  {
  }

  function Min(a: nat, b: nat): nat {
    if a <= b then a else b
  }

  /** The number of batches of CONCURRENT_LIMIT addresses: ⌈n / 3⌉. */
  function NumBatches(n: nat): (b: nat)
    ensures CONCURRENT_LIMIT * b >= n
    ensures b > 0 ==> CONCURRENT_LIMIT * (b - 1) < n
  {
    (n + CONCURRENT_LIMIT - 1) / CONCURRENT_LIMIT
  }

  /** The onProgress report after each batch: (tokens so far, wallets completed, wallets). */
  datatype Progress = Progress(count: nat, wallet: nat, totalWallets: nat)

  /** The reports after the first `b` batches. */
  function BatchReports(outs: seq<Result<seq<Token>, FetchError>>, b: nat): (reports: seq<Progress>)
    ensures |reports| == b
  {
    seq(b, k requires 0 <= k < b =>
      var completed := Min(CONCURRENT_LIMIT * (k + 1), |outs|);
      Progress(|Concat(Rows(outs[..completed]))|, completed, |outs|))
  }

  /** The reports are the running totals after each batch, with the wallets completed so far. */
  lemma BatchReportsSpec(outs: seq<Result<seq<Token>, FetchError>>, b: nat)
    requires CONCURRENT_LIMIT * b <= |outs| + CONCURRENT_LIMIT - 1
    ensures var reports := BatchReports(outs, b);
      && (forall k :: 0 <= k < b ==> reports[k].wallet == Min(CONCURRENT_LIMIT * (k + 1), |outs|))
      && (forall k :: 0 <= k < b ==> reports[k].totalWallets == |outs|)
      && (forall k, l :: 0 <= k <= l < b ==> reports[k].count <= reports[l].count)
      && (b == NumBatches(|outs|) && b > 0 ==> reports[b - 1] == Progress(|Concat(Rows(outs))|, |outs|, |outs|))
  {
    var reports := BatchReports(outs, b);
    forall k, l | 0 <= k <= l < b
      ensures reports[k].count <= reports[l].count
    {
      var ck, cl := Min(CONCURRENT_LIMIT * (k + 1), |outs|), Min(CONCURRENT_LIMIT * (l + 1), |outs|);
      BatchReportAt(outs, b, k);
      BatchReportAt(outs, b, l);
      MergedPrefixGrows(outs, ck, cl);
    }
    if b == NumBatches(|outs|) && b > 0 {
      assert outs[..|outs|] == outs;
    }
  }

  lemma BatchReportAt(outs: seq<Result<seq<Token>, FetchError>>, b: nat, k: nat)
    requires k < b
    ensures var completed := Min(CONCURRENT_LIMIT * (k + 1), |outs|);
      BatchReports(outs, b)[k] == Progress(|Concat(Rows(outs[..completed]))|, completed, |outs|)
  {
  }

  /** Merging more wallets never gives fewer tokens. */
  lemma MergedPrefixGrows(outs: seq<Result<seq<Token>, FetchError>>, m: nat, n: nat)
    requires m <= n <= |outs|
    ensures |Concat(Rows(outs[..m]))| <= |Concat(Rows(outs[..n]))|
  {
    ConcatPrefixGrows(Rows(outs[..n]), m, n);
    assert Rows(outs[..n])[..m] == Rows(outs[..m]);
    assert Rows(outs[..n])[..n] == Rows(outs[..n]);
  }

  /** Adding the next wallet's rows to the merge of a prefix. */
  lemma RowsAppend(outs: seq<Result<seq<Token>, FetchError>>, m: nat)
    requires m < |outs|
    ensures Concat(Rows(outs[..m + 1])) == Concat(Rows(outs[..m])) + Rows(outs)[m]
  {
    assert Rows(outs[..m + 1]) == Rows(outs[..m]) + [Rows(outs)[m]];
    RunningTotalsAppend(Rows(outs[..m]), Rows(outs)[m]);
  }

  lemma BatchReportsAppend(outs: seq<Result<seq<Token>, FetchError>>, b: nat)
    ensures var completed := Min(CONCURRENT_LIMIT * (b + 1), |outs|);
      BatchReports(outs, b + 1)
        == BatchReports(outs, b) + [Progress(|Concat(Rows(outs[..completed]))|, completed, |outs|)]
  {
  }

  lemma NumBatchesUnique(n: nat, b: nat)
    requires CONCURRENT_LIMIT * b >= n && (b > 0 ==> CONCURRENT_LIMIT * (b - 1) < n)
    ensures b == NumBatches(n)
  {
  }

  /** fetchMultiWalletTokens' result: the first failure, else the merge with duplicates removed. */
  function MultiWalletOutcome(outs: seq<Result<seq<Token>, FetchError>>): Result<seq<Token>, FetchError> {
    match Merge(outs)
    case Ok(tokens) => Ok(FirstOccurrences(tokens))
    case Err(e) => Err(e)
  }

  /** `Promise.all` over a batch, taken in address order: every wallet's rows, or the first failure. */
  function All(outs: seq<Result<seq<Token>, FetchError>>): Result<seq<seq<Token>>, FetchError> {
    var k := FirstFailure(outs);
    if k < |outs| then Err(outs[k].error) else Ok(Rows(outs))
  }

  lemma WalletOutcomesSlice(server: Server, addresses: seq<string>, lastPages: seq<nat>, i: nat, end: nat)
    requires |lastPages| == |addresses| && i <= end <= |addresses|
    requires forall i :: 0 <= i < |addresses| ==> EndsAt(PagesOf(server, addresses[i]), lastPages[i])
    ensures WalletOutcomes(server, addresses[i..end], lastPages[i..end])
         == WalletOutcomes(server, addresses, lastPages)[i..end]
  {
  }

  lemma EndsAtSlice(server: Server, addresses: seq<string>, lastPages: seq<nat>, i: nat, end: nat)
    requires |lastPages| == |addresses| && i <= end <= |addresses|
    requires forall i :: 0 <= i < |addresses| ==> EndsAt(PagesOf(server, addresses[i]), lastPages[i])
    ensures forall k :: 0 <= k < end - i ==> EndsAt(PagesOf(server, addresses[i..end][k]), lastPages[i..end][k])
  {
    forall k | 0 <= k < end - i
      ensures EndsAt(PagesOf(server, addresses[i..end][k]), lastPages[i..end][k])
    {
      assert addresses[i..end][k] == addresses[i + k] && lastPages[i..end][k] == lastPages[i + k];
    }
  }

  /** The wallets of one batch, fetched in order until the first failure. */
  method FetchBatch(server: Server, batch: seq<string>, ghost lastPages: seq<nat>)
    returns (results: Result<seq<seq<Token>>, FetchError>)
    requires |lastPages| == |batch|
    requires forall i :: 0 <= i < |batch| ==> EndsAt(PagesOf(server, batch[i]), lastPages[i])
    ensures results == All(WalletOutcomes(server, batch, lastPages))
  {
    ghost var outs := WalletOutcomes(server, batch, lastPages);
    var rows: seq<seq<Token>> := [];
    for j := 0 to |batch|
      invariant |rows| == j
      invariant forall k :: 0 <= k < j ==> outs[k] == Ok(rows[k])
    {
      var tokens, _, _ := FetchWalletTokens(server, batch[j], lastPages[j]);
      if tokens.Err? {
        FirstFailureIs(outs, j);
        return Err(tokens.error);
      }
      rows := rows + [tokens.value];
    }
    FirstFailureIs(outs, |batch|);
    assert Rows(outs) == rows;
    results := Ok(rows);
  }

  /** `Promise.all` over `addresses.slice(i, end)`. */
  method FetchBatchAt(server: Server, addresses: seq<string>, ghost lastPages: seq<nat>, i: nat, end: nat)
    returns (results: Result<seq<seq<Token>>, FetchError>)
    requires |lastPages| == |addresses| && i <= end <= |addresses|
    requires forall i :: 0 <= i < |addresses| ==> EndsAt(PagesOf(server, addresses[i]), lastPages[i])
    ensures results == All(WalletOutcomes(server, addresses, lastPages)[i..end])
  {
    WalletOutcomesSlice(server, addresses, lastPages, i, end);
    EndsAtSlice(server, addresses, lastPages, i, end);
    results := FetchBatch(server, addresses[i..end], lastPages[i..end]);
  }

  /** `for (const tokens of batchResults) { allTokens.push(...tokens); completedWallets++; }` */
  method AppendBatch(allTokens: seq<Token>, completed: nat, batchResults: seq<seq<Token>>)
    returns (allTokens': seq<Token>, completed': nat)
    ensures allTokens' == allTokens + Concat(batchResults)
    ensures completed' == completed + |batchResults|
  {
    allTokens', completed' := allTokens, completed;
    for k := 0 to |batchResults|
      invariant allTokens' == allTokens + Concat(batchResults[..k])
      invariant completed' == completed + k
    {
      RunningTotalsAppend(batchResults[..k], batchResults[k]);
      assert batchResults[..k + 1] == batchResults[..k] + [batchResults[k]];
      allTokens' := allTokens' + batchResults[k];
      completed' := completed' + 1;
    }
    assert batchResults[..|batchResults|] == batchResults;
  }

  /** The state of fetchMultiWalletTokens after |progress| batches. */
  ghost predicate Merging(outs: seq<Result<seq<Token>, FetchError>>, i: nat, completed: nat,
                          allTokens: seq<Token>, progress: seq<Progress>)
  {
    && i == CONCURRENT_LIMIT * |progress|
    && completed == Min(i, |outs|)
    && (|progress| > 0 ==> CONCURRENT_LIMIT * (|progress| - 1) < |outs|)
    && FirstFailure(outs) >= completed
    && allTokens == Concat(Rows(outs[..completed]))
    && progress == BatchReports(outs, |progress|)
  }

  /**
   * One iteration of the batch loop of fetchMultiWalletTokens: the batch at `i` is fetched and,
   * when no wallet in it fails, appended and counted.
   */
  method ProcessBatch(server: Server, addresses: seq<string>, ghost lastPages: seq<nat>, i: nat,
                      allTokens: seq<Token>, completed: nat, ghost progress: seq<Progress>)
    returns (failure: Option<FetchError>, allTokens': seq<Token>, completed': nat)
    requires |lastPages| == |addresses|
    requires forall i :: 0 <= i < |addresses| ==> EndsAt(PagesOf(server, addresses[i]), lastPages[i])
    requires i < |addresses|
    requires Merging(WalletOutcomes(server, addresses, lastPages), i, completed, allTokens, progress)
    ensures var outs := WalletOutcomes(server, addresses, lastPages);
      && (failure.Some? ==> MultiWalletOutcome(outs) == Err(failure.value)
                            && progress == BatchReports(outs, FirstFailure(outs) / CONCURRENT_LIMIT))
      && (failure.None? ==> Merging(outs, i + CONCURRENT_LIMIT, completed', allTokens',
                                    progress + [Progress(|allTokens'|, completed', |addresses|)]))
  {
    ghost var outs := WalletOutcomes(server, addresses, lastPages);
    var end := Min(i + CONCURRENT_LIMIT, |addresses|);
    var batchResults := FetchBatchAt(server, addresses, lastPages, i, end);
    if batchResults.Err? {
      MultiWalletFails(outs, i, end, |progress|);
      return Some(batchResults.error), allTokens, completed;
    }
    MultiWalletBatch(outs, i, end, allTokens);
    allTokens', completed' := AppendBatch(allTokens, completed, batchResults.value);
    MergingStep(outs, i, end, completed, allTokens, progress, allTokens');
    failure := None;
  }

  /**
   * fetchMultiWalletTokens: batches of CONCURRENT_LIMIT addresses; each batch's wallets are
   * fetched (sequentially here, in address order, for `Promise.all`), appended in address order,
   * and reported; at the end duplicates are removed.
   */
  method FetchMultiWalletTokens(server: Server, addresses: seq<string>, ghost lastPages: seq<nat>)
    returns (result: Result<seq<Token>, FetchError>, progress: seq<Progress>)
    requires |lastPages| == |addresses|
    requires forall i :: 0 <= i < |addresses| ==> EndsAt(PagesOf(server, addresses[i]), lastPages[i])
    ensures var outs := WalletOutcomes(server, addresses, lastPages);
      && result == MultiWalletOutcome(outs)
      && progress == BatchReports(outs, if result.Ok? then NumBatches(|outs|) else FirstFailure(outs) / CONCURRENT_LIMIT)
  {
    ghost var outs := WalletOutcomes(server, addresses, lastPages);
    var allTokens: seq<Token> := [];
    var completed := 0;
    progress := [];
    var i := 0;
    while i < |addresses|
      invariant Merging(outs, i, completed, allTokens, progress)
      decreases |addresses| - i
    {
      var failure;
      failure, allTokens, completed := ProcessBatch(server, addresses, lastPages, i, allTokens, completed, progress);
      if failure.Some? {
        return Err(failure.value), progress;
      }
      progress := progress + [Progress(|allTokens|, completed, |addresses|)];
      i := i + CONCURRENT_LIMIT;
    }
    MultiWalletDone(outs, i, completed, allTokens, progress);
    result := Dedup(allTokens);
  }

  lemma DivBatch(p: nat, j: nat)
    requires j < CONCURRENT_LIMIT
    ensures (CONCURRENT_LIMIT * p + j) / CONCURRENT_LIMIT == p
  {
  }

  /** The first failure of a slice that follows successful wallets is the first failure overall. */
  lemma FirstFailureSlice(outs: seq<Result<seq<Token>, FetchError>>, i: nat, end: nat)
    requires i <= end <= |outs|
    requires FirstFailure(outs) >= i
    ensures FirstFailure(outs) >= end ==> FirstFailure(outs[i..end]) == end - i
    ensures FirstFailure(outs) < end ==> FirstFailure(outs[i..end]) == FirstFailure(outs) - i
  {
    var f := FirstFailure(outs);
    var g := if f < end then f - i else end - i;
    var slice := outs[i..end];
    forall k | 0 <= k < g
      ensures slice[k].Ok?
    {
      assert slice[k] == outs[i + k];
    }
    if f < end {
      assert slice[g] == outs[f];
    }
    FirstFailureIs(slice, g);
  }

  /** A failure in the batch [i, end) after successful wallets is the first failure overall. */
  lemma MultiWalletFails(outs: seq<Result<seq<Token>, FetchError>>, i: nat, end: nat, b: nat)
    requires i == CONCURRENT_LIMIT * b && i < end == Min(i + CONCURRENT_LIMIT, |outs|)
    requires FirstFailure(outs) >= i
    requires All(outs[i..end]).Err?
    ensures MultiWalletOutcome(outs) == Err(All(outs[i..end]).error)
    ensures FirstFailure(outs) / CONCURRENT_LIMIT == b
  {
    var f := FirstFailure(outs);
    BatchFailure(outs, i, end);
    MergeSpec(outs);
    assert Merge(outs) == Err(outs[f].error);
    DivBatch(b, f - i);
  }

  /** A failing batch after successful wallets holds the first failure, and reports its error. */
  lemma BatchFailure(outs: seq<Result<seq<Token>, FetchError>>, i: nat, end: nat)
    requires i <= end <= |outs|
    requires FirstFailure(outs) >= i
    requires All(outs[i..end]).Err?
    ensures FirstFailure(outs) < end
    ensures All(outs[i..end]).error == outs[FirstFailure(outs)].error
  {
    FirstFailureSlice(outs, i, end);
    var f := FirstFailure(outs);
    if f < end {
      assert outs[f] == outs[i..end][f - i];
    }
  }

  /** A batch [i, end) without failure extends the merge by its rows. */
  lemma MultiWalletBatch(outs: seq<Result<seq<Token>, FetchError>>, i: nat, end: nat, allTokens: seq<Token>)
    requires i < end <= |outs|
    requires FirstFailure(outs) >= i
    requires allTokens == Concat(Rows(outs[..i]))
    requires All(outs[i..end]).Ok?
    ensures FirstFailure(outs) >= end
    ensures allTokens + Concat(All(outs[i..end]).value) == Concat(Rows(outs[..end]))
  {
    FirstFailureSlice(outs, i, end);
    assert All(outs[i..end]).value == Rows(outs[i..end]);
    RowsSplit(outs, i, end);
    ConcatAppend(Rows(outs[..i]), Rows(outs[i..end]));
  }

  lemma MergingStep(outs: seq<Result<seq<Token>, FetchError>>, i: nat, end: nat, completed: nat,
                    allTokens: seq<Token>, progress: seq<Progress>, allTokens': seq<Token>)
    requires Merging(outs, i, completed, allTokens, progress)
    requires i < end == Min(i + CONCURRENT_LIMIT, |outs|)
    requires FirstFailure(outs) >= end
    requires allTokens' == Concat(Rows(outs[..end]))
    ensures Merging(outs, i + CONCURRENT_LIMIT, end, allTokens', progress + [Progress(|allTokens'|, end, |outs|)])
  {
    var b := |progress|;
    var progress' := progress + [Progress(|allTokens'|, end, |outs|)];
    assert |progress'| == b + 1;
    assert i + CONCURRENT_LIMIT == CONCURRENT_LIMIT * (b + 1);
    assert end == Min(CONCURRENT_LIMIT * (b + 1), |outs|);
    assert CONCURRENT_LIMIT * b < |outs|;
    BatchReportsAppend(outs, b);
    assert progress' == BatchReports(outs, b + 1);
  }

  lemma RowsSplit(outs: seq<Result<seq<Token>, FetchError>>, i: nat, end: nat)
    requires i <= end <= |outs|
    ensures Rows(outs[..end]) == Rows(outs[..i]) + Rows(outs[i..end])
  {
  }

  lemma MultiWalletDone(outs: seq<Result<seq<Token>, FetchError>>, i: nat, completed: nat,
                        allTokens: seq<Token>, progress: seq<Progress>)
    requires Merging(outs, i, completed, allTokens, progress)
    requires i >= |outs|
    ensures Merge(outs) == Ok(allTokens)
    ensures progress == BatchReports(outs, NumBatches(|outs|))
  {
    var n := |outs|;
    assert completed == n && FirstFailure(outs) == n;
    assert outs[..n] == outs;
    MergeSpec(outs);
    NumBatchesUnique(n, |progress|);
  }

  // ---------------------------------------------------------------- de-duplication

  function Ids(ts: seq<Token>): set<string> {
    set t | t in ts :: t.id
  }

  /** Each token whose id has not been seen before, in order: the specification of the `seen` filter. */
  function FirstOccurrences(ts: seq<Token>): seq<Token> {
    if ts == [] then []
    else
      var init := ts[..|ts| - 1];
      var t := ts[|ts| - 1];
      if t.id in Ids(init) then FirstOccurrences(init) else FirstOccurrences(init) + [t]
  }

  /** `allTokens.filter` with the `seen` set. */
  method Dedup(tokens: seq<Token>) returns (result: Result<seq<Token>, FetchError>)
    ensures result == Ok(FirstOccurrences(tokens))
  {
    var seen: set<string> := {};
    var kept: seq<Token> := [];
    for i := 0 to |tokens|
      invariant seen == Ids(tokens[..i])
      invariant kept == FirstOccurrences(tokens[..i])
    {
      var t := tokens[i];
      assert tokens[..i + 1][..i] == tokens[..i];
      assert Ids(tokens[..i + 1]) == Ids(tokens[..i]) + {t.id} by {
        assert tokens[..i + 1] == tokens[..i] + [t];
      }
      if t.id !in seen {
        seen := seen + {t.id};
        kept := kept + [t];
      }
    }
    assert tokens[..|tokens|] == tokens;
    result := Ok(kept);
  }

  /**
   * The index of the first token with `id`, or |ts| when there is none. The same search as
   * Grouping.IndexOfKey, kept on tokens here so the de-duplication proofs need no key function.
   */
  function FirstIndexOfId(ts: seq<Token>, id: string): (k: nat)
    ensures k <= |ts|
    ensures k < |ts| ==> ts[k].id == id
    ensures forall j :: 0 <= j < k ==> ts[j].id != id
  {
    if ts == [] then 0
    else if ts[0].id == id then 0
    else 1 + FirstIndexOfId(ts[1..], id)
  }

  lemma FirstIndexIs(ts: seq<Token>, id: string, k: nat)
    requires k <= |ts|
    requires k < |ts| ==> ts[k].id == id
    requires forall j :: 0 <= j < k ==> ts[j].id != id
    ensures FirstIndexOfId(ts, id) == k
  {
  }

  lemma IdsIndex(ts: seq<Token>, id: string)
    ensures id in Ids(ts) <==> FirstIndexOfId(ts, id) < |ts|
  {
    var k := FirstIndexOfId(ts, id);
    if k < |ts| {
      assert ts[k] in ts;
    }
  }

  /** Appending a token leaves earlier first occurrences where they were. */
  lemma FirstIndexAppend(init: seq<Token>, t: Token, id: string)
    requires FirstIndexOfId(init, id) < |init| || id == t.id
    ensures FirstIndexOfId(init + [t], id)
         == if FirstIndexOfId(init, id) < |init| then FirstIndexOfId(init, id) else |init|
  {
    var ts := init + [t];
    var k := if FirstIndexOfId(init, id) < |init| then FirstIndexOfId(init, id) else |init|;
    forall j | 0 <= j < k
      ensures ts[j].id != id
    {
      assert ts[j] == init[j];
    }
    FirstIndexIs(ts, id, k);
  }

  /** De-duplication keeps every id of the input. */
  lemma {:induction false} FirstOccurrencesIds(ts: seq<Token>)
    ensures Ids(FirstOccurrences(ts)) == Ids(ts)
  {
    if ts != [] {
      var init := ts[..|ts| - 1];
      var t := ts[|ts| - 1];
      assert ts == init + [t];
      FirstOccurrencesIds(init);
      assert Ids(ts) == Ids(init) + {t.id};
      if t.id !in Ids(init) {
        assert Ids(FirstOccurrences(init) + [t]) == Ids(FirstOccurrences(init)) + {t.id};
      }
    }
  }

  /** De-duplication leaves no id twice. */
  lemma {:induction false} FirstOccurrencesDistinct(ts: seq<Token>)
    ensures var out := FirstOccurrences(ts);
      forall i, j :: 0 <= i < j < |out| ==> out[i].id != out[j].id
  {
    if ts != [] {
      var init := ts[..|ts| - 1];
      var t := ts[|ts| - 1];
      FirstOccurrencesDistinct(init);
      FirstOccurrencesIds(init);
      var prev := FirstOccurrences(init);
      if t.id !in Ids(init) {
        forall i | 0 <= i < |prev|
          ensures prev[i].id != t.id
        {
          assert prev[i] in prev;
        }
      }
    }
  }

  /**
   * Each token de-duplication keeps is the first occurrence of its id, and the positions of
   * those first occurrences increase: the result is an order-preserving subsequence.
   */
  /** Each token of `out` is the first of its id in `ts`, and those positions increase. */
  ghost predicate FirstOccurrencesOf(ts: seq<Token>, out: seq<Token>) {
    && (forall k :: 0 <= k < |out| ==>
          FirstIndexOfId(ts, out[k].id) < |ts| && out[k] == ts[FirstIndexOfId(ts, out[k].id)])
    && (forall k, l :: 0 <= k < l < |out| ==> FirstIndexOfId(ts, out[k].id) < FirstIndexOfId(ts, out[l].id))
  }

  lemma {:induction false} FirstOccurrencesFirst(ts: seq<Token>)
    ensures FirstOccurrencesOf(ts, FirstOccurrences(ts))
  {
    if ts != [] {
      var init := ts[..|ts| - 1];
      var t := ts[|ts| - 1];
      assert ts == init + [t];
      FirstOccurrencesFirst(init);
      FirstOccurrencesKept(init, t);
      if t.id !in Ids(init) {
        FirstOccurrencesNew(init, t);
      }
    }
  }

  /** Appending a token leaves the first occurrences of the earlier tokens where they were. */
  lemma FirstOccurrencesKept(init: seq<Token>, t: Token)
    requires FirstOccurrencesOf(init, FirstOccurrences(init))
    ensures var prev := FirstOccurrences(init);
      && FirstOccurrencesOf(init + [t], prev)
      && forall k :: 0 <= k < |prev| ==> FirstIndexOfId(init + [t], prev[k].id) < |init|
  {
    var ts := init + [t];
    var prev := FirstOccurrences(init);
    forall k | 0 <= k < |prev|
      ensures FirstIndexOfId(ts, prev[k].id) == FirstIndexOfId(init, prev[k].id) < |init|
      ensures prev[k] == ts[FirstIndexOfId(init, prev[k].id)]
    {
      FirstIndexAppend(init, t, prev[k].id);
      assert ts[FirstIndexOfId(init, prev[k].id)] == init[FirstIndexOfId(init, prev[k].id)];
    }
  }

  /** A token with a new id is its own first occurrence, after all the earlier ones. */
  lemma FirstOccurrencesNew(init: seq<Token>, t: Token)
    requires t.id !in Ids(init)
    requires var prev := FirstOccurrences(init);
      && FirstOccurrencesOf(init + [t], prev)
      && forall k :: 0 <= k < |prev| ==> FirstIndexOfId(init + [t], prev[k].id) < |init|
    ensures FirstOccurrencesOf(init + [t], FirstOccurrences(init) + [t])
  {
    var ts := init + [t];
    var prev := FirstOccurrences(init);
    IdsIndex(init, t.id);
    FirstIndexAppend(init, t, t.id);
    var out := prev + [t];
    forall k | 0 <= k < |out|
      ensures FirstIndexOfId(ts, out[k].id) < |ts| && out[k] == ts[FirstIndexOfId(ts, out[k].id)]
    {
      if k < |prev| {
        assert out[k] == prev[k];
      }
    }
    forall k, l | 0 <= k < l < |out|
      ensures FirstIndexOfId(ts, out[k].id) < FirstIndexOfId(ts, out[l].id)
    {
      if l < |prev| {
        assert out[k] == prev[k] && out[l] == prev[l];
      } else {
        assert out[k] == prev[k];
      }
    }
  }

  // ---------------------------------------------------------------- fetchTokenDetail

  /**
   * fetchTokenDetail: a thrown fetch, a non-OK status and a GraphQL `errors` body are errors;
   * otherwise the first row, or none.
   */
  function TokenDetailOutcome(reply: Reply<TokenDetail>): (r: Result<Option<TokenDetail>, FetchError>)
    ensures r.Err? <==> !Succeeds(reply)
    ensures r.Err? ==> r.error == ErrorOf(reply)
    ensures r.Ok? ==> (r.value.Some? <==> |reply.body.rows| > 0)
    ensures r.Ok? && r.value.Some? ==> r.value.value == reply.body.rows[0]
  {
    match reply
    case Thrown(msg) => Err(NetworkError(msg))
    case Response(status, body) =>
      if !IsOk(status) then Err(ApiError(status))
      else match body
        case Errors(first) => Err(GraphQLError(GraphQLMessage(first)))
        case Data(rows) => Ok(if |rows| > 0 then Some(rows[0]) else None)
  }

  // ---------------------------------------------------------------- fetchUserProfile

  /** `user.profile_by_id?.name || user.display_name || null` */
  function ProfileDisplayName(user: User): (name: Option<string>)
    ensures user.profile.Some? && Truthy(user.profile.value.name).Some? ==> name == user.profile.value.name
    ensures (user.profile.None? || Truthy(user.profile.value.name).None?) ==> name == Truthy(user.displayName)
  {
    if user.profile.Some? && Truthy(user.profile.value.name).Some? then user.profile.value.name
    else Truthy(user.displayName)
  }

  /** `data.data?.users?.[0]`: the first user of a successful body, if any. */
  function FirstRow<T>(body: Body<T>): Option<T> {
    if body.Data? && |body.rows| > 0 then Some(body.rows[0]) else None
  }

  /**
   * fetchUserProfile(address): the users endpoint is asked for the lower-cased address, the
   * linked-wallets endpoint for the user's profile id. A thrown fetch propagates; every other
   * failure falls back to the address itself as the only wallet.
   */
  function UserProfileOutcome(users: string -> Reply<User>, linked: int -> Reply<LinkedUser>, address: string)
    : (r: Result<LinkedWalletsResult, FetchError>)
    ensures var first := users(ToLower(address));
      var user := if first.Response? && IsOk(first.status) then FirstRow(first.body) else None;
      var linkedAsked := user.Some? && user.value.profileId.Some? && user.value.profileId.value != 0;
      var second := if linkedAsked then Some(linked(user.value.profileId.value)) else None;
      var found := second.Some? && second.value.Response? && IsOk(second.value.status)
                   && second.value.body.Data? && |second.value.body.rows| > 0;
      && (r.Err? <==> first.Thrown? || (second.Some? && second.value.Thrown?))
      && (r.Ok? ==> |r.value.linkedWallets| > 0)
      && (r.Ok? && !found ==> r.value.linkedWallets == [address])
      && (r.Ok? && found ==> |r.value.linkedWallets| == |second.value.body.rows|)
      && (r.Ok? && found ==> forall i :: 0 <= i < |second.value.body.rows| ==>
            r.value.linkedWallets[i] == second.value.body.rows[i].publicAddress)
      && (r.Ok? ==> r.value.profile == if linkedAsked then user.value.profile else None)
      && (r.Ok? ==> r.value.displayName == if linkedAsked then ProfileDisplayName(user.value)
                                           else if user.Some? then Truthy(user.value.displayName)
                                           else None)
  {
    var first := users(ToLower(address));
    if first.Thrown? then Err(NetworkError(first.message))
    else if !IsOk(first.status) then Ok(LinkedWalletsResult(None, [address], None))
    else
      var user := FirstRow(first.body);
      if user.None? || user.value.profileId.None? || user.value.profileId.value == 0 then
        Ok(LinkedWalletsResult(None, [address], if user.Some? then Truthy(user.value.displayName) else None))
      else
        var u := user.value;
        var second := linked(u.profileId.value);
        if second.Thrown? then Err(NetworkError(second.message))
        else if !IsOk(second.status) then Ok(LinkedWalletsResult(u.profile, [address], ProfileDisplayName(u)))
        else
          var wallets := if second.body.Data? then seq(|second.body.rows|, i requires 0 <= i < |second.body.rows| => second.body.rows[i].publicAddress) else [];
          Ok(LinkedWalletsResult(u.profile, if |wallets| > 0 then wallets else [address], ProfileDisplayName(u)))
  }
}
