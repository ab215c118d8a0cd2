/** retrieveMatches of src/the-boys.ts (lines 90-172): after the accounts are resolved, the
    first page of every account's match list is requested, then pages are requested for the
    whole batch in lockstep, round after round, until every account has reached its total;
    the matches are then written out one row per (account, match). The matchlist endpoint
    is an oracle from request to page. */
module MatchPaging {
  import opened Results
  import opened Seqs
  import opened Text
  import opened Json
  import Accounts

  /** The roster of lines 14-47: names and summoner names only. */
  const Roster: seq<Object> := [
    [Prop("name", Str("MJ")), Prop("summonerName", Str("TheRoughead"))],
    [Prop("name", Str("DJ")), Prop("summonerName", Str("angjanrg"))],
    [Prop("name", Str("Big PATTO")), Prop("summonerName", Str("aPatto"))],
    [Prop("name", Str("Seedy Sam")), Prop("summonerName", Str("Seedysam23"))],
    [Prop("name", Str("BIG RIX")), Prop("summonerName", Str("RiXY14"))],
    [Prop("name", Str("The Real DJ")), Prop("summonerName", Str("DJ DARC"))],
    [Prop("name", Str("Lach")), Prop("summonerName", Str("patto33"))]
  ]

  /** A matchlist request: the account id as the URL spells it, and the beginIndex query
      parameter when the URL carries one. */
  datatype Request = Request(accountId: string, beginIndex: Option<int>)

  /** The fields of a matchlist response the script reads: the game ids of the page, the
      account's total and the index after the page. */
  datatype Page = Page(gameIds: seq<int>, totalGames: int, endIndex: int)

  /** BoyWithMatches: the resolved account spread, then offset, totalGames and the game ids
      gathered so far. */
  datatype Boy = Boy(account: Object, offset: int, totalGames: int, matches: seq<int>)

  // ------------------------------------------------------------------ the rounds

  /** getInitialMatchesForSummoner: one request per account without beginIndex; offset and
      totalGames from the response, the page's game ids as the matches. */
  function InitialMatches(accounts: seq<Object>, page: Request -> Page): (r: seq<Boy>)
    ensures |r| == |accounts|
    ensures forall i :: 0 <= i < |accounts| ==>
              var p := page(Request(Accounts.UrlId(accounts[i]), None));
              && r[i].account == accounts[i]
              && r[i].offset == p.endIndex && r[i].totalGames == p.totalGames
              && r[i].matches == p.gameIds
  {
    seq(|accounts|, i requires 0 <= i < |accounts| =>
      var p := page(Request(Accounts.UrlId(accounts[i]), None));
      Boy(accounts[i], p.endIndex, p.totalGames, p.gameIds))
  }

  /** The test of line 121. */
  predicate AllDone(batch: seq<Boy>) {
    forall i :: 0 <= i < |batch| ==> batch[i].offset >= batch[i].totalGames
  }

  /** The request of line 127 for one account, finished or not. */
  function NextRequest(b: Boy): Request {
    Request(Accounts.UrlId(b.account), Some(b.offset))
  }

  /** Lines 135-144 for one account: offset and totalGames replaced, the page's game ids
      appended. */
  function Advance(b: Boy, p: Page): Boy {
    b.(offset := p.endIndex, totalGames := p.totalGames, matches := b.matches + p.gameIds)
  }

  /** One round: every account of the batch, finished or not, asks for the page at its
      offset; the batch keeps its length, order and accounts, and every account's matches
      grow at the end. */
  function NextRound(batch: seq<Boy>, page: Request -> Page): (r: seq<Boy>)
    ensures |r| == |batch|
    ensures forall i :: 0 <= i < |batch| ==>
              var p := page(NextRequest(batch[i]));
              && r[i].account == batch[i].account
              && r[i].offset == p.endIndex && r[i].totalGames == p.totalGames
              && batch[i].matches <= r[i].matches
              && r[i].matches[|batch[i].matches|..] == p.gameIds
  {
    seq(|batch|, i requires 0 <= i < |batch| => Advance(batch[i], page(NextRequest(batch[i]))))
  }

  /** The batch after n rounds. */
  function Rounds(batch: seq<Boy>, page: Request -> Page, n: nat): seq<Boy>
    decreases n
  {
    if n == 0 then batch else Rounds(NextRound(batch, page), page, n - 1)
  }

  /** getSubsequentMatchesForSummoner: a finished batch is returned as it is, otherwise one
      round is run and paging goes on. The source recurses until the batch is finished,
      however long that takes; here at most `fuel` rounds are run, and None means the batch
      was not finished by then. */
  function SubsequentMatches(batch: seq<Boy>, page: Request -> Page, fuel: nat): (r: Option<seq<Boy>>)
    ensures r.Some? ==> AllDone(r.value) && |r.value| == |batch|
    ensures r.Some? ==> forall i :: 0 <= i < |batch| ==>
              r.value[i].account == batch[i].account && batch[i].matches <= r.value[i].matches
    decreases fuel
  {
    if AllDone(batch) then Some(batch)
    else if fuel == 0 then None
    else SubsequentMatches(NextRound(batch, page), page, fuel - 1)
  }

  /** The batch after n rounds has the accounts of the batch, in the same order, and each
      account's matches extend the ones it had. */
  lemma {:induction false} RoundsExtend(batch: seq<Boy>, page: Request -> Page, n: nat)
    ensures |Rounds(batch, page, n)| == |batch|
    ensures forall i :: 0 <= i < |batch| ==>
              Rounds(batch, page, n)[i].account == batch[i].account
              && batch[i].matches <= Rounds(batch, page, n)[i].matches
    decreases n
  {
    if n > 0 {
      RoundsExtend(NextRound(batch, page), page, n - 1);
    }
  }

  /** The number of rounds paging runs with `fuel`. */
  function RoundsRun(batch: seq<Boy>, page: Request -> Page, fuel: nat): (n: nat)
    ensures n <= fuel
    decreases fuel
  {
    if AllDone(batch) || fuel == 0 then 0 else 1 + RoundsRun(NextRound(batch, page), page, fuel - 1)
  }

  /** Paging stops at the first finished round, and asks for no page once the batch is
      finished: the result is the batch after the rounds run, and no earlier round was
      finished. */
  lemma {:induction false} PagingStopsAtFirstDone(batch: seq<Boy>, page: Request -> Page, fuel: nat)
    ensures var r := SubsequentMatches(batch, page, fuel);
            var n := RoundsRun(batch, page, fuel);
            && (r.Some? ==> r.value == Rounds(batch, page, n))
            && forall j :: 0 <= j < n ==> !AllDone(Rounds(batch, page, j))
    decreases fuel
  {
    if !AllDone(batch) && fuel > 0 {
      var next := NextRound(batch, page);
      PagingStopsAtFirstDone(next, page, fuel - 1);
      var n := RoundsRun(batch, page, fuel);
      forall j | 0 <= j < n
        ensures !AllDone(Rounds(batch, page, j))
      {
        if j > 0 {
          assert Rounds(batch, page, j) == Rounds(next, page, j - 1);
        }
      }
    }
  }

  /** Paging gives a result exactly when some round within the fuel finishes the batch. */
  lemma PagingFinishes(batch: seq<Boy>, page: Request -> Page, fuel: nat)
    ensures SubsequentMatches(batch, page, fuel).Some? <==>
            exists n: nat :: n <= fuel && AllDone(Rounds(batch, page, n))
  {
    PagingStopsAtFirstDone(batch, page, fuel);
    if SubsequentMatches(batch, page, fuel).Some? {
      var n := RoundsRun(batch, page, fuel);
      assert AllDone(Rounds(batch, page, n));
    }
    forall n: nat | n <= fuel && AllDone(Rounds(batch, page, n))
      ensures SubsequentMatches(batch, page, fuel).Some?
    {
      PagingFuel(batch, page, n, fuel);
    }
  }

  /** Once the batch is finished after n rounds, any fuel of at least n gives the same
      result, and it is found. */
  lemma {:induction false} PagingFuel(batch: seq<Boy>, page: Request -> Page, n: nat, fuel: nat)
    requires AllDone(Rounds(batch, page, n)) && n <= fuel
    ensures SubsequentMatches(batch, page, fuel).Some?
    ensures SubsequentMatches(batch, page, fuel) == SubsequentMatches(batch, page, n)
    decreases n
  {
    if !AllDone(batch) {
      PagingFuel(NextRound(batch, page), page, n - 1, fuel - 1);
    }
  }

  // ------------------------------------------------------------------ a well-behaved endpoint

  /** A matchlist endpoint that serves a fixed history per account in pages of `size` games:
      the page at a begin index (0 when absent, clamped to the history) holds the next
      `size` games, totalGames is the length of the history, and endIndex is the index
      after the page. */
  function IdealResponse(history: string -> seq<int>, size: nat, req: Request): (p: Page)
    ensures 0 <= p.endIndex <= p.totalGames == |history(req.accountId)|
  {
    var h := history(req.accountId);
    var b := match req.beginIndex
             case None => 0
             case Some(b) => if b < 0 then 0 else if b > |h| then |h| else b;
    var e := if b + size < |h| then b + size else |h|;
    Page(h[b..e], |h|, e)
  }

  function IdealPage(history: string -> seq<int>, size: nat): Request -> Page {
    (req: Request) => IdealResponse(history, size, req)
  }

  /** The account has the first `offset` games of its history and knows the total. */
  ghost predicate Consistent(b: Boy, history: string -> seq<int>) {
    var h := history(Accounts.UrlId(b.account));
    b.totalGames == |h| && 0 <= b.offset <= |h| && b.matches == h[..b.offset]
  }

  /** The first page leaves every account consistent with its history. */
  lemma FirstPageConsistent(accounts: seq<Object>, history: string -> seq<int>, size: nat)
    ensures var batch := InitialMatches(accounts, IdealPage(history, size));
            forall i :: 0 <= i < |batch| ==> Consistent(batch[i], history)
  {
  }

  /** A round with that endpoint keeps every account consistent, and moves each offset on
      by a page, up to the total. */
  lemma RoundConsistent(batch: seq<Boy>, history: string -> seq<int>, size: nat)
    requires forall i :: 0 <= i < |batch| ==> Consistent(batch[i], history)
    ensures var next := NextRound(batch, IdealPage(history, size));
            forall i :: 0 <= i < |batch| ==>
              && Consistent(next[i], history)
              && next[i].offset == if batch[i].offset + size < batch[i].totalGames
                                   then batch[i].offset + size else batch[i].totalGames
  {
    var next := NextRound(batch, IdealPage(history, size));
    forall i | 0 <= i < |batch|
      ensures Consistent(next[i], history)
    {
      var h := history(Accounts.UrlId(batch[i].account));
      var p := IdealResponse(history, size, NextRequest(batch[i]));
      assert next[i].matches == h[..batch[i].offset] + p.gameIds;
      assert h[..batch[i].offset] + h[batch[i].offset..p.endIndex] == h[..p.endIndex];
    }
  }

  /** With pages of at least one game, paging with as much fuel as the longest remaining
      history finishes, and every account then holds its whole history, in order. */
  lemma {:induction false} IdealPagingCollectsAll(batch: seq<Boy>, history: string -> seq<int>, size: nat, fuel: nat)
    requires size > 0
    requires forall i :: 0 <= i < |batch| ==> Consistent(batch[i], history)
    requires forall i :: 0 <= i < |batch| ==> batch[i].totalGames - batch[i].offset <= fuel
    ensures var r := SubsequentMatches(batch, IdealPage(history, size), fuel);
            r.Some? && forall i :: 0 <= i < |batch| ==>
              r.value[i].account == batch[i].account && r.value[i].matches == history(Accounts.UrlId(batch[i].account))
    decreases fuel
  {
    if AllDone(batch) {
      DoneHoldsHistory(batch, history);
    } else {
      var page := IdealPage(history, size);
      var next := NextRound(batch, page);
      RoundProgress(batch, history, size, fuel);
      IdealPagingCollectsAll(next, history, size, fuel - 1);
      var r := SubsequentMatches(next, page, fuel - 1);
      assert SubsequentMatches(batch, page, fuel) == r;
      forall i | 0 <= i < |batch|
        ensures r.value[i].account == batch[i].account
      {
        assert next[i].account == batch[i].account;
      }
    }
  }

  /** A finished, consistent batch holds every account's whole history. */
  lemma DoneHoldsHistory(batch: seq<Boy>, history: string -> seq<int>)
    requires AllDone(batch)
    requires forall i :: 0 <= i < |batch| ==> Consistent(batch[i], history)
    ensures forall i :: 0 <= i < |batch| ==> batch[i].matches == history(Accounts.UrlId(batch[i].account))
  {
    forall i | 0 <= i < |batch|
      ensures batch[i].matches == history(Accounts.UrlId(batch[i].account))
    {
      var h := history(Accounts.UrlId(batch[i].account));
      assert h[..|h|] == h;
    }
  }

  /** A round of an unfinished batch leaves every account consistent, with one game less
      of fuel needed. */
  lemma RoundProgress(batch: seq<Boy>, history: string -> seq<int>, size: nat, fuel: nat)
    requires size > 0 && !AllDone(batch)
    requires forall i :: 0 <= i < |batch| ==> Consistent(batch[i], history)
    requires forall i :: 0 <= i < |batch| ==> batch[i].totalGames - batch[i].offset <= fuel
    ensures fuel > 0
    ensures var next := NextRound(batch, IdealPage(history, size));
            forall i :: 0 <= i < |next| ==>
              Consistent(next[i], history) && next[i].totalGames - next[i].offset <= fuel - 1
  {
    var i0 :| 0 <= i0 < |batch| && batch[i0].offset < batch[i0].totalGames;
    RoundConsistent(batch, history, size);
  }

  // ------------------------------------------------------------------ rows

  /** `values({ accountId, name, summonerName, gameId }).join(',')` for one match. */
  function RowOf(b: Boy, gameId: int): string {
    Join([Render(Get(b.account, "accountId")), Render(Get(b.account, "name")),
          Render(Get(b.account, "summonerName")), IntToDecimal(gameId)], ',')
  }

  /** The rows of one account, in match order. */
  function RowsOf(b: Boy): (rs: seq<string>)
    ensures |rs| == |b.matches|
  {
    seq(|b.matches|, j requires 0 <= j < |b.matches| => RowOf(b, b.matches[j]))
  }

  function RowLists(batch: seq<Boy>): (ls: seq<seq<string>>)
    ensures |ls| == |batch|
  {
    seq(|batch|, i requires 0 <= i < |batch| => RowsOf(batch[i]))
  }

  /** The match lists of the batch, in batch order. */
  function MatchLists(batch: seq<Boy>): (ls: seq<seq<int>>)
    ensures |ls| == |batch|
  {
    seq(|batch|, i requires 0 <= i < |batch| => batch[i].matches)
  }

  /** flattenIntoRows: the rows of every account, accounts in batch order. */
  function FlattenIntoRows(batch: seq<Boy>): (rows: seq<string>)
    ensures |rows| == TotalLength(MatchLists(batch))
  {
    FlattenLength(RowLists(batch));
    TotalLengthSameShape(RowLists(batch), MatchLists(batch));
    Flatten(RowLists(batch))
  }

  /** Rows are ordered by account, then by match: the row of match j of account i comes
      after all the matches of the accounts before i. */
  lemma RowOrder(batch: seq<Boy>, i: nat, j: nat)
    requires i < |batch| && j < |batch[i].matches|
    ensures var k := TotalLength(MatchLists(batch)[..i]) + j;
            k < |FlattenIntoRows(batch)| && FlattenIntoRows(batch)[k] == RowOf(batch[i], batch[i].matches[j])
  {
    FlattenIndex(RowLists(batch), i, j);
    TotalLengthSameShape(RowLists(batch)[..i], MatchLists(batch)[..i]);
  }

  /** retrieveMatches without the file write: the rows joined by newlines, once paging has
      finished within `fuel` rounds. */
  function RetrieveMatches(roster: seq<Object>, summoner: Value -> Object, page: Request -> Page, fuel: nat): (r: Option<string>)
    ensures var batch := InitialMatches(Accounts.ResolveAccounts(roster, summoner), page);
            r.Some? <==> exists n: nat :: n <= fuel && AllDone(Rounds(batch, page, n))
  {
    var accounts := Accounts.ResolveAccounts(roster, summoner);
    PagingFinishes(InitialMatches(accounts, page), page, fuel);
    match SubsequentMatches(InitialMatches(accounts, page), page, fuel)
    case None => None
    case Some(batch) => Some(Join(FlattenIntoRows(batch), '\n'))
  }

  /** With pages of at least one game and fuel for the longest history, the rows are those
      of every account's whole history, in roster order. */
  lemma IdealRetrieveAll(roster: seq<Object>, summoner: Value -> Object, history: string -> seq<int>, size: nat, fuel: nat)
    requires size > 0
    requires forall i :: 0 <= i < |roster| ==>
               |history(Accounts.UrlId(Accounts.ResolveAccounts(roster, summoner)[i]))| <= fuel
    ensures var accounts := Accounts.ResolveAccounts(roster, summoner);
            var page := IdealPage(history, size);
            var r := SubsequentMatches(InitialMatches(accounts, page), page, fuel);
            && r.Some? && |r.value| == |roster|
            && (forall i :: 0 <= i < |roster| ==>
                  r.value[i].account == accounts[i] && r.value[i].matches == history(Accounts.UrlId(accounts[i])))
            && RetrieveMatches(roster, summoner, page, fuel) == Some(Join(FlattenIntoRows(r.value), '\n'))
  {
    var accounts := Accounts.ResolveAccounts(roster, summoner);
    FirstPageConsistent(accounts, history, size);
    IdealPagingCollectsAll(InitialMatches(accounts, IdealPage(history, size)), history, size, fuel);
  }
}
