/** The root script the-boys.ts: the accounts are resolved, the first three games of each
    account's match list are kept, and every game's record is looked up for the account's
    statistics; flattenIntoCsv turns the result into one record per (account, game). The
    summoner, matchlist and match endpoints are oracles. */
module TheBoys {
  import opened Results
  import opened Seqs
  import opened Text
  import opened Json
  import opened MatchRecords
  import Accounts

  /** The roster of lines 6-40; MJ's entry carries the account id, as a string. */
  const Roster: seq<Object> := [
    [Prop("name", Str("MJ")), Prop("summonerName", Str("TheRoughead")), Prop("accountId", Str("200394182"))],
    [Prop("name", Str("DJ")), Prop("summonerName", Str("angjanrg"))],
    [Prop("name", Str("Big PATTO")), Prop("summonerName", Str("aPatto"))],
    [Prop("name", Str("Seedy Sam")), Prop("summonerName", Str("Seedysam23"))],
    [Prop("name", Str("BIG RIX")), Prop("summonerName", Str("RiXY14"))],
    [Prop("name", Str("The Real DJ")), Prop("summonerName", Str("DJ DARC"))],
    [Prop("name", Str("Lach")), Prop("summonerName", Str("patto33"))]
  ]

  /** BoyWithMatches: the resolved account spread, then the game ids kept. */
  datatype Boy = Boy(account: Object, matches: seq<int>)

  /** One element of getDetailsForMatchesAux's result, `{ stats, gameId }`. */
  datatype Detail = Detail(stats: Object, gameId: Value)

  /** BoyWithDetsMatches: the account spread, then its details in place of its matches. */
  datatype BoyDets = BoyDets(account: Object, matches: seq<Detail>)

  /** MJ's account id, as the roster spells it, wins over the one the endpoint returns. */
  lemma RosterAccountIdWins(summoner: Value -> Object)
    ensures Get(Accounts.ResolveAccounts(Roster, summoner)[0], "accountId") == Str("200394182")
    ensures Accounts.UrlId(Accounts.ResolveAccounts(Roster, summoner)[0]) == "200394182"
  {
    var mj := Roster[0];
    assert Names(mj) == ["name", "summonerName", "accountId"] by {
      assert Names(mj[2..]) == ["accountId"];
      assert Names(mj[1..]) == ["summonerName", "accountId"];
    }
    assert Get(mj, "accountId") == Str("200394182") by {
      assert mj[2..][0].name == "accountId";
    }
    Accounts.RosterFieldsWin(Roster, summoner, 0, "accountId");
  }

  // ------------------------------------------------------------------ match lists

  /** `matches.slice(0, 3)`. */
  function FirstThree(gameIds: seq<int>): (r: seq<int>)
    ensures r <= gameIds
    ensures |r| == if |gameIds| < 3 then |gameIds| else 3
  {
    if |gameIds| <= 3 then gameIds else gameIds[..3]
  }

  /** getMatchesForSummoner: the first page of each account's match list, of which the first
      three games are kept in page order; the accounts keep their order and fields. */
  function MatchesForSummoner(accounts: seq<Object>, matchlist: string -> seq<int>): (r: seq<Boy>)
    ensures |r| == |accounts|
    ensures forall i :: 0 <= i < |accounts| ==>
              var page := matchlist(Accounts.UrlId(accounts[i]));
              && r[i].account == accounts[i]
              && r[i].matches <= page
              && |r[i].matches| == (if |page| < 3 then |page| else 3)
  {
    seq(|accounts|, i requires 0 <= i < |accounts| =>
      Boy(accounts[i], FirstThree(matchlist(Accounts.UrlId(accounts[i])))))
  }

  // ------------------------------------------------------------------ the detail lookup

  /** `===` on the values the identities carry: objects, which are compared by reference,
      never match a value that was not taken from them. */
  predicate StrictlyEqual(a: Value, b: Value) {
    a == b && !a.Obj?
  }

  /** The `find` callback of line 131. */
  predicate OwnedAsWritten(p: Identity, accountId: Value) {
    StrictlyEqual(p.player.accountId, accountId)
  }

  ghost predicate FirstOwnedAsWritten(ids: seq<Identity>, accountId: Value, i: int) {
    0 <= i < |ids| && OwnedAsWritten(ids[i], accountId)
    && forall j :: 0 <= j < i ==> !OwnedAsWritten(ids[j], accountId)
  }

  /** The lookup of lines 128-135 as written: the first identity whose player.accountId is
      strictly equal to the account's, then `participants[participantId].stats`, with the
      record's own gameId. */
  function DetailsForMatchAsWritten(accountId: Value, m: MatchRecord): (r: Result<Detail>)
    ensures r.Ok? ==> r.value.gameId == m.gameId
    ensures r.Err? ==> r.error == ParticipantNotFound || r.error.SlotMissing?
  {
    match Find(m.participantIdentities, (p: Identity) => OwnedAsWritten(p, accountId))
    case None => Err(ParticipantNotFound)
    case Some(i) =>
      match StatsAt(m, m.participantIdentities[i].participantId)
      case Err(e) => Err(e)
      case Ok(stats) => Ok(Detail(stats, m.gameId))
  }

  /** The lookup throws on reading participantId exactly when no identity's account id is
      strictly equal to the account's. */
  lemma AsWrittenNotFound(accountId: Value, m: MatchRecord)
    ensures DetailsForMatchAsWritten(accountId, m) == Err(ParticipantNotFound) <==>
            forall j :: 0 <= j < |m.participantIdentities| ==> !OwnedAsWritten(m.participantIdentities[j], accountId)
  {
    var found := Find(m.participantIdentities, (p: Identity) => OwnedAsWritten(p, accountId));
    if found.Some? {
      assert OwnedAsWritten(m.participantIdentities[found.value], accountId);
    }
  }

  /** With the numbering of the match API, the lookup as written reads the slot of the
      participant numbered one past the account's own, and fails for the last participant. */
  lemma AsWrittenReadsNextSlot(accountId: Value, m: MatchRecord, i: nat)
    requires SlotsNumbered(m)
    requires FirstOwnedAsWritten(m.participantIdentities, accountId, i)
    ensures var pid := m.participantIdentities[i].participantId;
            var r := DetailsForMatchAsWritten(accountId, m);
            && (r.Ok? <==> 0 <= pid < |m.participants|)
            && (r.Ok? ==> m.participants[pid].participantId == pid + 1 && r.value.stats == m.participants[pid].stats)
            && (pid == |m.participants| ==> r == Err(SlotMissing(pid)))
  {
    var found := Find(m.participantIdentities, (p: Identity) => OwnedAsWritten(p, accountId));
    assert OwnedAsWritten(m.participantIdentities[i], accountId);
    assert found == Some(i);
  }

  /** The values that name the same account number: a number, or a string of decimal
      digits. */
  function AccountNumber(v: Value): Option<int> {
    match v
    case Num(n) => Some(n)
    case Str(s) => ParseDecimal(s)
    case _ => None
  }

  predicate SameAccount(p: Identity, accountId: Value) {
    AccountNumber(accountId).Some? && AccountNumber(p.player.accountId) == AccountNumber(accountId)
  }

  /** The `find` callback as intended: it depends on the account id only through its
      number. */
  function SameNumber(number: Option<int>): Identity -> bool {
    (p: Identity) => number.Some? && AccountNumber(p.player.accountId) == number
  }

  ghost predicate FirstSameAccount(ids: seq<Identity>, accountId: Value, i: int) {
    0 <= i < |ids| && SameAccount(ids[i], accountId)
    && forall j :: 0 <= j < i ==> !SameAccount(ids[j], accountId)
  }

  /** The lookup as intended: the first identity of the same account number, then the slot
      `participantId - 1`, with the record's own gameId. */
  function DetailsForMatch(accountId: Value, m: MatchRecord): (r: Result<Detail>)
    ensures r.Ok? ==> r.value.gameId == m.gameId
    ensures r.Err? ==> r.error == ParticipantNotFound || r.error.SlotMissing?
  {
    match Find(m.participantIdentities, SameNumber(AccountNumber(accountId)))
    case None => Err(ParticipantNotFound)
    case Some(i) =>
      match StatsAt(m, m.participantIdentities[i].participantId - 1)
      case Err(e) => Err(e)
      case Ok(stats) => Ok(Detail(stats, m.gameId))
  }

  /** With the numbering of the match API, the intended lookup reads the account's own
      slot, and fails exactly when the identity's participantId is out of range. */
  lemma DetailsAreOwnSlot(accountId: Value, m: MatchRecord, i: nat)
    requires SlotsNumbered(m)
    requires FirstSameAccount(m.participantIdentities, accountId, i)
    ensures var pid := m.participantIdentities[i].participantId;
            var r := DetailsForMatch(accountId, m);
            && (r.Ok? <==> 1 <= pid <= |m.participants|)
            && (r.Ok? ==> m.participants[pid - 1].participantId == pid && r.value.stats == m.participants[pid - 1].stats)
  {
    var found := Find(m.participantIdentities, SameNumber(AccountNumber(accountId)));
    assert SameNumber(AccountNumber(accountId))(m.participantIdentities[i]);
    assert found == Some(i);
  }

  /** The match API spells every account id as a number. */
  predicate NumericIds(m: MatchRecord) {
    forall k :: 0 <= k < |m.participantIdentities| ==> m.participantIdentities[k].player.accountId.Num?
  }

  /** An account id written as a string never strictly equals the numeric ids the match API
      returns, so the lookup as written always throws for it. */
  lemma StringIdNeverMatches(s: string, m: MatchRecord)
    requires NumericIds(m)
    ensures DetailsForMatchAsWritten(Str(s), m) == Err(ParticipantNotFound)
  {
    AsWrittenNotFound(Str(s), m);
  }

  /** The intended lookup treats the decimal string of an account number as that number. */
  lemma StringIdSameAsNumber(n: int, m: MatchRecord)
    ensures DetailsForMatch(Str(IntToDecimal(n)), m) == DetailsForMatch(Num(n), m)
  {
    DecimalRoundTrip(n);
  }

  /** A two-player game numbered from 1 where the first player's lookup as written reads the
      second player's statistics and the second player's lookup throws, while the intended
      lookup reads each player's own. */
  lemma OffByOneExample(mine: Object, theirs: Object)
    ensures var m := MatchRecord(Num(1),
                                 [Identity(1, Player(Num(7), Num(7))), Identity(2, Player(Num(8), Num(8)))],
                                 [Participant(1, mine), Participant(2, theirs)]);
            && DetailsForMatchAsWritten(Num(7), m) == Ok(Detail(theirs, Num(1)))
            && DetailsForMatchAsWritten(Num(8), m) == Err(SlotMissing(2))
            && DetailsForMatch(Num(7), m) == Ok(Detail(mine, Num(1)))
            && DetailsForMatch(Num(8), m) == Ok(Detail(theirs, Num(1)))
  {
    var m := MatchRecord(Num(1),
                         [Identity(1, Player(Num(7), Num(7))), Identity(2, Player(Num(8), Num(8)))],
                         [Participant(1, mine), Participant(2, theirs)]);
    AsWrittenReadsNextSlot(Num(7), m, 0);
    AsWrittenReadsNextSlot(Num(8), m, 1);
    DetailsAreOwnSlot(Num(7), m, 0);
    DetailsAreOwnSlot(Num(8), m, 1);
  }

  // ------------------------------------------------------------------ all accounts

  /** `Promise.all` over lookups: all values in order, or a failure of one of them; the
      failure reported is the first in index order. */
  function AllOk<T>(rs: seq<Result<T>>): (r: Result<seq<T>>)
    ensures r.Ok? <==> forall i :: 0 <= i < |rs| ==> rs[i].Ok?
    ensures r.Ok? ==> |r.value| == |rs| && forall i :: 0 <= i < |rs| ==> r.value[i] == rs[i].value
    ensures r.Err? ==> exists i :: 0 <= i < |rs| && rs[i] == Err(r.error) && forall j :: 0 <= j < i ==> rs[j].Ok?
  {
    if |rs| == 0 then Ok([])
    else
      var n := |rs| - 1;
      assert forall i :: 0 <= i < n ==> rs[..n][i] == rs[i];
      match AllOk(rs[..n])
      case Err(e) => Err(e)
      case Ok(init) =>
        match rs[n]
        case Err(e) => Err(e)
        case Ok(v) => Ok(init + [v])
  }

  /** The lookups the script makes: account id and game id to details, on the record the
      match endpoint returns for the game id. */
  function AsWrittenLookup(fetch: int -> MatchRecord): (Value, int) -> Result<Detail> {
    (accountId: Value, gameId: int) => DetailsForMatchAsWritten(accountId, fetch(gameId))
  }

  function IntendedLookup(fetch: int -> MatchRecord): (Value, int) -> Result<Detail> {
    (accountId: Value, gameId: int) => DetailsForMatch(accountId, fetch(gameId))
  }

  /** The lookups of one account, one per kept game, in game order. */
  function LookupsOf(b: Boy, lookup: (Value, int) -> Result<Detail>): (rs: seq<Result<Detail>>)
    ensures |rs| == |b.matches|
  {
    seq(|b.matches|, j requires 0 <= j < |b.matches| => lookup(Get(b.account, "accountId"), b.matches[j]))
  }

  /** getDetailsForMatchesAux: the details of the account's games, in game order, or a
      failed lookup. */
  function DetailsForMatchesAux(b: Boy, lookup: (Value, int) -> Result<Detail>): (r: Result<seq<Detail>>)
    ensures r.Ok? <==> forall j :: 0 <= j < |b.matches| ==> lookup(Get(b.account, "accountId"), b.matches[j]).Ok?
    ensures r.Ok? ==> |r.value| == |b.matches| && forall j :: 0 <= j < |b.matches| ==>
                        r.value[j] == lookup(Get(b.account, "accountId"), b.matches[j]).value
    ensures r.Err? ==> exists j :: 0 <= j < |b.matches| && lookup(Get(b.account, "accountId"), b.matches[j]) == Err(r.error)
                                   && forall j' :: 0 <= j' < j ==> lookup(Get(b.account, "accountId"), b.matches[j']).Ok?
  {
    var rs := LookupsOf(b, lookup);
    assert forall j :: 0 <= j < |b.matches| ==> rs[j] == lookup(Get(b.account, "accountId"), b.matches[j]);
    AllOk(rs)
  }

  /** getDetailsForMatches: every account's matches replaced, position by position, by the
      details of its games; the account fields are kept. */
  function DetailsForMatches(boys: seq<Boy>, lookup: (Value, int) -> Result<Detail>): (r: Result<seq<BoyDets>>)
    ensures r.Ok? <==> forall i, j :: 0 <= i < |boys| && 0 <= j < |boys[i].matches| ==>
                         lookup(Get(boys[i].account, "accountId"), boys[i].matches[j]).Ok?
    ensures r.Ok? ==> |r.value| == |boys| && forall i :: 0 <= i < |boys| ==>
                        && r.value[i].account == boys[i].account
                        && |r.value[i].matches| == |boys[i].matches|
                        && forall j :: 0 <= j < |boys[i].matches| ==>
                             r.value[i].matches[j] == lookup(Get(boys[i].account, "accountId"), boys[i].matches[j]).value
  {
    var perBoy := seq(|boys|, i requires 0 <= i < |boys| => DetailsForMatchesAux(boys[i], lookup));
    match AllOk(perBoy)
    case Err(e) =>
      var i :| 0 <= i < |boys| && perBoy[i].Err?;
      assert DetailsForMatchesAux(boys[i], lookup).Err?;
      Err(e)
    case Ok(lists) =>
      assert forall i :: 0 <= i < |boys| ==> perBoy[i] == DetailsForMatchesAux(boys[i], lookup);
      assert forall i :: 0 <= i < |boys| ==> perBoy[i].Ok?;
      Ok(seq(|boys|, i requires 0 <= i < |boys| => BoyDets(boys[i].account, lists[i])))
  }

  /** run() up to the lookups: accounts resolved, three games kept per account, every game
      looked up as written. */
  function Run(roster: seq<Object>, summoner: Value -> Object, matchlist: string -> seq<int>,
               fetch: int -> MatchRecord): (r: Result<seq<BoyDets>>)
    ensures r.Ok? ==> |r.value| == |roster| && forall i :: 0 <= i < |roster| ==>
                        r.value[i].account == Accounts.ResolveAccounts(roster, summoner)[i]
                        && |r.value[i].matches| <= 3
  {
    DetailsForMatches(MatchesForSummoner(Accounts.ResolveAccounts(roster, summoner), matchlist), AsWrittenLookup(fetch))
  }

  /** As written, the run throws ParticipantNotFound whenever MJ has a game and the match
      API spells account ids as numbers: MJ's id is the roster's string. */
  lemma RunFailsOnStringId(summoner: Value -> Object, matchlist: string -> seq<int>, fetch: int -> MatchRecord)
    requires |matchlist("200394182")| > 0
    requires forall g :: NumericIds(fetch(g))
    ensures Run(Roster, summoner, matchlist, fetch) == Err(ParticipantNotFound)
  {
    var accounts := Accounts.ResolveAccounts(Roster, summoner);
    RosterAccountIdWins(summoner);
    var boys := MatchesForSummoner(accounts, matchlist);
    var lookup := AsWrittenLookup(fetch);
    var mj := boys[0];
    forall j | 0 <= j < |mj.matches|
      ensures LookupsOf(mj, lookup)[j] == Err(ParticipantNotFound)
    {
      var g := mj.matches[j];
      assert NumericIds(fetch(g));
      StringIdNeverMatches("200394182", fetch(g));
    }
    var first := DetailsForMatchesAux(mj, lookup);
    assert first == Err(ParticipantNotFound);
    var perBoy := seq(|boys|, i requires 0 <= i < |boys| => DetailsForMatchesAux(boys[i], lookup));
    assert perBoy[0] == first;
  }

  /** The decimal text of MJ's account number. */
  lemma MjDecimal()
    ensures IntToDecimal(200394182) == "200394182"
  {
    assert NatToDecimal(2) == "2";
    assert NatToDecimal(20) == "20";
    assert NatToDecimal(200) == "200";
    assert NatToDecimal(2003) == "2003";
    assert NatToDecimal(20039) == "20039";
    assert NatToDecimal(200394) == "200394";
    assert NatToDecimal(2003941) == "2003941";
    assert NatToDecimal(20039418) == "20039418";
    assert NatToDecimal(200394182) == "200394182";
  }

  /** With the intended lookup, MJ's games are looked up as those of the account number
      200394182, whatever the endpoint returned for MJ. */
  lemma IntendedFindsStringId(summoner: Value -> Object, fetch: int -> MatchRecord, g: int)
    ensures var mj := Accounts.ResolveAccounts(Roster, summoner)[0];
            IntendedLookup(fetch)(Get(mj, "accountId"), g) == IntendedLookup(fetch)(Num(200394182), g)
  {
    RosterAccountIdWins(summoner);
    MjDecimal();
    StringIdSameAsNumber(200394182, fetch(g));
  }

  // ------------------------------------------------------------------ records

  /** The literal part of a record, `{ accountId, name, summonerName, gameId }`. */
  function RecordHead(account: Object, gameId: Value): (o: Object)
    ensures Names(o) == ["accountId", "name", "summonerName", "gameId"]
  {
    var o := [Prop("accountId", Get(account, "accountId")), Prop("name", Get(account, "name")),
              Prop("summonerName", Get(account, "summonerName")), Prop("gameId", gameId)];
    assert Names(o[3..]) == ["gameId"];
    assert Names(o[2..]) == ["summonerName", "gameId"];
    assert Names(o[1..]) == ["name", "summonerName", "gameId"];
    o
  }

  /** `{ accountId, name, summonerName, gameId, ...stats }` for one detail. */
  function RecordOf(account: Object, d: Detail): Object {
    Assign(RecordHead(account, d.gameId), d.stats)
  }

  /** The records of every account, one list per account, in game order. */
  function RecordLists(boys: seq<BoyDets>): (ls: seq<seq<Object>>)
    ensures |ls| == |boys|
    ensures forall i :: 0 <= i < |boys| ==> |ls[i]| == |boys[i].matches|
  {
    seq(|boys|, i requires 0 <= i < |boys| =>
      seq(|boys[i].matches|, j requires 0 <= j < |boys[i].matches| => RecordOf(boys[i].account, boys[i].matches[j])))
  }

  /** flattenIntoCsv as written: the call `.flatten()` on the array of record lists throws,
      arrays having no method of that name. */
  function FlattenIntoCsvAsWritten(boys: seq<BoyDets>): (r: Result<seq<Object>>)
    ensures r.Err?
  {
    Err(NotAFunction("flatten"))
  }

  /** flattenIntoCsv as intended: the record lists concatenated, one record per detail. */
  function FlattenIntoCsv(boys: seq<BoyDets>): (r: seq<Object>)
    ensures |r| == TotalLength(DetailLists(boys))
  {
    FlattenLength(RecordLists(boys));
    TotalLengthSameShape(RecordLists(boys), DetailLists(boys));
    Flatten(RecordLists(boys))
  }

  /** The detail lists of the accounts, in account order. */
  function DetailLists(boys: seq<BoyDets>): (ls: seq<seq<Detail>>)
    ensures |ls| == |boys|
  {
    seq(|boys|, i requires 0 <= i < |boys| => boys[i].matches)
  }

  /** Records are ordered by account, then by game. */
  lemma RecordOrder(boys: seq<BoyDets>, i: nat, j: nat)
    requires i < |boys| && j < |boys[i].matches|
    ensures var k := TotalLength(DetailLists(boys)[..i]) + j;
            k < |FlattenIntoCsv(boys)| && FlattenIntoCsv(boys)[k] == RecordOf(boys[i].account, boys[i].matches[j])
  {
    FlattenIndex(RecordLists(boys), i, j);
    TotalLengthSameShape(RecordLists(boys)[..i], DetailLists(boys)[..i]);
  }

  /** A record holds the identity fields, then gameId, then the names of the stats it lacks,
      in the stats' order. */
  lemma RecordNames(account: Object, d: Detail)
    ensures Names(RecordOf(account, d)) ==
            ["accountId", "name", "summonerName", "gameId"] +
            NewNames(["accountId", "name", "summonerName", "gameId"], Names(d.stats))
  {
    AssignNames(RecordHead(account, d.gameId), d.stats);
  }

  /** A stats field wins over a literal field of the same name; the literal fields are the
      account's identity and the detail's gameId. */
  lemma RecordGet(account: Object, d: Detail, k: string)
    requires WellFormed(d.stats)
    ensures Get(RecordOf(account, d), k) ==
            if k in Names(d.stats) then Get(d.stats, k)
            else if k == "accountId" || k == "name" || k == "summonerName" then Get(account, k)
            else if k == "gameId" then d.gameId
            else Undefined
  {
    var head := RecordHead(account, d.gameId);
    AssignGet(head, d.stats, k);
    var t1, t2, t3 := head[1..], head[1..][1..], head[1..][1..][1..];
    assert t3 == [Prop("gameId", d.gameId)] && t3[1..] == [];
    assert Get(t3, k) == if k == "gameId" then d.gameId else Undefined;
    assert Get(t2, k) == if k == "summonerName" then Get(account, k) else Get(t3, k);
    assert Get(t1, k) == if k == "name" then Get(account, k) else Get(t2, k);
    assert Get(head, k) == if k == "accountId" then Get(account, k) else Get(t1, k);
  }
}
