/** Per-match statistics for the accounts of the roster file (src/fill-in-dets.ts, lines
    42-80): each match record is looked up by the account's current id, and the
    statistics of its participant slot are taken with the requested game id written in. */
module MatchDetails {
  import opened Results
  import opened Seqs
  import opened Json
  import opened OrderedMaps
  import opened MatchRecords

  /** The identity belongs to the account under its current account id. */
  predicate CurrentlyOwnedBy(p: Identity, accountId: int) {
    p.player.currentAccountId == Num(accountId)
  }

  /** i is the first identity of the account. */
  ghost predicate FirstOwned(ids: seq<Identity>, accountId: int, i: int) {
    0 <= i < |ids| && CurrentlyOwnedBy(ids[i], accountId)
    && forall j :: 0 <= j < i ==> !CurrentlyOwnedBy(ids[j], accountId)
  }

  /** The `find` callback of line 53. */
  function OwnedBy(accountId: int): Identity -> bool {
    (p: Identity) => CurrentlyOwnedBy(p, accountId)
  }

  /** getDetailsForMatch on the record the match endpoint returned for gameId: the stats of
      slot participantId - 1 of the first identity the account currently owns, spread into
      a new object with gameId set. */
  function GetDetailsForMatch(accountId: int, gameId: int, m: MatchRecord): (r: Result<Object>)
    ensures r.Ok? ==> Get(r.value, "gameId") == Num(gameId)
    ensures r.Err? ==> r.error == ParticipantNotFound || r.error.SlotMissing?
  {
    match Find(m.participantIdentities, OwnedBy(accountId))
    case None => Err(ParticipantNotFound)
    case Some(i) =>
      match StatsAt(m, m.participantIdentities[i].participantId - 1)
      case Err(e) => Err(e)
      case Ok(stats) =>
        SpreadOneGet(stats, "gameId", Num(gameId));
        Ok(Assign(stats, [Prop("gameId", Num(gameId))]))
  }

  /** `{ ...o, [k]: v }` reads v at k and o elsewhere. */
  lemma SpreadOneGet(o: Object, k: string, v: Value)
    ensures Get(Assign(o, [Prop(k, v)]), k) == v
    ensures forall k' :: k' != k ==> Get(Assign(o, [Prop(k, v)]), k') == Get(o, k')
  {
  }

  /** The `find` of line 53 gives undefined, and reading its participantId throws, exactly
      when no identity carries the account's current id. */
  lemma NotFoundWhenUnowned(accountId: int, gameId: int, m: MatchRecord)
    ensures GetDetailsForMatch(accountId, gameId, m) == Err(ParticipantNotFound) <==>
            forall j :: 0 <= j < |m.participantIdentities| ==> !CurrentlyOwnedBy(m.participantIdentities[j], accountId)
  {
    var found := Find(m.participantIdentities, OwnedBy(accountId));
    if found.Some? {
      assert OwnedBy(accountId)(m.participantIdentities[found.value]);
    }
  }

  /** Once the first identity of the account is i, the details are the statistics of slot
      participantId - 1 with gameId overwritten, and a slot outside the participants is an
      error. */
  lemma DetailsOfFirstOwner(accountId: int, gameId: int, m: MatchRecord, i: nat)
    requires FirstOwned(m.participantIdentities, accountId, i)
    ensures var s := m.participantIdentities[i].participantId - 1;
            var r := GetDetailsForMatch(accountId, gameId, m);
            && (0 <= s < |m.participants| ==>
                  r.Ok? && Get(r.value, "gameId") == Num(gameId)
                  && forall k :: k != "gameId" ==> Get(r.value, k) == Get(m.participants[s].stats, k))
            && (!(0 <= s < |m.participants|) ==> r == Err(SlotMissing(s)))
  {
    FindsFirstOwner(m.participantIdentities, accountId, i);
    var s := m.participantIdentities[i].participantId - 1;
    if 0 <= s < |m.participants| {
      DetailsOfSlot(accountId, gameId, m, i);
      SpreadOneGet(m.participants[s].stats, "gameId", Num(gameId));
    } else {
      assert StatsAt(m, s) == Err(SlotMissing(s));
    }
  }

  /** Once the `find` gives identity i and its slot exists, the details are that slot's
      stats spread with gameId. */
  lemma DetailsOfSlot(accountId: int, gameId: int, m: MatchRecord, i: nat)
    requires Find(m.participantIdentities, OwnedBy(accountId)) == Some(i)
    requires 0 <= m.participantIdentities[i].participantId - 1 < |m.participants|
    ensures GetDetailsForMatch(accountId, gameId, m) ==
            Ok(Assign(m.participants[m.participantIdentities[i].participantId - 1].stats, [Prop("gameId", Num(gameId))]))
  {
    var s := m.participantIdentities[i].participantId - 1;
    assert StatsAt(m, s) == Ok(m.participants[s].stats);
  }

  /** The `find` of line 53 gives the first identity of the account. */
  lemma FindsFirstOwner(ids: seq<Identity>, accountId: int, i: nat)
    requires FirstOwned(ids, accountId, i)
    ensures Find(ids, OwnedBy(accountId)) == Some(i)
  {
    var found := Find(ids, OwnedBy(accountId));
    assert OwnedBy(accountId)(ids[i]);
    FirstOwnedUnique(ids, accountId, i, found.value);
  }

  /** With the numbering of the match API, the details are the statistics of the participant
      whose participantId is the one the account's identity names; they are missing exactly
      when that id is outside 1..|participants|. */
  lemma DetailsAreOwnSlot(accountId: int, gameId: int, m: MatchRecord, i: nat)
    requires SlotsNumbered(m)
    requires FirstOwned(m.participantIdentities, accountId, i)
    ensures var pid := m.participantIdentities[i].participantId;
            GetDetailsForMatch(accountId, gameId, m).Ok? <==> 1 <= pid <= |m.participants|
    ensures var pid := m.participantIdentities[i].participantId;
            var r := GetDetailsForMatch(accountId, gameId, m);
            r.Ok? ==> exists s :: 0 <= s < |m.participants| && m.participants[s].participantId == pid
                                  && forall k :: k != "gameId" ==> Get(r.value, k) == Get(m.participants[s].stats, k)
  {
    DetailsOfFirstOwner(accountId, gameId, m, i);
    var pid := m.participantIdentities[i].participantId;
    if 1 <= pid <= |m.participants| {
      assert m.participants[pid - 1].participantId == pid;
    }
  }

  lemma FirstOwnedUnique(ids: seq<Identity>, accountId: int, i: int, i': int)
    requires FirstOwned(ids, accountId, i) && FirstOwned(ids, accountId, i')
    ensures i == i'
  {
  }

  // ------------------------------------------------------------------ all accounts

  /** The lookups getDetailsForMatches performs: account and game id to details, on the
      record the match endpoint returns for the game id. */
  function Lookup(fetch: int -> MatchRecord): (int, int) -> Result<Object> {
    (accountId: int, gameId: int) => GetDetailsForMatch(accountId, gameId, fetch(gameId))
  }

  /** The details of an account's matches, in match order; the first failure ends it. */
  function DetailList(accountId: int, gameIds: seq<int>, lookup: (int, int) -> Result<Object>): (r: Result<seq<Object>>)
    ensures r.Ok? <==> forall j :: 0 <= j < |gameIds| ==> lookup(accountId, gameIds[j]).Ok?
    ensures r.Ok? ==> |r.value| == |gameIds|
    ensures r.Ok? ==> forall j :: 0 <= j < |gameIds| ==> r.value[j] == lookup(accountId, gameIds[j]).value
    ensures r.Err? ==> exists j :: 0 <= j < |gameIds| && lookup(accountId, gameIds[j]) == Err(r.error)
                                   && forall j' :: 0 <= j' < j ==> lookup(accountId, gameIds[j']).Ok?
  {
    if |gameIds| == 0 then Ok([])
    else
      var n := |gameIds| - 1;
      assert forall j :: 0 <= j < n ==> gameIds[..n][j] == gameIds[j];
      match DetailList(accountId, gameIds[..n], lookup)
      case Err(e) => Err(e)
      case Ok(init) =>
        match lookup(accountId, gameIds[n])
        case Err(e) => Err(e)
        case Ok(d) => Ok(init + [d])
  }

  /** The keys whose list is not empty, in key order. */
  function NonEmptyKeys(keys: seq<int>, at: map<int, seq<int>>): (r: seq<int>)
    requires forall i :: 0 <= i < |keys| ==> keys[i] in at
    ensures forall k :: k in r <==> k in keys && |at[k]| > 0
    ensures forall i :: 0 <= i < |r| ==> r[i] in at && |at[r[i]]| > 0
  {
    if |keys| == 0 then []
    else
      var k := keys[|keys| - 1];
      NonEmptyKeys(keys[..|keys| - 1], at) + (if |at[k]| > 0 then [k] else [])
  }

  /** A prefix of the key list is a key list. */
  lemma KeysPrefix(keys: seq<int>, n: nat, at: map<int, seq<int>>)
    requires forall i :: 0 <= i < |keys| ==> keys[i] in at
    requires Distinct(keys)
    requires n <= |keys|
    ensures forall i :: 0 <= i < n ==> keys[..n][i] in at
    ensures Distinct(keys[..n])
    ensures n < |keys| ==> keys[n] !in keys[..n]
  {
    DistinctPrefix(keys, n);
  }

  /** The map getDetailsForMatches builds from an account's match list, accounts in key
      order; the first failing lookup ends it. */
  function DetailsOf(keys: seq<int>, at: map<int, seq<int>>, lookup: (int, int) -> Result<Object>): (r: Result<OrderedMap<int, seq<Object>>>)
    requires forall i :: 0 <= i < |keys| ==> keys[i] in at
    ensures r.Ok? ==> r.value.Valid()
  {
    if |keys| == 0 then Ok(Empty())
    else
      var n := |keys| - 1;
      var k := keys[n];
      match DetailsOf(keys[..n], at, lookup)
      case Err(e) => Err(e)
      case Ok(m) =>
        if |at[k]| == 0 then Ok(m)
        else match DetailList(k, at[k], lookup)
          case Err(e) => Err(e)
          case Ok(ds) => Ok(m.Set(k, ds))
  }

  /** With distinct account ids, the map lists the accounts that have matches, in key
      order, each with the details list of its matches. */
  lemma {:induction false} DetailsOfKeys(keys: seq<int>, at: map<int, seq<int>>, lookup: (int, int) -> Result<Object>)
    requires forall i :: 0 <= i < |keys| ==> keys[i] in at
    requires Distinct(keys)
    ensures var r := DetailsOf(keys, at, lookup);
            r.Ok? ==> r.value.keys == NonEmptyKeys(keys, at)
                      && forall k :: k in r.value.at ==> k in at && DetailList(k, at[k], lookup) == Ok(r.value.at[k])
  {
    if |keys| > 0 {
      var n := |keys| - 1;
      KeysPrefix(keys, n, at);
      DetailsOfKeys(keys[..n], at, lookup);
    }
  }

  /** getDetailsForMatches succeeds exactly when every lookup does; then every account with
      matches gets a details list of the same length and order, and an account without
      matches gets no key. */
  lemma {:induction false} DetailsOfShape(keys: seq<int>, at: map<int, seq<int>>, lookup: (int, int) -> Result<Object>)
    requires forall i :: 0 <= i < |keys| ==> keys[i] in at
    requires Distinct(keys)
    ensures DetailsOf(keys, at, lookup).Ok? <==>
            forall k, j :: k in keys && 0 <= j < |at[k]| ==> lookup(k, at[k][j]).Ok?
    ensures var r := DetailsOf(keys, at, lookup);
            r.Ok? ==> forall k :: k in keys ==>
                        && (k in r.value.at <==> |at[k]| > 0)
                        && (k in r.value.at ==>
                              && |r.value.at[k]| == |at[k]|
                              && forall j :: 0 <= j < |at[k]| ==> r.value.at[k][j] == lookup(k, at[k][j]).value)
  {
    DetailsOfKeys(keys, at, lookup);
    if |keys| > 0 {
      var n := |keys| - 1;
      KeysPrefix(keys, n, at);
      DetailsOfShape(keys[..n], at, lookup);
      assert forall k :: k in keys <==> k in keys[..n] || k == keys[n];
    }
  }

  lemma {:induction false} DetailListPrefix(accountId: int, gameIds: seq<int>, g: nat, lookup: (int, int) -> Result<Object>)
    requires g <= |gameIds|
    requires DetailList(accountId, gameIds[..g], lookup).Err?
    ensures DetailList(accountId, gameIds, lookup) == DetailList(accountId, gameIds[..g], lookup)
    decreases |gameIds| - g
  {
    if g < |gameIds| {
      assert gameIds[..g + 1][..g] == gameIds[..g];
      DetailListPrefix(accountId, gameIds, g + 1, lookup);
    } else {
      assert gameIds[..g] == gameIds;
    }
  }

  lemma {:induction false} DetailsOfPrefix(keys: seq<int>, a: nat, at: map<int, seq<int>>, lookup: (int, int) -> Result<Object>)
    requires forall i :: 0 <= i < |keys| ==> keys[i] in at
    requires Distinct(keys)
    requires a <= |keys|
    requires DetailsOf(keys[..a], at, lookup).Err?
    ensures DetailsOf(keys, at, lookup) == DetailsOf(keys[..a], at, lookup)
    decreases |keys| - a
  {
    if a < |keys| {
      assert keys[..a + 1][..a] == keys[..a];
      DetailsOfPrefix(keys, a + 1, at, lookup);
    } else {
      assert keys[..a] == keys;
    }
  }

  lemma {:induction false} DetailListSnoc(accountId: int, gameIds: seq<int>, g: nat, lookup: (int, int) -> Result<Object>)
    requires g < |gameIds|
    requires DetailList(accountId, gameIds[..g], lookup).Ok?
    requires lookup(accountId, gameIds[g]).Ok?
    ensures DetailList(accountId, gameIds[..g + 1], lookup)
            == Ok(DetailList(accountId, gameIds[..g], lookup).value + [lookup(accountId, gameIds[g]).value])
  {
    assert gameIds[..g + 1][..g] == gameIds[..g];
  }

  lemma {:induction false} DetailListFails(accountId: int, gameIds: seq<int>, g: nat, lookup: (int, int) -> Result<Object>)
    requires g < |gameIds|
    requires DetailList(accountId, gameIds[..g], lookup).Ok?
    requires lookup(accountId, gameIds[g]).Err?
    ensures DetailList(accountId, gameIds, lookup) == Err(lookup(accountId, gameIds[g]).error)
  {
    assert gameIds[..g + 1][..g] == gameIds[..g];
    DetailListPrefix(accountId, gameIds, g + 1, lookup);
  }

  lemma DetailsOfFresh(keys: seq<int>, a: nat, at: map<int, seq<int>>, lookup: (int, int) -> Result<Object>)
    requires forall i :: 0 <= i < |keys| ==> keys[i] in at
    requires Distinct(keys)
    requires a < |keys|
    requires DetailsOf(keys[..a], at, lookup).Ok?
    ensures DetailsOf(keys[..a], at, lookup).value.Valid()
    ensures keys[a] !in DetailsOf(keys[..a], at, lookup).value.at
  {
    KeysPrefix(keys, a, at);
    DetailsOfKeys(keys[..a], at, lookup);
  }

  lemma {:induction false} DetailsOfFails(keys: seq<int>, a: nat, at: map<int, seq<int>>, lookup: (int, int) -> Result<Object>)
    requires forall i :: 0 <= i < |keys| ==> keys[i] in at
    requires Distinct(keys)
    requires a < |keys|
    requires DetailsOf(keys[..a], at, lookup).Ok?
    requires DetailList(keys[a], at[keys[a]], lookup).Err?
    ensures DetailsOf(keys, at, lookup) == Err(DetailList(keys[a], at[keys[a]], lookup).error)
  {
    assert keys[..a + 1][..a] == keys[..a];
    DetailsOfPrefix(keys, a + 1, at, lookup);
  }

  lemma {:induction false} DetailsOfSnoc(keys: seq<int>, a: nat, at: map<int, seq<int>>, lookup: (int, int) -> Result<Object>)
    requires forall i :: 0 <= i < |keys| ==> keys[i] in at
    requires Distinct(keys)
    requires a < |keys|
    requires DetailsOf(keys[..a], at, lookup).Ok?
    requires DetailList(keys[a], at[keys[a]], lookup).Ok?
    ensures var before := DetailsOf(keys[..a], at, lookup).value;
            DetailsOf(keys[..a + 1], at, lookup)
            == Ok(if |at[keys[a]]| == 0 then before
                  else before.Set(keys[a], DetailList(keys[a], at[keys[a]], lookup).value))
  {
    assert keys[..a + 1][..a] == keys[..a];
  }

  /** The inner asyncForEach of getDetailsForMatches: the details of one account's matches,
      appended to the account's entry of the map, which the first detail creates. */
  method AppendDetails(accountId: int, matchIds: seq<int>, fetch: int -> MatchRecord,
                       accountIdToDetsMatches: OrderedMap<int, seq<Object>>)
    returns (r: Result<OrderedMap<int, seq<Object>>>)
    requires accountIdToDetsMatches.Valid() && accountId !in accountIdToDetsMatches.at
    ensures r.Ok? <==> DetailList(accountId, matchIds, Lookup(fetch)).Ok?
    ensures r.Err? ==> r.error == DetailList(accountId, matchIds, Lookup(fetch)).error
    ensures r.Ok? ==> r.value == if |matchIds| == 0 then accountIdToDetsMatches
                                 else accountIdToDetsMatches.Set(accountId, DetailList(accountId, matchIds, Lookup(fetch)).value)
  {
    ghost var lookup := Lookup(fetch);
    var dets := accountIdToDetsMatches;
    var g := 0;
    while g < |matchIds|
      invariant 0 <= g <= |matchIds|
      invariant DetailList(accountId, matchIds[..g], lookup).Ok?
      invariant dets == if g == 0 then accountIdToDetsMatches
                        else accountIdToDetsMatches.Set(accountId, DetailList(accountId, matchIds[..g], lookup).value)
    {
      var matchWithDets := GetDetailsForMatch(accountId, matchIds[g], fetch(matchIds[g]));
      assert matchWithDets == lookup(accountId, matchIds[g]);
      if matchWithDets.Err? {
        DetailListFails(accountId, matchIds, g, lookup);
        return Err(matchWithDets.error);
      }
      DetailListSnoc(accountId, matchIds, g, lookup);
      ghost var sofar := DetailList(accountId, matchIds[..g], lookup).value;
      if !dets.Has(accountId) {
        dets := dets.Set(accountId, []);
      }
      assert dets.at[accountId] == sofar && dets == accountIdToDetsMatches.Set(accountId, sofar);
      SetSet(accountIdToDetsMatches, accountId, sofar, sofar + [matchWithDets.value]);
      dets := dets.Set(accountId, dets.at[accountId] + [matchWithDets.value]);
      g := g + 1;
    }
    assert matchIds[..g] == matchIds;
    r := Ok(dets);
  }

  /** getDetailsForMatches: asyncForEach over the accounts in key order, each account's
      matches in index order; the first failing lookup ends it. */
  method GetDetailsForMatches(accountIdToMatches: OrderedMap<int, seq<int>>, fetch: int -> MatchRecord)
    returns (r: Result<OrderedMap<int, seq<Object>>>)
    requires accountIdToMatches.Valid()
    ensures r == DetailsOf(accountIdToMatches.keys, accountIdToMatches.at, Lookup(fetch))
  {
    ghost var lookup := Lookup(fetch);
    var accountIds := accountIdToMatches.keys;
    var at := accountIdToMatches.at;
    var accountIdToDetsMatches: OrderedMap<int, seq<Object>> := Empty();
    var a := 0;
    while a < |accountIds|
      invariant 0 <= a <= |accountIds|
      invariant DetailsOf(accountIds[..a], at, lookup) == Ok(accountIdToDetsMatches)
    {
      var accountId := accountIds[a];
      DetailsOfFresh(accountIds, a, at, lookup);
      var next := AppendDetails(accountId, at[accountId], fetch, accountIdToDetsMatches);
      if next.Err? {
        DetailsOfFails(accountIds, a, at, lookup);
        return next;
      }
      DetailsOfSnoc(accountIds, a, at, lookup);
      accountIdToDetsMatches := next.value;
      a := a + 1;
    }
    assert accountIds[..a] == accountIds;
    r := Ok(accountIdToDetsMatches);
  }
}
