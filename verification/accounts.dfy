/** getAccountDets, which both the-boys scripts share (src/the-boys.ts, lines 76-88, and
    the-boys.ts, lines 84-96): every roster entry is looked up on the summoner endpoint by
    its summonerName, and the response is spread first with the roster entry spread over
    it, so that a field the roster supplies replaces the one the endpoint returned. */
module Accounts {
  import opened Json

  /** `responses.map((resp, i) => ({ ...resp.data, ...theBoys[i] }))`, where response i is
      what the summoner endpoint returns for roster entry i. */
  function ResolveAccounts(roster: seq<Object>, summoner: Value -> Object): (r: seq<Object>)
    ensures |r| == |roster|
  {
    seq(|roster|, i requires 0 <= i < |roster| => Assign(summoner(Get(roster[i], "summonerName")), roster[i]))
  }

  /** One record per roster entry, in roster order: a field of the entry wins, every other
      field is the endpoint's. */
  lemma RosterFieldsWin(roster: seq<Object>, summoner: Value -> Object, i: nat, k: string)
    requires i < |roster| && WellFormed(roster[i])
    ensures var response := summoner(Get(roster[i], "summonerName"));
            Get(ResolveAccounts(roster, summoner)[i], k) ==
              if k in Names(roster[i]) then Get(roster[i], k) else Get(response, k)
  {
    AssignGet(summoner(Get(roster[i], "summonerName")), roster[i], k);
  }

  /** The fields of the endpoint's response keep their places; the roster's new fields
      follow in the entry's order. */
  lemma ResolvedNames(roster: seq<Object>, summoner: Value -> Object, i: nat)
    requires i < |roster|
    ensures var response := summoner(Get(roster[i], "summonerName"));
            Names(ResolveAccounts(roster, summoner)[i]) ==
              Names(response) + NewNames(Names(response), Names(roster[i]))
  {
    AssignNames(summoner(Get(roster[i], "summonerName")), roster[i]);
  }

  /** The account id as a request URL spells it: `${aBoy.accountId}`. */
  function UrlId(account: Object): string {
    TemplateString(Get(account, "accountId"))
  }
}
