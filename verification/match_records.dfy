/** The match record that the match-detail endpoint returns, reduced to what the scripts
    read: the participant identities and the parallel list of participants with their
    statistics. */
module MatchRecords {
  import opened Json
  import opened Results

  datatype Player = Player(accountId: Value, currentAccountId: Value)

  datatype Identity = Identity(participantId: int, player: Player)

  datatype Participant = Participant(participantId: int, stats: Object)

  datatype MatchRecord = MatchRecord(gameId: Value, participantIdentities: seq<Identity>, participants: seq<Participant>)

  /** `participantIdentities.find(p)`: the index of the first identity that p accepts. */
  function Find(ids: seq<Identity>, p: Identity -> bool): (r: Option<nat>)
    ensures r.Some? ==> r.value < |ids| && p(ids[r.value]) && forall j :: 0 <= j < r.value ==> !p(ids[j])
    ensures r.None? ==> forall j :: 0 <= j < |ids| ==> !p(ids[j])
  {
    if |ids| == 0 then None
    else if p(ids[0]) then Some(0)
    else match Find(ids[1..], p)
      case None => None
      case Some(i) => Some(i + 1)
  }

  /** `participants[index].stats`, which throws when the slot is undefined. */
  function StatsAt(m: MatchRecord, index: int): (r: Result<Object>)
    ensures r.Ok? <==> 0 <= index < |m.participants|
    ensures r.Ok? ==> r.value == m.participants[index].stats
    ensures r.Err? ==> r.error == SlotMissing(index)
  {
    if 0 <= index < |m.participants| then Ok(m.participants[index].stats) else Err(SlotMissing(index))
  }

  /** The numbering of the match API: participants are listed by participantId, from 1. */
  ghost predicate SlotsNumbered(m: MatchRecord) {
    forall i :: 0 <= i < |m.participants| ==> m.participants[i].participantId == i + 1
  }
}
