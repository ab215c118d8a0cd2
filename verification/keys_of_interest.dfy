/** The column list of the enriched CSV (src/fill-in-dets.ts, line 4): the identity
    columns, then the statistics of one participant, then gameId. It is written here as
    seven runs of fifteen names so that the fact that no name repeats, which the column
    grouping depends on, can be checked run by run. */
module KeysOfInterest {
  import opened Seqs

  const Run0: seq<string> :=
    ["accountId", "name", "summonerName", "participantId", "win",
     "item0", "item1", "item2", "item3", "item4",
     "item5", "item6", "kills", "deaths", "assists"]

  const Run1: seq<string> :=
    ["largestKillingSpree", "largestMultiKill", "killingSprees", "longestTimeSpentLiving", "doubleKills",
     "tripleKills", "quadraKills", "pentaKills", "unrealKills", "totalDamageDealt",
     "magicDamageDealt", "physicalDamageDealt", "trueDamageDealt", "largestCriticalStrike", "totalDamageDealtToChampions"]

  const Run2: seq<string> :=
    ["magicDamageDealtToChampions", "physicalDamageDealtToChampions", "trueDamageDealtToChampions", "totalHeal", "totalUnitsHealed",
     "damageSelfMitigated", "damageDealtToObjectives", "damageDealtToTurrets", "visionScore", "timeCCingOthers",
     "totalDamageTaken", "magicalDamageTaken", "physicalDamageTaken", "trueDamageTaken", "goldEarned"]

  const Run3: seq<string> :=
    ["goldSpent", "turretKills", "inhibitorKills", "totalMinionsKilled", "neutralMinionsKilled",
     "neutralMinionsKilledTeamJungle", "neutralMinionsKilledEnemyJungle", "totalTimeCrowdControlDealt", "champLevel", "visionWardsBoughtInGame",
     "sightWardsBoughtInGame", "wardsPlaced", "wardsKilled", "firstBloodKill", "firstBloodAssist"]

  const Run4: seq<string> :=
    ["firstTowerKill", "firstTowerAssist", "firstInhibitorKill", "firstInhibitorAssist", "combatPlayerScore",
     "objectivePlayerScore", "totalPlayerScore", "totalScoreRank", "playerScore0", "playerScore1",
     "playerScore2", "playerScore3", "playerScore4", "playerScore5", "playerScore6"]

  const Run5: seq<string> :=
    ["playerScore7", "playerScore8", "playerScore9", "perk0", "perk0Var1",
     "perk0Var2", "perk0Var3", "perk1", "perk1Var1", "perk1Var2",
     "perk1Var3", "perk2", "perk2Var1", "perk2Var2", "perk2Var3"]

  const Run6: seq<string> :=
    ["perk3", "perk3Var1", "perk3Var2", "perk3Var3", "perk4",
     "perk4Var1", "perk4Var2", "perk4Var3", "perk5", "perk5Var1",
     "perk5Var2", "perk5Var3", "perkPrimaryStyle", "perkSubStyle", "gameId"]

  const Keys: seq<string> := Run0 + Run1 + Run2 + Run3 + Run4 + Run5 + Run6

  ghost predicate Disjoint(a: seq<string>, b: seq<string>) {
    forall i, j :: 0 <= i < |a| && 0 <= j < |b| ==> a[i] != b[j]
  }

  lemma DistinctConcat(a: seq<string>, b: seq<string>)
    requires Distinct(a) && Distinct(b) && Disjoint(a, b)
    ensures Distinct(a + b)
  {
    forall i, j | 0 <= i < j < |a + b| ensures (a + b)[i] != (a + b)[j] {
      if j >= |a| {
        assert (a + b)[j] == b[j - |a|];
        if i >= |a| { assert (a + b)[i] == b[i - |a|]; }
      }
    }
  }

  lemma DisjointConcat(a: seq<string>, b: seq<string>, c: seq<string>)
    requires Disjoint(a, c) && Disjoint(b, c)
    ensures Disjoint(a + b, c)
  {
    forall i, j | 0 <= i < |a + b| && 0 <= j < |c| ensures (a + b)[i] != c[j] {
      if i >= |a| { assert (a + b)[i] == b[i - |a|]; }
    }
  }

  lemma Run0Distinct() ensures Distinct(Run0) {}
  lemma Run1Distinct() ensures Distinct(Run1) {}
  lemma Run2Distinct() ensures Distinct(Run2) {}
  lemma Run3Distinct() ensures Distinct(Run3) {}
  lemma Run4Distinct() ensures Distinct(Run4) {}
  lemma Run5Distinct() ensures Distinct(Run5) {}
  lemma Run6Distinct() ensures Distinct(Run6) {}
  lemma Runs01Disjoint() ensures Disjoint(Run0, Run1) {}
  lemma Runs02Disjoint() ensures Disjoint(Run0, Run2) {}
  lemma Runs12Disjoint() ensures Disjoint(Run1, Run2) {}
  lemma Runs03Disjoint() ensures Disjoint(Run0, Run3) {}
  lemma Runs13Disjoint() ensures Disjoint(Run1, Run3) {}
  lemma Runs23Disjoint() ensures Disjoint(Run2, Run3) {}
  lemma Runs04Disjoint() ensures Disjoint(Run0, Run4) {}
  lemma Runs14Disjoint() ensures Disjoint(Run1, Run4) {}
  lemma Runs24Disjoint() ensures Disjoint(Run2, Run4) {}
  lemma Runs34Disjoint() ensures Disjoint(Run3, Run4) {}
  lemma Runs05Disjoint() ensures Disjoint(Run0, Run5) {}
  lemma Runs15Disjoint() ensures Disjoint(Run1, Run5) {}
  lemma Runs25Disjoint() ensures Disjoint(Run2, Run5) {}
  lemma Runs35Disjoint() ensures Disjoint(Run3, Run5) {}
  lemma Runs45Disjoint() ensures Disjoint(Run4, Run5) {}
  lemma Runs06Disjoint() ensures Disjoint(Run0, Run6) {}
  lemma Runs16Disjoint() ensures Disjoint(Run1, Run6) {}
  lemma Runs26Disjoint() ensures Disjoint(Run2, Run6) {}
  lemma Runs36Disjoint() ensures Disjoint(Run3, Run6) {}
  lemma Runs46Disjoint() ensures Disjoint(Run4, Run6) {}
  lemma Runs56Disjoint() ensures Disjoint(Run5, Run6) {}

  /** No column name appears twice, and there are 105 of them. */
  lemma KeysDistinct()
    ensures Distinct(Keys) && |Keys| == 105
  {
    Run0Distinct();
    Run1Distinct();
    Runs01Disjoint();
    DistinctConcat(Run0, Run1);
    Run2Distinct();
    Runs02Disjoint();
    Runs12Disjoint(); DisjointConcat(Run0, Run1, Run2);
    DistinctConcat(Run0 + Run1, Run2);
    Run3Distinct();
    Runs03Disjoint();
    Runs13Disjoint(); DisjointConcat(Run0, Run1, Run3);
    Runs23Disjoint(); DisjointConcat(Run0 + Run1, Run2, Run3);
    DistinctConcat(Run0 + Run1 + Run2, Run3);
    Run4Distinct();
    Runs04Disjoint();
    Runs14Disjoint(); DisjointConcat(Run0, Run1, Run4);
    Runs24Disjoint(); DisjointConcat(Run0 + Run1, Run2, Run4);
    Runs34Disjoint(); DisjointConcat(Run0 + Run1 + Run2, Run3, Run4);
    DistinctConcat(Run0 + Run1 + Run2 + Run3, Run4);
    Run5Distinct();
    Runs05Disjoint();
    Runs15Disjoint(); DisjointConcat(Run0, Run1, Run5);
    Runs25Disjoint(); DisjointConcat(Run0 + Run1, Run2, Run5);
    Runs35Disjoint(); DisjointConcat(Run0 + Run1 + Run2, Run3, Run5);
    Runs45Disjoint(); DisjointConcat(Run0 + Run1 + Run2 + Run3, Run4, Run5);
    DistinctConcat(Run0 + Run1 + Run2 + Run3 + Run4, Run5);
    Run6Distinct();
    Runs06Disjoint();
    Runs16Disjoint(); DisjointConcat(Run0, Run1, Run6);
    Runs26Disjoint(); DisjointConcat(Run0 + Run1, Run2, Run6);
    Runs36Disjoint(); DisjointConcat(Run0 + Run1 + Run2, Run3, Run6);
    Runs46Disjoint(); DisjointConcat(Run0 + Run1 + Run2 + Run3, Run4, Run6);
    Runs56Disjoint(); DisjointConcat(Run0 + Run1 + Run2 + Run3 + Run4, Run5, Run6);
    DistinctConcat(Run0 + Run1 + Run2 + Run3 + Run4 + Run5, Run6);
  }
}
