/** The file between the two scripts of src/: src/the-boys.ts writes one row per (account,
    match) as `accountId,name,summonerName,gameId` (lines 152-171), which is the roster line
    src/fill-in-dets.ts reads back (lines 83-101). The scripts name the file differently:
    src/the-boys.ts:171 writes `data.csv` and src/fill-in-dets.ts:83 reads `data-1000.csv`.
    The two are linked by renaming the file by hand, outside the scripts; the lemmas here
    are about that renamed file. */
module DataFile {
  import opened Results
  import opened Seqs
  import opened Text
  import opened Json
  import MatchPaging
  import RosterLedger
  import FillInDets
  import MatchRecords

  /** An account the row format can carry: a numeric id, and names that hold neither the
      field nor the line separator. */
  predicate Writable(account: Object) {
    && Get(account, "accountId").Num?
    && Get(account, "name").Str? && Get(account, "summonerName").Str?
    && ',' !in Get(account, "name").s && '\n' !in Get(account, "name").s
    && ',' !in Get(account, "summonerName").s && '\n' !in Get(account, "summonerName").s
  }

  /** The roster line a match of a writable account stands for. */
  function LineOf(account: Object, gameId: int): (l: RosterLedger.RosterLine)
    requires Writable(account)
    ensures ',' !in l.name && ',' !in l.summonerName
  {
    RosterLedger.RosterLine(Get(account, "accountId").n, Get(account, "name").s,
                            Get(account, "summonerName").s, gameId)
  }

  /** The roster lines of the batch, accounts in batch order, matches in match order. */
  function LineLists(batch: seq<MatchPaging.Boy>): (ls: seq<seq<RosterLedger.RosterLine>>)
    requires forall i :: 0 <= i < |batch| ==> Writable(batch[i].account)
    ensures |ls| == |batch|
    ensures forall i :: 0 <= i < |batch| ==> |ls[i]| == |batch[i].matches|
  {
    seq(|batch|, i requires 0 <= i < |batch| =>
      seq(|batch[i].matches|, j requires 0 <= j < |batch[i].matches| =>
        LineOf(batch[i].account, batch[i].matches[j])))
  }

  /** The row of a match is the formatted roster line, and it holds no line separator. */
  lemma RowIsLine(b: MatchPaging.Boy, gameId: int)
    requires Writable(b.account)
    ensures MatchPaging.RowOf(b, gameId) == RosterLedger.FormatLine(LineOf(b.account, gameId))
    ensures '\n' !in MatchPaging.RowOf(b, gameId)
  {
    var l := LineOf(b.account, gameId);
    var fields := [IntToDecimal(l.accountId), l.name, l.summonerName, IntToDecimal(gameId)];
    JoinNoSep(fields, ',', '\n');
  }

  /** The file src/the-boys.ts writes parses back, line for line, into the roster lines of
      its matches, provided it holds at least one row and every account is writable. */
  lemma DataFileRoundTrip(batch: seq<MatchPaging.Boy>)
    requires forall i :: 0 <= i < |batch| ==> Writable(batch[i].account)
    requires TotalLength(MatchPaging.MatchLists(batch)) > 0
    ensures RosterLedger.ParseLines(Split(Join(MatchPaging.FlattenIntoRows(batch), '\n'), '\n'))
            == Ok(Flatten(LineLists(batch)))
  {
    var rows := MatchPaging.FlattenIntoRows(batch);
    var lines := Flatten(LineLists(batch));
    RowsAreLines(batch);
    SplitJoin(rows, '\n');
    var parsed := RosterLedger.ParseLines(rows);
    assert parsed.value == lines;
  }

  /** Row k of the file is the formatted roster line k, holds no line separator and parses
      back into that line. */
  lemma RowsAreLines(batch: seq<MatchPaging.Boy>)
    requires forall i :: 0 <= i < |batch| ==> Writable(batch[i].account)
    ensures var rows := MatchPaging.FlattenIntoRows(batch);
            var lines := Flatten(LineLists(batch));
            && |rows| == |lines|
            && forall k :: 0 <= k < |lines| ==>
                 '\n' !in rows[k] && RosterLedger.ParseLine(rows[k], k) == Ok(lines[k])
  {
    var rows := MatchPaging.FlattenIntoRows(batch);
    var lineLists := LineLists(batch);
    var lines := Flatten(lineLists);
    var rowLists := MatchPaging.RowLists(batch);
    forall i, j | 0 <= i < |lineLists| && 0 <= j < |lineLists[i]|
      ensures rowLists[i][j] == RosterLedger.FormatLine(lineLists[i][j])
    {
      RowIsLine(batch[i], batch[i].matches[j]);
    }
    FlattenPointwise(lineLists, rowLists, RosterLedger.FormatLine);
    forall k | 0 <= k < |lines|
      ensures rows[k] == RosterLedger.FormatLine(lines[k])
      ensures '\n' !in rows[k]
      ensures RosterLedger.ParseLine(rows[k], k) == Ok(lines[k])
    {
      FlattenMember(lineLists, k);
      var i, j :| 0 <= i < |lineLists| && 0 <= j < |lineLists[i]| && lines[k] == lineLists[i][j];
      RowIsLine(batch[i], batch[i].matches[j]);
      RosterLedger.ParseFormatted(lines[k], k);
    }
  }

  /** Fed the file src/the-boys.ts writes, src/fill-in-dets.ts makes one entry per match
      of the batch whenever every detail lookup succeeds. */
  lemma OneEntryPerMatch(batch: seq<MatchPaging.Boy>, fetch: int -> MatchRecords.MatchRecord)
    requires forall i :: 0 <= i < |batch| ==> Writable(batch[i].account)
    ensures var e := FillInDets.EntriesFor(Flatten(LineLists(batch)), fetch);
            e.Ok? ==> |e.value| == TotalLength(MatchPaging.MatchLists(batch))
  {
    FillInDets.OneEntryPerLine(Flatten(LineLists(batch)), fetch);
    FlattenLength(LineLists(batch));
    TotalLengthSameShape(LineLists(batch), MatchPaging.MatchLists(batch));
  }
}
