/** The roster file of src/fill-in-dets.ts (lines 83-101): one line per (account, match),
    `accountId,name,summonerName,matchId`, folded into two JavaScript maps keyed by account
    id, one holding the match ids in line order and one holding the names of the account's
    first line. */
module RosterLedger {
  import opened Results
  import opened Seqs
  import opened Text
  import opened OrderedMaps

  datatype Names = Names(name: string, summonerName: string)

  datatype RosterLine = RosterLine(accountId: int, name: string, summonerName: string, matchId: int)

  /** The two maps the parse loop fills: accountIdToMatches and accountIdToNames. */
  datatype Ledger = Ledger(matches: OrderedMap<int, seq<int>>, names: OrderedMap<int, Names>)

  /** Both maps are valid JavaScript maps over the same keys in the same order. */
  ghost predicate LedgerValid(l: Ledger) {
    l.matches.Valid() && l.names.Valid() && l.matches.keys == l.names.keys
  }

  // ------------------------------------------------------------------ parsing

  /** One line: `line.split(',')`, fields 0 to 3, `Number.parseInt` of the first and the
      last. A line without four fields or without decimal ids is malformed. */
  function ParseLine(line: string, index: nat): (r: Result<RosterLine>)
    ensures r.Err? ==> r.error == MalformedLine(index)
    ensures |Split(line, ',')| < 4 ==> r.Err?
  {
    var fields := Split(line, ',');
    if |fields| < 4 then Err(MalformedLine(index))
    else match (ParseDecimal(fields[0]), ParseDecimal(fields[3]))
      case (Some(accountId), Some(matchId)) => Ok(RosterLine(accountId, fields[1], fields[2], matchId))
      case _ => Err(MalformedLine(index))
  }

  /** The line `accountId,name,summonerName,matchId` for one roster entry. */
  function FormatLine(r: RosterLine): string {
    Join([IntToDecimal(r.accountId), r.name, r.summonerName, IntToDecimal(r.matchId)], ',')
  }

  /** A formatted line parses back to its entry, provided the names hold no comma. */
  lemma ParseFormatted(r: RosterLine, index: nat)
    requires ',' !in r.name && ',' !in r.summonerName
    ensures ParseLine(FormatLine(r), index) == Ok(r)
  {
    var fields := [IntToDecimal(r.accountId), r.name, r.summonerName, IntToDecimal(r.matchId)];
    SplitJoin(fields, ',');
    DecimalRoundTrip(r.accountId);
    DecimalRoundTrip(r.matchId);
  }

  /** Every line parsed in order; the first malformed line is the error. */
  function ParseLines(lines: seq<string>): (r: Result<seq<RosterLine>>)
    ensures r.Ok? ==> |r.value| == |lines|
    ensures r.Ok? <==> forall i :: 0 <= i < |lines| ==> ParseLine(lines[i], i).Ok?
    ensures r.Ok? ==> forall i :: 0 <= i < |lines| ==> r.value[i] == ParseLine(lines[i], i).value
    ensures r.Err? ==> exists i :: 0 <= i < |lines| && r.error == MalformedLine(i)
                                   && ParseLine(lines[i], i).Err?
                                   && forall j :: 0 <= j < i ==> ParseLine(lines[j], j).Ok?
  {
    if |lines| == 0 then Ok([])
    else
      var n := |lines| - 1;
      assert forall i :: 0 <= i < n ==> lines[..n][i] == lines[i];
      match ParseLines(lines[..n])
      case Err(e) => Err(e)
      case Ok(init) =>
        match ParseLine(lines[n], n)
        case Err(e) => Err(e)
        case Ok(line) => Ok(init + [line])
  }

  // ------------------------------------------------------------------ the ledger

  /** One pass of the forEach callback: a new account is entered in both maps with its
      names and an empty list, then the line's match id is pushed onto its list. */
  function Record(l: Ledger, r: RosterLine): (l': Ledger)
    requires LedgerValid(l)
    ensures LedgerValid(l')
    ensures var id := r.accountId;
            var known := id in l.matches.at;
            && l'.matches.at == l.matches.at[id := (if known then l.matches.at[id] else []) + [r.matchId]]
            && l'.matches.keys == (if known then l.matches.keys else l.matches.keys + [id])
            && l'.names.at == (if known then l.names.at else l.names.at[id := Names(r.name, r.summonerName)])
  {
    var id := r.accountId;
    var l1 :=
      if !l.matches.Has(id) && !l.names.Has(id) then
        Ledger(l.matches.Set(id, []), l.names.Set(id, Names(r.name, r.summonerName)))
      else l;
    Ledger(l1.matches.Set(id, l1.matches.at[id] + [r.matchId]), l1.names)
  }

  /** The maps after every line has been recorded, in line order. */
  function LedgerOf(lines: seq<RosterLine>): (l: Ledger)
    ensures LedgerValid(l)
  {
    if |lines| == 0 then Ledger(Empty(), Empty())
    else Record(LedgerOf(lines[..|lines| - 1]), lines[|lines| - 1])
  }

  /** The parse loop of lines 89-101 over the lines of the file; a malformed line ends the
      run. */
  method FillInMaps(lines: seq<string>) returns (r: Result<Ledger>)
    ensures r == match ParseLines(lines)
                 case Err(e) => Err(e)
                 case Ok(parsed) => Ok(LedgerOf(parsed))
  {
    var accountIdToMatches: OrderedMap<int, seq<int>> := Empty();
    var accountIdToNames: OrderedMap<int, Names> := Empty();
    var i := 0;
    while i < |lines|
      invariant 0 <= i <= |lines|
      invariant ParseLines(lines[..i]).Ok?
      invariant Ledger(accountIdToMatches, accountIdToNames) == LedgerOf(ParseLines(lines[..i]).value)
    {
      assert lines[..i + 1][..i] == lines[..i];
      var parsed := ParseLine(lines[i], i);
      if parsed.Err? {
        ParseLinesPrefix(lines, i + 1);
        return Err(parsed.error);
      }
      var line := parsed.value;
      if !accountIdToMatches.Has(line.accountId) && !accountIdToNames.Has(line.accountId) {
        accountIdToMatches := accountIdToMatches.Set(line.accountId, []);
        accountIdToNames := accountIdToNames.Set(line.accountId, Names(line.name, line.summonerName));
      }
      accountIdToMatches := accountIdToMatches.Set(line.accountId, accountIdToMatches.at[line.accountId] + [line.matchId]);
      i := i + 1;
    }
    assert lines[..i] == lines;
    r := Ok(Ledger(accountIdToMatches, accountIdToNames));
  }

  /** A failure in a prefix is the failure of the whole. */
  lemma {:induction false} ParseLinesPrefix(lines: seq<string>, n: nat)
    requires n <= |lines|
    requires ParseLines(lines[..n]).Err?
    ensures ParseLines(lines) == ParseLines(lines[..n])
    decreases |lines| - n
  {
    if n < |lines| {
      assert lines[..n + 1][..n] == lines[..n];
      ParseLinesPrefix(lines, n + 1);
    } else {
      assert lines[..n] == lines;
    }
  }

  // ------------------------------------------------------------------ properties of the ledger

  function AccountIds(lines: seq<RosterLine>): (ids: seq<int>)
    ensures |ids| == |lines|
  {
    seq(|lines|, i requires 0 <= i < |lines| => lines[i].accountId)
  }

  /** The match ids of the lines of account k, in line order. */
  function MatchIdsOf(lines: seq<RosterLine>, k: int): seq<int> {
    if |lines| == 0 then []
    else
      var last := lines[|lines| - 1];
      MatchIdsOf(lines[..|lines| - 1], k) + (if last.accountId == k then [last.matchId] else [])
  }

  /** The index of the first occurrence of k. */
  function FirstLine(ids: seq<int>, k: int): (i: nat)
    requires k in ids
    ensures i < |ids| && ids[i] == k && k !in ids[..i]
  {
    if ids[0] == k then 0
    else
      var i := FirstLine(ids[1..], k);
      assert ids[1..][..i] == ids[1..i + 1];
      1 + i
  }

  /** The lists of the map, in key order. */
  function Lists(m: OrderedMap<int, seq<int>>): seq<seq<int>>
    requires m.Valid()
  {
    seq(|m.keys|, a requires 0 <= a < |m.keys| => m.at[m.keys[a]])
  }

  /** Exactly the accounts of the file are keys, and each account's list is the match ids
      of its lines, in line order. */
  lemma {:induction false} LedgerMatches(lines: seq<RosterLine>, k: int)
    ensures k in LedgerOf(lines).matches.at <==> k in AccountIds(lines)
    ensures k in LedgerOf(lines).matches.at ==> LedgerOf(lines).matches.at[k] == MatchIdsOf(lines, k)
  {
    if |lines| > 0 {
      var init := lines[..|lines| - 1];
      var last := lines[|lines| - 1];
      var l := LedgerOf(init);
      assert LedgerOf(lines) == Record(l, last);
      LedgerMatches(init, k);
      AccountIdsSnoc(lines);
      if k !in AccountIds(init) {
        MatchIdsAbsent(init, k);
      }
    }
  }

  lemma {:induction false} MatchIdsAbsent(lines: seq<RosterLine>, k: int)
    requires k !in AccountIds(lines)
    ensures MatchIdsOf(lines, k) == []
  {
    if |lines| > 0 {
      AccountIdsSnoc(lines);
      MatchIdsAbsent(lines[..|lines| - 1], k);
    }
  }

  lemma AccountIdsSnoc(lines: seq<RosterLine>)
    requires |lines| > 0
    ensures AccountIds(lines) == AccountIds(lines[..|lines| - 1]) + [lines[|lines| - 1].accountId]
  {
  }

  /** An account's names are those of its first line; later lines never change them. */
  lemma {:induction false} LedgerNames(lines: seq<RosterLine>, k: int)
    requires k in AccountIds(lines)
    ensures k in LedgerOf(lines).names.at
    ensures var first := lines[FirstLine(AccountIds(lines), k)];
            LedgerOf(lines).names.at[k] == Names(first.name, first.summonerName)
  {
    var init := lines[..|lines| - 1];
    var ids := AccountIds(lines);
    assert ids == AccountIds(init) + [lines[|lines| - 1].accountId];
    LedgerMatches(init, k);
    if k in AccountIds(init) {
      LedgerNames(init, k);
      FirstLineSnoc(AccountIds(init), lines[|lines| - 1].accountId, k);
    } else {
      FirstLineUnique(ids, k, |lines| - 1);
    }
  }

  /** Keys are in order of first appearance in the file. */
  lemma {:induction false} LedgerOrder(lines: seq<RosterLine>, a: nat, b: nat)
    requires a < b < |LedgerOf(lines).matches.keys|
    ensures LedgerOf(lines).matches.keys[a] in AccountIds(lines)
    ensures LedgerOf(lines).matches.keys[b] in AccountIds(lines)
    ensures FirstLine(AccountIds(lines), LedgerOf(lines).matches.keys[a])
            < FirstLine(AccountIds(lines), LedgerOf(lines).matches.keys[b])
  {
    var keys := LedgerOf(lines).matches.keys;
    KeyIsAccount(lines, a);
    KeyIsAccount(lines, b);
    var init := lines[..|lines| - 1];
    var last := lines[|lines| - 1].accountId;
    var initKeys := LedgerOf(init).matches.keys;
    LedgerKeysSnoc(lines);
    AccountIdsSnoc(lines);
    if b < |initKeys| {
      LedgerOrder(init, a, b);
      FirstLineSnoc(AccountIds(init), last, keys[a]);
      FirstLineSnoc(AccountIds(init), last, keys[b]);
    } else {
      // keys[b] is the account first seen on the last line
      KeyIsAccount(init, a);
      LedgerMatches(init, last);
      FirstLineUnique(AccountIds(lines), last, |lines| - 1);
      FirstLineSnoc(AccountIds(init), last, keys[a]);
    }
  }

  /** Every key is the account of some line. */
  lemma KeyIsAccount(lines: seq<RosterLine>, a: nat)
    requires a < |LedgerOf(lines).matches.keys|
    ensures LedgerOf(lines).matches.keys[a] in AccountIds(lines)
  {
    LedgerMatches(lines, LedgerOf(lines).matches.keys[a]);
  }

  /** The last line adds its account as the last key when the account is new. */
  lemma LedgerKeysSnoc(lines: seq<RosterLine>)
    requires |lines| > 0
    ensures var init := LedgerOf(lines[..|lines| - 1]).matches;
            var id := lines[|lines| - 1].accountId;
            LedgerOf(lines).matches.keys == if id in init.at then init.keys else init.keys + [id]
  {
    assert LedgerOf(lines) == Record(LedgerOf(lines[..|lines| - 1]), lines[|lines| - 1]);
  }

  lemma FirstLineUnique(ids: seq<int>, k: int, i: nat)
    requires i < |ids| && ids[i] == k && k !in ids[..i]
    ensures FirstLine(ids, k) == i
  {
    var f := FirstLine(ids, k);
    assert forall j :: 0 <= j < i ==> ids[..i][j] == ids[j];
    assert forall j :: 0 <= j < f ==> ids[..f][j] == ids[j];
  }

  lemma FirstLineSnoc(ids: seq<int>, x: int, k: int)
    requires k in ids
    ensures FirstLine(ids + [x], k) == FirstLine(ids, k)
  {
    var f := FirstLine(ids, k);
    assert (ids + [x])[..f] == ids[..f];
    FirstLineUnique(ids + [x], k, f);
  }

  /** Every line adds exactly one match id: the lists together are as long as the file. */
  lemma {:induction false} LedgerTotal(lines: seq<RosterLine>)
    ensures TotalLength(Lists(LedgerOf(lines).matches)) == |lines|
  {
    if |lines| > 0 {
      var init := lines[..|lines| - 1];
      var last := lines[|lines| - 1];
      var l := LedgerOf(init);
      assert LedgerOf(lines) == Record(l, last);
      LedgerTotal(init);
      ListsAfterRecord(l, last);
    }
  }

  /** Recording a line lengthens exactly one list by one. */
  lemma ListsAfterRecord(l: Ledger, r: RosterLine)
    requires LedgerValid(l)
    ensures TotalLength(Lists(Record(l, r).matches)) == TotalLength(Lists(l.matches)) + 1
  {
    var m := l.matches;
    var m' := Record(l, r).matches;
    var id := r.accountId;
    if id in m.at {
      var a :| 0 <= a < |m.keys| && m.keys[a] == id;
      var longer := Lists(m)[a := Lists(m)[a] + [r.matchId]];
      forall b | 0 <= b < |m.keys| ensures Lists(m')[b] == longer[b] {
        if b != a { assert m.keys[b] != m.keys[a]; }
      }
      assert Lists(m') == longer;
      TotalLengthUpdate(Lists(m), a, Lists(m)[a] + [r.matchId]);
    } else {
      assert m'.keys == m.keys + [id];
      forall b | 0 <= b < |m'.keys| ensures Lists(m')[b] == (Lists(m) + [[r.matchId]])[b] {
        if b < |m.keys| { assert m.keys[b] in m.at; }
      }
      assert Lists(m') == Lists(m) + [[r.matchId]];
      FlattenAppend(Lists(m), [r.matchId]);
    }
  }

  lemma {:induction false} TotalLengthUpdate(ss: seq<seq<int>>, a: nat, s: seq<int>)
    requires a < |ss|
    ensures TotalLength(ss[a := s]) == TotalLength(ss) - |ss[a]| + |s|
  {
    var n := |ss| - 1;
    if a < n {
      assert ss[a := s][..n] == ss[..n][a := s];
      TotalLengthUpdate(ss[..n], a, s);
    } else {
      assert ss[a := s][..n] == ss[..n];
    }
  }
}
