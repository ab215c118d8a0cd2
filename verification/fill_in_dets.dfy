/** retrieveDetailsForMatches (src/fill-in-dets.ts, lines 83-148): the roster file in, the
    enriched CSV text out. Reading and writing the files are left to the caller; the match
    endpoint is the `fetch` oracle. */
module FillInDets {
  import opened Results
  import opened Seqs
  import opened Text
  import opened Json
  import opened OrderedMaps
  import opened MatchRecords
  import RosterLedger
  import MatchDetails
  import KeysOfInterest
  import CsvOutput

  /** The entries, in output order, that the roster lines give when every lookup succeeds. */
  function EntriesFor(lines: seq<RosterLedger.RosterLine>, fetch: int -> MatchRecord): (r: Result<seq<Object>>) {
    var ledger := RosterLedger.LedgerOf(lines);
    match MatchDetails.DetailsOf(ledger.matches.keys, ledger.matches.at, MatchDetails.Lookup(fetch))
    case Err(e) => Err(e)
    case Ok(dets) =>
      DetailsNamed(lines, fetch);
      Ok(Flatten(CsvOutput.EntryLists(dets, ledger.names)))
  }

  /** Every account of the details map has names: both come from the same roster. */
  lemma DetailsNamed(lines: seq<RosterLedger.RosterLine>, fetch: int -> MatchRecord)
    ensures var ledger := RosterLedger.LedgerOf(lines);
            var d := MatchDetails.DetailsOf(ledger.matches.keys, ledger.matches.at, MatchDetails.Lookup(fetch));
            d.Ok? ==> CsvOutput.Named(d.value, ledger.names)
  {
    var ledger := RosterLedger.LedgerOf(lines);
    var m := ledger.matches;
    MatchDetails.DetailsOfKeys(m.keys, m.at, MatchDetails.Lookup(fetch));
  }

  /** The text the script writes for a roster file, as written. */
  function Retrieved(content: string, fetch: int -> MatchRecord): (r: Result<string>)
    ensures var p := RosterLedger.ParseLines(Split(content, '\n'));
            r.Ok? <==> p.Ok? && EntriesFor(p.value, fetch).Ok?
  {
    match RosterLedger.ParseLines(Split(content, '\n'))
    case Err(e) => Err(e)
    case Ok(lines) =>
      match EntriesFor(lines, fetch)
      case Err(e) => Err(e)
      case Ok(entries) =>
        OneEntryPerLine(lines, fetch);
        CsvOutput.CsvText(entries, CsvOutput.Rows(KeysOfInterest.Keys, entries))
  }

  /** The same text with the header the columns call for: the column names. */
  function RetrievedDeclared(content: string, fetch: int -> MatchRecord): (r: Result<string>)
    ensures r.Err? <==> Retrieved(content, fetch).Err?
  {
    match RosterLedger.ParseLines(Split(content, '\n'))
    case Err(e) => Err(e)
    case Ok(lines) =>
      match EntriesFor(lines, fetch)
      case Err(e) => Err(e)
      case Ok(entries) =>
        CsvOutput.CsvTextDeclared(KeysOfInterest.Keys, entries, CsvOutput.Rows(KeysOfInterest.Keys, entries))
  }

  /** As written, a file whose first entry is the sample entry gets a five-field header
      over a row of 105 fields. */
  lemma HeaderDisagreesWithRows()
    ensures var e := CsvOutput.SampleEntry();
            var rows := CsvOutput.Rows(KeysOfInterest.Keys, [e]);
            && |Split(Split(CsvOutput.CsvText([e], rows).value, '\n')[0], ',')| == 5
            && |Split(rows[0], ',')| == 105
  {
    KeysOfInterest.KeysDistinct();
    CsvOutput.HeaderMismatch(CsvOutput.Rows(KeysOfInterest.Keys, [CsvOutput.SampleEntry()]));
    CsvOutput.SampleRowFields(KeysOfInterest.Keys);
  }

  /** retrieveDetailsForMatches: split the file into lines, fill in the two maps, look up
      every match, then write the entries out column by column. */
  method RetrieveDetailsForMatches(content: string, fetch: int -> MatchRecord) returns (r: Result<string>)
    ensures r == Retrieved(content, fetch)
  {
    var lines := Split(content, '\n');
    var filled := RosterLedger.FillInMaps(lines);
    if filled.Err? {
      return Err(filled.error);
    }
    ghost var parsed := RosterLedger.ParseLines(lines).value;
    var accountIdToMatches := filled.value.matches;
    var accountIdToNames := filled.value.names;
    var accountIdToMatchesDets := MatchDetails.GetDetailsForMatches(accountIdToMatches, fetch);
    if accountIdToMatchesDets.Err? {
      return Err(accountIdToMatchesDets.error);
    }
    DetailsNamed(parsed, fetch);
    var boysWithDetsMatches := CsvOutput.JoinEntries(accountIdToMatchesDets.value, accountIdToNames);
    KeysOfInterest.KeysDistinct();
    r := CsvOutput.TabulateEntries(KeysOfInterest.Keys, boysWithDetsMatches);
  }

  // ------------------------------------------------------------------ one row per line

  /** The number of values the keys hold in total. */
  ghost function KeyTotal<V>(keys: seq<int>, at: map<int, seq<V>>): nat
    requires forall i :: 0 <= i < |keys| ==> keys[i] in at
  {
    if |keys| == 0 then 0 else KeyTotal(keys[..|keys| - 1], at) + |at[keys[|keys| - 1]]|
  }

  lemma KeyTotalSnoc<V>(keys: seq<int>, k: int, at: map<int, seq<V>>)
    requires forall i :: 0 <= i < |keys| ==> keys[i] in at
    requires k in at
    ensures KeyTotal(keys + [k], at) == KeyTotal(keys, at) + |at[k]|
  {
    assert (keys + [k])[..|keys|] == keys;
  }

  /** Values under other keys do not count. */
  lemma {:induction false} KeyTotalFrame<V>(keys: seq<int>, at: map<int, seq<V>>, k: int, v: seq<V>)
    requires forall i :: 0 <= i < |keys| ==> keys[i] in at
    requires k !in keys
    ensures KeyTotal(keys, at[k := v]) == KeyTotal(keys, at)
  {
    if |keys| > 0 {
      KeyTotalFrame(keys[..|keys| - 1], at, k, v);
    }
  }

  /** The lists of the keys, in key order. */
  ghost function ByKey<V>(keys: seq<int>, at: map<int, seq<V>>): (ls: seq<seq<V>>)
    requires forall i :: 0 <= i < |keys| ==> keys[i] in at
    ensures |ls| == |keys| && forall a :: 0 <= a < |keys| ==> ls[a] == at[keys[a]]
  {
    seq(|keys|, a requires 0 <= a < |keys| => at[keys[a]])
  }

  /** The total of the lists, taken key by key. */
  lemma {:induction false} KeyTotalLists<V>(keys: seq<int>, at: map<int, seq<V>>)
    requires forall i :: 0 <= i < |keys| ==> keys[i] in at
    ensures TotalLength(ByKey(keys, at)) == KeyTotal(keys, at)
  {
    if |keys| > 0 {
      var n := |keys| - 1;
      KeyTotalLists(keys[..n], at);
      assert ByKey(keys, at)[..n] == ByKey(keys[..n], at);
    }
  }

  /** One entry per details object. */
  lemma EntriesCount(dets: OrderedMap<int, seq<Object>>, names: OrderedMap<int, RosterLedger.Names>)
    requires CsvOutput.Named(dets, names)
    ensures |Flatten(CsvOutput.EntryLists(dets, names))| == KeyTotal(dets.keys, dets.at)
  {
    var ls := CsvOutput.EntryLists(dets, names);
    var byKey := ByKey(dets.keys, dets.at);
    assert forall a :: 0 <= a < |ls| ==> |ls[a]| == |byKey[a]|;
    FlattenLength(ls);
    TotalLengthSameShape(ls, byKey);
    KeyTotalLists(dets.keys, dets.at);
  }

  /** One details object per match id. */
  lemma {:induction false} DetailsCount(keys: seq<int>, at: map<int, seq<int>>, lookup: (int, int) -> Result<Object>)
    requires forall i :: 0 <= i < |keys| ==> keys[i] in at
    requires Distinct(keys)
    ensures var d := MatchDetails.DetailsOf(keys, at, lookup);
            d.Ok? ==> KeyTotal(d.value.keys, d.value.at) == KeyTotal(keys, at)
  {
    var d := MatchDetails.DetailsOf(keys, at, lookup);
    if d.Ok? && |keys| > 0 {
      var n := |keys| - 1;
      var k := keys[n];
      MatchDetails.KeysPrefix(keys, n, at);
      DetailsCount(keys[..n], at, lookup);
      var prev := MatchDetails.DetailsOf(keys[..n], at, lookup).value;
      if |at[k]| > 0 {
        var ds := MatchDetails.DetailList(k, at[k], lookup).value;
        MatchDetails.DetailsOfFresh(keys, n, at, lookup);
        assert d.value == prev.Set(k, ds);
        KeyTotalSet(prev, k, ds);
      }
    }
  }

  /** Setting a new key adds its values to the total. */
  lemma KeyTotalSet<V>(m: OrderedMap<int, seq<V>>, k: int, v: seq<V>)
    requires m.Valid() && k !in m.at
    ensures forall i :: 0 <= i < |m.keys| ==> m.keys[i] in m.at
    ensures KeyTotal(m.Set(k, v).keys, m.Set(k, v).at) == KeyTotal(m.keys, m.at) + |v|
  {
    assert forall i :: 0 <= i < |m.keys| ==> m.keys[i] in m.at;
    KeyTotalSnoc(m.keys, k, m.at[k := v]);
    KeyTotalFrame(m.keys, m.at, k, v);
  }

  /** One match id per roster line. */
  lemma LedgerCount(lines: seq<RosterLedger.RosterLine>)
    ensures var m := RosterLedger.LedgerOf(lines).matches;
            KeyTotal(m.keys, m.at) == |lines|
  {
    var m := RosterLedger.LedgerOf(lines).matches;
    assert forall i :: 0 <= i < |m.keys| ==> m.keys[i] in m.at;
    KeyTotalLists(m.keys, m.at);
    RosterLedger.LedgerTotal(lines);
    assert RosterLedger.Lists(m) == ByKey(m.keys, m.at);
  }

  /** When every lookup succeeds, the script writes exactly one entry, and so one row, per
      line of the roster file. */
  lemma OneEntryPerLine(lines: seq<RosterLedger.RosterLine>, fetch: int -> MatchRecord)
    ensures EntriesFor(lines, fetch).Ok? ==> |EntriesFor(lines, fetch).value| == |lines|
  {
    var ledger := RosterLedger.LedgerOf(lines);
    var m := ledger.matches;
    var d := MatchDetails.DetailsOf(m.keys, m.at, MatchDetails.Lookup(fetch));
    if d.Ok? {
      DetailsNamed(lines, fetch);
      EntriesCount(d.value, ledger.names);
      DetailsCount(m.keys, m.at, MatchDetails.Lookup(fetch));
      LedgerCount(lines);
    }
  }
}
