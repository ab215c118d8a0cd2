/** The output half of retrieveDetailsForMatches (src/fill-in-dets.ts, lines 106-147):
    one entry per (account, match) with the account's identity spread under its match
    details, the entries regrouped into one column per name of interest, the columns read
    back row by row, and the CSV text assembled from a header and the rows. */
module CsvOutput {
  import opened Results
  import opened Seqs
  import opened Text
  import opened Json
  import opened OrderedMaps
  import RosterLedger

  // ------------------------------------------------------------------ entries

  /** The identity part of an entry, `{ accountId, name, summonerName }`. */
  function Identity(accountId: int, names: RosterLedger.Names): (o: Object)
    ensures Names(o) == ["accountId", "name", "summonerName"]
  {
    var o := [Prop("accountId", Num(accountId)), Prop("name", Str(names.name)),
              Prop("summonerName", Str(names.summonerName))];
    assert Names(o[2..]) == ["summonerName"];
    assert Names(o[1..]) == ["name", "summonerName"];
    o
  }

  /** `{ accountId, name, summonerName, ...matchWithDets }`. */
  function Entry(accountId: int, names: RosterLedger.Names, details: Object): (e: Object)
    ensures ["accountId", "name", "summonerName"] <= Names(e)
  {
    Assign(Identity(accountId, names), details)
  }

  /** A property of the details wins; the three identity properties fill in the rest. */
  lemma EntryGet(accountId: int, names: RosterLedger.Names, details: Object, k: string)
    requires WellFormed(details)
    ensures Get(Entry(accountId, names, details), k) ==
            if k in Names(details) then Get(details, k)
            else if k == "accountId" then Num(accountId)
            else if k == "name" then Str(names.name)
            else if k == "summonerName" then Str(names.summonerName)
            else Undefined
  {
    var identity := Identity(accountId, names);
    AssignGet(identity, details, k);
    var t1, t2 := identity[1..], identity[1..][1..];
    assert t2 == [Prop("summonerName", Str(names.summonerName))] && t2[1..] == [];
    assert Get(t2, k) == if k == "summonerName" then Str(names.summonerName) else Undefined;
    assert Get(t1, k) == if k == "name" then Str(names.name) else Get(t2, k);
    assert Get(identity, k) == if k == "accountId" then Num(accountId) else Get(t1, k);
  }

  /** The identity names come first, in literal order, followed by the new names of the
      details in their own order. */
  lemma EntryNames(accountId: int, names: RosterLedger.Names, details: Object)
    ensures Names(Entry(accountId, names, details)) ==
            ["accountId", "name", "summonerName"] + NewNames(["accountId", "name", "summonerName"], Names(details))
  {
    AssignNames(Identity(accountId, names), details);
  }

  /** Every details map key has a names entry: the keys both maps share. */
  ghost predicate Named(dets: OrderedMap<int, seq<Object>>, names: OrderedMap<int, RosterLedger.Names>) {
    dets.Valid() && forall k :: k in dets.at ==> k in names.at
  }

  /** The entries of each account, accounts in key order, matches in list order. */
  function EntryLists(dets: OrderedMap<int, seq<Object>>, names: OrderedMap<int, RosterLedger.Names>): (ls: seq<seq<Object>>)
    requires Named(dets, names)
    ensures |ls| == |dets.keys|
  {
    seq(|dets.keys|, a requires 0 <= a < |dets.keys| =>
      EntriesOf(dets.keys[a], names.at[dets.keys[a]], dets.at[dets.keys[a]]))
  }

  /** The entries of one account, in the order of its details. */
  function EntriesOf(accountId: int, names: RosterLedger.Names, details: seq<Object>): (es: seq<Object>)
    ensures |es| == |details|
  {
    seq(|details|, j requires 0 <= j < |details| => Entry(accountId, names, details[j]))
  }

  /** The inner forEach of lines 112-119: the entries of one account pushed in the order
      of its details. */
  method PushEntries(entries: seq<Object>, accountId: int, names: RosterLedger.Names, matchesWithDets: seq<Object>)
    returns (pushed: seq<Object>)
    ensures pushed == entries + EntriesOf(accountId, names, matchesWithDets)
  {
    ghost var mine := EntriesOf(accountId, names, matchesWithDets);
    pushed := entries;
    var j := 0;
    while j < |matchesWithDets|
      invariant 0 <= j <= |matchesWithDets|
      invariant pushed == entries + mine[..j]
    {
      pushed := pushed + [Entry(accountId, names, matchesWithDets[j])];
      assert mine[..j + 1] == mine[..j] + [mine[j]];
      j := j + 1;
    }
    assert mine[..j] == mine;
  }

  /** The loop of lines 107-120: for each account in key order, for each of its details in
      order, push the entry. */
  method JoinEntries(dets: OrderedMap<int, seq<Object>>, names: OrderedMap<int, RosterLedger.Names>)
    returns (entries: seq<Object>)
    requires Named(dets, names)
    ensures entries == Flatten(EntryLists(dets, names))
  {
    ghost var ls := EntryLists(dets, names);
    var accountIds := dets.keys;
    entries := [];
    var a := 0;
    while a < |accountIds|
      invariant 0 <= a <= |accountIds|
      invariant entries == Flatten(ls[..a])
    {
      var accountId := accountIds[a];
      entries := PushEntries(entries, accountId, names.at[accountId], dets.at[accountId]);
      assert ls[a] == EntriesOf(accountId, names.at[accountId], dets.at[accountId]);
      FlattenPrefixSnoc(ls, a);
      a := a + 1;
    }
    assert ls[..a] == ls;
  }

  /** The entry of match j of the account at key position a sits after all entries of the
      accounts before it; there is one entry per details object. */
  lemma EntriesOrder(dets: OrderedMap<int, seq<Object>>, names: OrderedMap<int, RosterLedger.Names>, a: nat, j: nat)
    requires Named(dets, names)
    requires a < |dets.keys| && j < |dets.at[dets.keys[a]]|
    ensures var ls := EntryLists(dets, names);
            var k := dets.keys[a];
            && |Flatten(ls)| == TotalLength(ls)
            && TotalLength(ls[..a]) + j < |Flatten(ls)|
            && Flatten(ls)[TotalLength(ls[..a]) + j] == Entry(k, names.at[k], dets.at[k][j])
  {
    var ls := EntryLists(dets, names);
    var k := dets.keys[a];
    var e := Entry(k, names.at[k], dets.at[k][j]);
    assert ls[a][j] == e;
    FlattenAt(ls, a, j, e);
  }

  // ------------------------------------------------------------------ columns

  /** The column of one title: the entries' values under it, undefined where missing. */
  function Column(entries: seq<Object>, title: string): (col: seq<Value>)
    ensures |col| == |entries|
  {
    seq(|entries|, i requires 0 <= i < |entries| => Get(entries[i], title))
  }

  lemma ColumnSnoc(entries: seq<Object>, i: nat, title: string)
    requires i < |entries|
    ensures Column(entries[..i + 1], title) == Column(entries[..i], title) + [Get(entries[i], title)]
  {
  }

  /** The reduce of lines 123-126: an empty column for every title, titles in list order. */
  method NewColumns(titles: seq<string>) returns (groupCols: OrderedMap<string, seq<Value>>)
    requires Distinct(titles)
    ensures groupCols.Valid() && groupCols.keys == titles
    ensures forall t :: 0 <= t < |titles| ==> groupCols.at[titles[t]] == []
  {
    groupCols := Empty();
    var t := 0;
    while t < |titles|
      invariant 0 <= t <= |titles|
      invariant groupCols.Valid() && groupCols.keys == titles[..t]
      invariant forall u :: 0 <= u < t ==> groupCols.at[titles[u]] == []
    {
      assert titles[t] !in titles[..t];
      groupCols := groupCols.Set(titles[t], []);
      assert titles[..t + 1] == titles[..t] + [titles[t]];
      t := t + 1;
    }
    assert titles[..t] == titles;
  }

  /** The inner forEach of lines 129-131: the entry's value under every title pushed onto
      that title's column; the titles stay as they are. */
  method PushEntry(titles: seq<string>, groupCols: OrderedMap<string, seq<Value>>, entry: Object)
    returns (next: OrderedMap<string, seq<Value>>)
    requires Distinct(titles) && groupCols.Valid() && groupCols.keys == titles
    ensures next.Valid() && next.keys == titles
    ensures forall t :: 0 <= t < |titles| ==> next.at[titles[t]] == groupCols.at[titles[t]] + [Get(entry, titles[t])]
  {
    next := groupCols;
    var u := 0;
    while u < |titles|
      invariant 0 <= u <= |titles|
      invariant next.Valid() && next.keys == titles
      invariant forall v :: 0 <= v < u ==> next.at[titles[v]] == groupCols.at[titles[v]] + [Get(entry, titles[v])]
      invariant forall v :: u <= v < |titles| ==> next.at[titles[v]] == groupCols.at[titles[v]]
    {
      var title := titles[u];
      assert forall v :: 0 <= v < |titles| && v != u ==> titles[v] != title;
      next := next.Set(title, next.at[title] + [Get(entry, title)]);
      u := u + 1;
    }
  }

  /** Lines 123-132: a map from every title to its column, titles in list order. */
  method GroupColumns(titles: seq<string>, entries: seq<Object>) returns (groupCols: OrderedMap<string, seq<Value>>)
    requires Distinct(titles)
    ensures groupCols.Valid() && groupCols.keys == titles
    ensures forall t :: 0 <= t < |titles| ==> groupCols.at[titles[t]] == Column(entries, titles[t])
  {
    groupCols := NewColumns(titles);
    var i := 0;
    while i < |entries|
      invariant 0 <= i <= |entries|
      invariant groupCols.Valid() && groupCols.keys == titles
      invariant forall u :: 0 <= u < |titles| ==> groupCols.at[titles[u]] == Column(entries[..i], titles[u])
    {
      groupCols := PushEntry(titles, groupCols, entries[i]);
      forall u | 0 <= u < |titles|
        ensures groupCols.at[titles[u]] == Column(entries[..i + 1], titles[u])
      {
        ColumnSnoc(entries, i, titles[u]);
      }
      i := i + 1;
    }
    assert entries[..i] == entries;
  }

  // ------------------------------------------------------------------ rows

  /** `groupCols.get(title)[i]`: undefined past the end of the column. */
  function At(col: seq<Value>, i: nat): (v: Value)
    ensures i >= |col| ==> v == Undefined
  {
    if i < |col| then col[i] else Undefined
  }

  /** The CSV line of one entry: its values under the titles, in title order, each as
      `join` renders it. */
  function RowText(titles: seq<string>, entry: Object): (row: string)
    ensures |titles| > 0 && (forall t :: 0 <= t < |titles| ==> ',' !in Render(Get(entry, titles[t]))) ==>
            |Split(row, ',')| == |titles|
  {
    var values := seq(|titles|, t requires 0 <= t < |titles| => Render(Get(entry, titles[t])));
    FieldCountWhen(values, ',');
    Join(values, ',')
  }

  /** Row i of the columns: the value at i of every title's column, joined. */
  function RowAt(titles: seq<string>, cols: map<string, seq<Value>>, i: nat): string
    requires forall t :: 0 <= t < |titles| ==> titles[t] in cols
  {
    Join(seq(|titles|, t requires 0 <= t < |titles| => Render(At(cols[titles[t]], i))), ',')
  }

  /** Lines 137-142: as many rows as the first column has values; row i joins the values
      at i of every title's column. */
  method EmitRows(titles: seq<string>, groupCols: OrderedMap<string, seq<Value>>) returns (rows: seq<string>)
    requires |titles| > 0
    requires forall t :: 0 <= t < |titles| ==> titles[t] in groupCols.at
    requires groupCols.keys == titles
    ensures |rows| == |groupCols.at[titles[0]]|
    ensures forall i :: 0 <= i < |rows| ==> rows[i] == RowAt(titles, groupCols.at, i)
  {
    var numRows := |groupCols.at[groupCols.keys[0]]|;
    rows := [];
    var i := 0;
    while i < numRows
      invariant 0 <= i <= numRows
      invariant |rows| == i
      invariant forall r :: 0 <= r < i ==> rows[r] == RowAt(titles, groupCols.at, r)
    {
      var row := seq(|titles|, t requires 0 <= t < |titles| => At(groupCols.at[titles[t]], i));
      var line := Join(seq(|row|, t requires 0 <= t < |row| => Render(row[t])), ',');
      assert seq(|row|, t requires 0 <= t < |row| => Render(row[t]))
          == seq(|titles|, t requires 0 <= t < |titles| => Render(At(groupCols.at[titles[t]], i)));
      rows := rows + [line];
      i := i + 1;
    }
  }

  /** One CSV line per entry, in entry order. */
  function Rows(titles: seq<string>, entries: seq<Object>): (rows: seq<string>)
    ensures |rows| == |entries|
  {
    seq(|entries|, i requires 0 <= i < |entries| => RowText(titles, entries[i]))
  }

  /** Lines 123-148 after the entries are built: the columns are grouped, read back into
      rows, and the rows written under the header. */
  method TabulateEntries(titles: seq<string>, entries: seq<Object>) returns (r: Result<string>)
    requires Distinct(titles) && |titles| > 0
    ensures r == CsvText(entries, Rows(titles, entries))
  {
    var groupCols := GroupColumns(titles, entries);
    var rows := EmitRows(titles, groupCols);
    RowsAreEntries(titles, entries, groupCols, rows);
    r := CsvText(entries, rows);
  }

  /** Reading the grouped columns back row by row gives one CSV line per entry, in entry
      order: the columns carry every entry's value under every title. */
  lemma RowsAreEntries(titles: seq<string>, entries: seq<Object>, groupCols: OrderedMap<string, seq<Value>>, rows: seq<string>)
    requires |titles| > 0
    requires forall t :: 0 <= t < |titles| ==> titles[t] in groupCols.at && groupCols.at[titles[t]] == Column(entries, titles[t])
    requires |rows| == |groupCols.at[titles[0]]|
    requires forall i :: 0 <= i < |rows| ==> rows[i] == RowAt(titles, groupCols.at, i)
    ensures rows == Rows(titles, entries)
  {
    forall i | 0 <= i < |rows|
      ensures rows[i] == RowText(titles, entries[i])
    {
      assert seq(|titles|, t requires 0 <= t < |titles| => Render(At(groupCols.at[titles[t]], i)))
          == seq(|titles|, t requires 0 <= t < |titles| => Render(Get(entries[i], titles[t])));
    }
  }

  // ------------------------------------------------------------------ the file

  /** Lines 144-147 as written: the header is `Object.keys` of the first entry, and with no
      entry at all reading its keys throws. */
  function CsvText(entries: seq<Object>, rows: seq<string>): (r: Result<string>)
    ensures r.Err? <==> |entries| == 0
    ensures r.Ok? && '\n' !in Join(Names(entries[0]), ',') ==>
              Split(r.value, '\n') == [Join(Names(entries[0]), ',')] + Split(Join(rows, '\n'), '\n')
  {
    if |entries| == 0 then Err(NoEntries)
    else
      var header := Join(Names(entries[0]), ',');
      var text := header + "\n" + Join(rows, '\n');
      if '\n' !in header then
        SplitPrefix(header, Join(rows, '\n'), '\n');
        Ok(text)
      else Ok(text)
  }

  /** The header the columns call for: the titles themselves. */
  function CsvTextDeclared(titles: seq<string>, entries: seq<Object>, rows: seq<string>): (r: Result<string>)
    ensures r.Err? <==> |entries| == 0
  {
    if |entries| == 0 then Err(NoEntries) else Ok(Join(titles, ',') + "\n" + Join(rows, '\n'))
  }

  /** Text free of the two separators. */
  predicate Plain(s: string) {
    ',' !in s && '\n' !in s
  }

  /** With the declared header, every line of the file has one field per title, provided no
      title and no rendered value holds a separator: the header and row i of the file are
      the titles and the values of entry i. */
  lemma DeclaredColumnsLineUp(titles: seq<string>, entries: seq<Object>)
    requires |titles| > 0 && |entries| > 0
    requires forall t :: 0 <= t < |titles| ==> Plain(titles[t])
    requires forall i, t :: 0 <= i < |entries| && 0 <= t < |titles| ==> Plain(Render(Get(entries[i], titles[t])))
    ensures var rows := Rows(titles, entries);
            var lines := Split(CsvTextDeclared(titles, entries, rows).value, '\n');
            && |lines| == |entries| + 1
            && Split(lines[0], ',') == titles
            && forall i :: 0 <= i < |entries| ==>
                 Split(lines[i + 1], ',') == seq(|titles|, t requires 0 <= t < |titles| => Render(Get(entries[i], titles[t])))
  {
    var rows := Rows(titles, entries);
    var header := Join(titles, ',');
    JoinNoSep(titles, ',', '\n');
    forall i | 0 <= i < |entries|
      ensures '\n' !in rows[i]
      ensures Split(rows[i], ',') == seq(|titles|, t requires 0 <= t < |titles| => Render(Get(entries[i], titles[t])))
    {
      var fields := seq(|titles|, t requires 0 <= t < |titles| => Render(Get(entries[i], titles[t])));
      JoinNoSep(fields, ',', '\n');
      SplitJoin(fields, ',');
    }
    SplitPrefix(header, Join(rows, '\n'), '\n');
    SplitJoin(rows, '\n');
    SplitJoin(titles, ',');
    assert Split(CsvTextDeclared(titles, entries, rows).value, '\n') == [header] + rows;
  }

  /** A sample entry: one account whose details carry a single statistic and the game
      id. */
  function SampleEntry(): Object {
    Entry(1, RosterLedger.Names("a", "b"), [Prop("win", Bool(true)), Prop("gameId", Num(7))])
  }

  lemma SampleEntryNames()
    ensures Names(SampleEntry()) == ["accountId", "name", "summonerName", "win", "gameId"]
  {
    var details := [Prop("win", Bool(true)), Prop("gameId", Num(7))];
    EntryNames(1, RosterLedger.Names("a", "b"), details);
    SampleDetailsNames();
    SampleNewNames();
  }

  lemma SampleDetailsNames()
    ensures Names([Prop("win", Bool(true)), Prop("gameId", Num(7))]) == ["win", "gameId"]
  {
    var details := [Prop("win", Bool(true)), Prop("gameId", Num(7))];
    assert Names(details[1..]) == ["gameId"];
  }

  lemma SampleNewNames()
    ensures NewNames(["accountId", "name", "summonerName"], ["win", "gameId"]) == ["win", "gameId"]
  {
    var identity := ["accountId", "name", "summonerName"];
    assert |"win"| == 3 && |"gameId"| == 6 && |"accountId"| == 9 && |"name"| == 4 && |"summonerName"| == 12;
    assert "win" !in identity;
    assert "gameId" !in identity + ["win"];
    assert NewNames(identity + ["win"], ["gameId"]) == ["gameId"];
    assert NewNames(identity, ["win", "gameId"]) == ["win"] + NewNames(identity + ["win"], ["gameId"]);
  }

  /** The sample entry's header line: five plain fields. */
  lemma SampleHeader()
    ensures var header := Join(["accountId", "name", "summonerName", "win", "gameId"], ',');
            '\n' !in header && |Split(header, ',')| == 5
  {
    var names := ["accountId", "name", "summonerName", "win", "gameId"];
    forall t | 0 <= t < |names|
      ensures Plain(names[t])
    {
      if t == 0 {
        assert Plain("accountId");
      } else if t == 1 {
        assert Plain("name");
      } else if t == 2 {
        assert Plain("summonerName");
      } else if t == 3 {
        assert Plain("win");
      } else {
        assert Plain("gameId");
      }
    }
    JoinNoSep(names, ',', '\n');
    FieldCount(names, ',');
  }

  /** As written, the header follows the first entry's own names: with the sample entry
      first, the header has five fields whatever the titles are. */
  lemma HeaderMismatch(rows: seq<string>)
    ensures var text := CsvText([SampleEntry()], rows).value;
            |Split(Split(text, '\n')[0], ',')| == 5
  {
    SampleEntryNames();
    SampleHeader();
  }

  /** The values of the sample entry: its two details, its identity, or undefined. */
  lemma SampleGet(k: string)
    ensures var v := Get(SampleEntry(), k);
            v == Bool(true) || v == Num(7) || v == Num(1) || v == Str("a") || v == Str("b") || v == Undefined
  {
    var details := [Prop("win", Bool(true)), Prop("gameId", Num(7))];
    SampleDetailsNames();
    EntryGet(1, RosterLedger.Names("a", "b"), details, k);
    assert Get(details, "win") == Bool(true);
    assert Get(details, "gameId") == Num(7);
  }

  /** Every value of the sample entry renders without a comma. */
  lemma SampleValuePlain(k: string)
    ensures ',' !in Render(Get(SampleEntry(), k))
  {
    SampleGet(k);
    SampleValueRendered(Get(SampleEntry(), k));
  }

  lemma SampleValueRendered(v: Value)
    requires v == Bool(true) || v == Num(7) || v == Num(1) || v == Str("a") || v == Str("b") || v == Undefined
    ensures ',' !in Render(v)
  {
    if v == Bool(true) {
      assert Plain("true");
    } else if v == Str("a") || v == Str("b") {
      assert Plain("a") && Plain("b");
    }
  }

  /** Every value of the sample entry renders without a separator, so its row has one
      field per title. */
  lemma SampleRowFields(titles: seq<string>)
    requires |titles| > 0
    ensures |Split(RowText(titles, SampleEntry()), ',')| == |titles|
  {
    var fields := seq(|titles|, t requires 0 <= t < |titles| => Render(Get(SampleEntry(), titles[t])));
    forall t | 0 <= t < |titles|
      ensures ',' !in fields[t]
    {
      SampleValuePlain(titles[t]);
    }
    FieldCount(fields, ',');
  }
}
