/** The summarizer of `load_addr`: build the DataFrame of flow records, sort
    it by date, drop the unconfirmed rows, add the net column and group by
    the date string, summing the three amount columns. */
module Summary {
  import opened Flows
  import opened Lex

  /** A DataFrame row: its index label and its record. */
  datatype Row = Row(index: nat, rec: FlowRecord)

  /** The sent, received and net columns. */
  datatype Amounts = Amounts(sent: int, received: int, net: int)

  const NoAmounts: Amounts := Amounts(0, 0, 0)

  function Plus(a: Amounts, b: Amounts): Amounts
  {
    Amounts(a.sent + b.sent, a.received + b.received, a.net + b.net)
  }

  predicate Balanced(a: Amounts)
  {
    a.net == a.sent - a.received
  }

  lemma PlusNone(a: Amounts)
    ensures Plus(NoAmounts, a) == a && Plus(a, NoAmounts) == a
  {
  }

  lemma PlusSwap(a: Amounts, b: Amounts, c: Amounts)
    ensures Plus(a, b) == Plus(b, a)
    ensures Plus(a, Plus(b, c)) == Plus(b, Plus(a, c))
  {
  }

  lemma PlusAssoc(a: Amounts, b: Amounts, c: Amounts)
    ensures Plus(Plus(a, b), c) == Plus(a, Plus(b, c))
  {
  }

  lemma PlusBalanced(a: Amounts, b: Amounts)
    requires Balanced(a) && Balanced(b)
    ensures Balanced(Plus(a, b))
  {
  }

  /** A row of the per-transaction table once the net column is added. */
  datatype NetRow = NetRow(index: nat, date: string, address: string, amounts: Amounts)

  /** A row of the daily summary. */
  datatype DailyRow = DailyRow(date: string, amounts: Amounts)

  // ---------------------------------------------------------------------
  // Reference sums over the flow records.

  /** What a record adds to the totals of date `d`. */
  function Contribution(r: FlowRecord, d: string): Amounts
  {
    if r.date == d then Amounts(r.sent, r.received, r.sent - r.received) else NoAmounts
  }

  /** Column-wise sums of sent, received and sent − received over the
      records dated `d`. */
  function TotalOn(records: seq<FlowRecord>, d: string): Amounts
  {
    if records == [] then NoAmounts else Plus(Contribution(records[0], d), TotalOn(records[1..], d))
  }

  /** The distinct dates of the records. */
  function DatesOf(records: seq<FlowRecord>): set<string>
  {
    if records == [] then {} else {records[0].date} + DatesOf(records[1..])
  }

  lemma {:induction false} TotalOnBalanced(records: seq<FlowRecord>, d: string)
    ensures Balanced(TotalOn(records, d))
  {
    if records != [] {
      var c, t := Contribution(records[0], d), TotalOn(records[1..], d);
      TotalOnBalanced(records[1..], d);
      assert Balanced(c) && Balanced(t);
      assert TotalOn(records, d) == Plus(c, t);
      PlusBalanced(c, t);
    }
  }

  /** The records of a sequence of rows, in order. */
  function Records(rows: seq<Row>): seq<FlowRecord>
  {
    if rows == [] then [] else [rows[0].rec] + Records(rows[1..])
  }

  lemma RecordsCons(x: Row, rows: seq<Row>)
    ensures Records([x] + rows) == [x.rec] + Records(rows)
  {
    assert ([x] + rows)[1..] == rows;
  }

  lemma TotalOnCons(r: FlowRecord, records: seq<FlowRecord>, d: string)
    ensures TotalOn([r] + records, d) == Plus(Contribution(r, d), TotalOn(records, d))
    ensures DatesOf([r] + records) == {r.date} + DatesOf(records)
  {
    assert ([r] + records)[1..] == records;
  }

  /** Each record sits at the position of its row. */
  lemma {:induction false} RecordsIndex(rows: seq<Row>)
    ensures |Records(rows)| == |rows|
    ensures forall i :: 0 <= i < |rows| ==> Records(rows)[i] == rows[i].rec
  {
    if rows != [] {
      RecordsIndex(rows[1..]);
    }
  }

  // ---------------------------------------------------------------------
  // pd.DataFrame(data): labels 0, 1, 2, ...

  function Frame(records: seq<FlowRecord>): seq<Row>
  {
    seq(|records|, i requires 0 <= i < |records| => Row(i, records[i]))
  }

  /** No two distinct rows share an index label. */
  ghost predicate UniqueIndex(rows: seq<Row>)
  {
    forall x, y :: x in rows && y in rows && x.index == y.index ==> x == y
  }

  /** The frame holds the records in order, each under its position as its
      label, so the labels are distinct and below the length. */
  lemma FrameShape(records: seq<FlowRecord>)
    ensures Records(Frame(records)) == records
    ensures UniqueIndex(Frame(records))
    ensures forall x :: x in Frame(records) ==> x.index < |records| && x == Row(x.index, records[x.index])
  {
    var f := Frame(records);
    RecordsIndex(f);
    assert Records(f) == records;
    forall x, y | x in f && y in f && x.index == y.index
      ensures x == y
    {
      var i :| 0 <= i < |f| && f[i] == x;
      var j :| 0 <= j < |f| && f[j] == y;
    }
  }

  // ---------------------------------------------------------------------
  // sort_values(by='date')

  predicate NotAfter(x: Row, y: Row)
  {
    !Less(y.rec.date, x.rec.date)
  }

  ghost predicate SortedByDate(rows: seq<Row>)
  {
    forall i, j :: 0 <= i < j < |rows| ==> NotAfter(rows[i], rows[j])
  }

  function Insert(x: Row, rows: seq<Row>): seq<Row>
  {
    if rows == [] || NotAfter(x, rows[0]) then [x] + rows else [rows[0]] + Insert(x, rows[1..])
  }

  lemma {:induction false} InsertPerm(x: Row, rows: seq<Row>)
    ensures multiset(Insert(x, rows)) == multiset(rows) + multiset{x}
  {
    if !(rows == [] || NotAfter(x, rows[0])) {
      InsertPerm(x, rows[1..]);
      assert rows == [rows[0]] + rows[1..];
    }
  }

  /** A row no later than every row of a sorted sequence can go in front. */
  lemma ConsSorted(x: Row, rows: seq<Row>)
    requires SortedByDate(rows)
    requires forall k :: 0 <= k < |rows| ==> NotAfter(x, rows[k])
    ensures SortedByDate([x] + rows)
  {
    var r := [x] + rows;
    forall i, j | 0 <= i < j < |r|
      ensures NotAfter(r[i], r[j])
    {
      assert r[j] == rows[j - 1];
      if i > 0 {
        assert r[i] == rows[i - 1];
      }
    }
  }

  lemma {:induction false} InsertSorted(x: Row, rows: seq<Row>)
    requires SortedByDate(rows)
    ensures SortedByDate(Insert(x, rows))
  {
    if rows == [] || NotAfter(x, rows[0]) {
      forall k | 0 <= k < |rows|
        ensures NotAfter(x, rows[k])
      {
        if k > 0 {
          assert NotAfter(rows[0], rows[k]);
          NotLessTransitive(x.rec.date, rows[0].rec.date, rows[k].rec.date);
        }
      }
      ConsSorted(x, rows);
    } else {
      var tail := rows[1..];
      var t := Insert(x, tail);
      InsertSorted(x, tail);
      InsertPerm(x, tail);
      assert NotAfter(rows[0], x) by { LessAsymmetric(rows[0].rec.date, x.rec.date); }
      forall k | 0 <= k < |t|
        ensures NotAfter(rows[0], t[k])
      {
        assert t[k] in multiset(t);
        if t[k] != x {
          assert t[k] in tail;
          var m :| 0 <= m < |tail| && tail[m] == t[k];
          assert rows[m + 1] == t[k];
        }
      }
      ConsSorted(rows[0], t);
    }
  }

  /** Insertion sort by date; pandas' default sort is not stable, and any
      order among rows of one date is one it may produce. */
  function SortByDate(rows: seq<Row>): (r: seq<Row>)
    ensures SortedByDate(r)
    ensures multiset(r) == multiset(rows)
  {
    if rows == [] then []
    else
      var t := SortByDate(rows[1..]);
      InsertSorted(rows[0], t);
      InsertPerm(rows[0], t);
      assert rows == [rows[0]] + rows[1..];
      Insert(rows[0], t)
  }

  /** The sorted frame has the same rows and the same length. */
  lemma SortSameRows(rows: seq<Row>)
    ensures |SortByDate(rows)| == |rows|
    ensures forall x :: x in SortByDate(rows) <==> x in rows
  {
    var s := SortByDate(rows);
    assert |multiset(s)| == |multiset(rows)|;
    forall x
      ensures x in s <==> x in rows
    {
      assert x in s <==> x in multiset(s);
      assert x in rows <==> x in multiset(rows);
    }
  }

  lemma {:induction false} InsertTotal(x: Row, rows: seq<Row>, d: string)
    ensures TotalOn(Records(Insert(x, rows)), d) == Plus(Contribution(x.rec, d), TotalOn(Records(rows), d))
  {
    if rows == [] || NotAfter(x, rows[0]) {
      RecordsCons(x, rows);
      TotalOnCons(x.rec, Records(rows), d);
    } else {
      var t := Insert(x, rows[1..]);
      InsertTotal(x, rows[1..], d);
      RecordsCons(rows[0], t);
      TotalOnCons(rows[0].rec, Records(t), d);
      assert Records(rows) == [rows[0].rec] + Records(rows[1..]);
      TotalOnCons(rows[0].rec, Records(rows[1..]), d);
      PlusSwap(Contribution(rows[0].rec, d), Contribution(x.rec, d), TotalOn(Records(rows[1..]), d));
    }
  }

  lemma {:induction false} InsertDates(x: Row, rows: seq<Row>)
    ensures DatesOf(Records(Insert(x, rows))) == {x.rec.date} + DatesOf(Records(rows))
  {
    if rows == [] || NotAfter(x, rows[0]) {
      RecordsCons(x, rows);
      TotalOnCons(x.rec, Records(rows), "");
    } else {
      var t := Insert(x, rows[1..]);
      InsertDates(x, rows[1..]);
      RecordsCons(rows[0], t);
      TotalOnCons(rows[0].rec, Records(t), "");
      assert Records(rows) == [rows[0].rec] + Records(rows[1..]);
      TotalOnCons(rows[0].rec, Records(rows[1..]), "");
    }
  }

  /** Sorting neither adds nor loses an amount or a date. */
  lemma {:induction false} SortTotals(rows: seq<Row>, d: string)
    ensures TotalOn(Records(SortByDate(rows)), d) == TotalOn(Records(rows), d)
    ensures DatesOf(Records(SortByDate(rows))) == DatesOf(Records(rows))
  {
    if rows != [] {
      SortTotals(rows[1..], d);
      InsertTotal(rows[0], SortByDate(rows[1..]), d);
      InsertDates(rows[0], SortByDate(rows[1..]));
      assert Records(rows) == [rows[0].rec] + Records(rows[1..]);
      TotalOnCons(rows[0].rec, Records(rows[1..]), d);
    }
  }

  // ---------------------------------------------------------------------
  // The drop loop: for each index i, drop the row labelled i if its date is
  // the sentinel.

  /** `drop(index=[i])`. */
  function DropLabel(rows: seq<Row>, i: nat): seq<Row>
  {
    if rows == [] then []
    else if rows[0].index == i then DropLabel(rows[1..], i)
    else [rows[0]] + DropLabel(rows[1..], i)
  }

  /** The frame after the iterations for the labels below `i`. */
  function DropUnconfirmedBelow(rows: seq<Row>, i: nat): seq<Row>
  {
    if rows == [] then []
    else if rows[0].index < i && rows[0].rec.date == Unconfirmed then DropUnconfirmedBelow(rows[1..], i)
    else [rows[0]] + DropUnconfirmedBelow(rows[1..], i)
  }

  /** The unconfirmed rows dropped, the others kept in order. */
  function RemoveUnconfirmed(rows: seq<Row>): seq<Row>
  {
    if rows == [] then []
    else if rows[0].rec.date == Unconfirmed then RemoveUnconfirmed(rows[1..])
    else [rows[0]] + RemoveUnconfirmed(rows[1..])
  }

  /** `drop(index=[i])` removes exactly the rows labelled `i`. */
  lemma {:induction false} DropLabelMembers(rows: seq<Row>, i: nat)
    ensures forall x :: x in DropLabel(rows, i) <==> x in rows && x.index != i
  {
    if rows != [] {
      DropLabelMembers(rows[1..], i);
      assert rows == [rows[0]] + rows[1..];
    }
  }

  /** After the iterations below `i`, exactly the unconfirmed rows with a
      label below `i` are gone. */
  lemma {:induction false} DropBelowMembers(rows: seq<Row>, i: nat)
    ensures forall x :: x in DropUnconfirmedBelow(rows, i) <==>
      x in rows && !(x.index < i && x.rec.date == Unconfirmed)
  {
    if rows != [] {
      DropBelowMembers(rows[1..], i);
      assert rows == [rows[0]] + rows[1..];
    }
  }

  /** Every unconfirmed row is dropped and every other row is kept. */
  lemma {:induction false} RemoveMembers(rows: seq<Row>)
    ensures forall x :: x in RemoveUnconfirmed(rows) <==> x in rows && x.rec.date != Unconfirmed
  {
    if rows != [] {
      RemoveMembers(rows[1..]);
      assert rows == [rows[0]] + rows[1..];
    }
  }

  lemma {:induction false} DropStep(rows: seq<Row>, i: nat)
    requires forall x :: x in rows && x.index == i ==> x.rec.date == Unconfirmed
    ensures DropLabel(DropUnconfirmedBelow(rows, i), i) == DropUnconfirmedBelow(rows, i + 1)
  {
    if rows != [] {
      DropStep(rows[1..], i);
    }
  }

  lemma {:induction false} KeepStep(rows: seq<Row>, i: nat)
    requires forall x :: x in rows && x.index == i ==> x.rec.date != Unconfirmed
    ensures DropUnconfirmedBelow(rows, i) == DropUnconfirmedBelow(rows, i + 1)
  {
    if rows != [] {
      KeepStep(rows[1..], i);
    }
  }

  lemma {:induction false} DropAll(rows: seq<Row>, n: nat)
    requires forall x :: x in rows ==> x.index < n
    ensures DropUnconfirmedBelow(rows, n) == RemoveUnconfirmed(rows)
  {
    if rows != [] {
      DropAll(rows[1..], n);
    }
  }

  /** `df.loc[i, 'date']`: the row labelled `i`, if any. `None` stands for
      the KeyError `loc` raises on a missing label; on the frame the drop
      loop visits, whose labels are 0 .. n-1 and only labels below `i` have
      been dropped, the label `i` is always present, so that case does not
      arise there and the loop's `else` branch then only keeps confirmed
      rows. */
  function Locate(rows: seq<Row>, i: nat): (r: Chain.Option<Row>)
    ensures r.Some? ==> r.value in rows && r.value.index == i
    ensures r.None? ==> forall x :: x in rows ==> x.index != i
  {
    if rows == [] then Chain.None
    else if rows[0].index == i then Chain.Some(rows[0])
    else Locate(rows[1..], i)
  }

  /** The loop at lines 94-96 over the labels 0 .. n-1 of a frame with
      unique labels below n: it drops exactly the unconfirmed rows. */
  method DropUnconfirmed(rows: seq<Row>) returns (kept: seq<Row>)
    requires UniqueIndex(rows)
    requires forall x :: x in rows ==> x.index < |rows|
    ensures kept == RemoveUnconfirmed(rows)
  {
    kept := rows;
    assert DropUnconfirmedBelow(rows, 0) == rows by { DropNone(rows); }
    for i := 0 to |rows|
      invariant kept == DropUnconfirmedBelow(rows, i)
    {
      var found := Locate(kept, i);
      DropBelowMembers(rows, i);
      if found.Some? && found.value.rec.date == Unconfirmed {
        DropStep(rows, i);
        kept := DropLabel(kept, i);
      } else {
        KeepStep(rows, i);
      }
    }
    DropAll(rows, |rows|);
  }

  lemma {:induction false} DropNone(rows: seq<Row>)
    ensures DropUnconfirmedBelow(rows, 0) == rows
  {
    if rows != [] {
      DropNone(rows[1..]);
    }
  }

  /** Dropping the unconfirmed rows changes no other date's totals. */
  lemma {:induction false} RemoveTotal(rows: seq<Row>, d: string)
    requires d != Unconfirmed
    ensures TotalOn(Records(RemoveUnconfirmed(rows)), d) == TotalOn(Records(rows), d)
  {
    if rows != [] {
      var rest := RemoveUnconfirmed(rows[1..]);
      RemoveTotal(rows[1..], d);
      assert Records(rows) == [rows[0].rec] + Records(rows[1..]);
      TotalOnCons(rows[0].rec, Records(rows[1..]), d);
      if rows[0].rec.date == Unconfirmed {
        assert RemoveUnconfirmed(rows) == rest;
        assert Contribution(rows[0].rec, d) == NoAmounts;
        PlusNone(TotalOn(Records(rows[1..]), d));
      } else {
        assert RemoveUnconfirmed(rows) == [rows[0]] + rest;
        RecordsCons(rows[0], rest);
        TotalOnCons(rows[0].rec, Records(rest), d);
      }
    }
  }

  /** Dropping the unconfirmed rows removes the sentinel date and no other. */
  lemma {:induction false} RemoveDates(rows: seq<Row>)
    ensures DatesOf(Records(RemoveUnconfirmed(rows))) == DatesOf(Records(rows)) - {Unconfirmed}
  {
    if rows != [] {
      var rest := RemoveUnconfirmed(rows[1..]);
      RemoveDates(rows[1..]);
      assert Records(rows) == [rows[0].rec] + Records(rows[1..]);
      TotalOnCons(rows[0].rec, Records(rows[1..]), "");
      if rows[0].rec.date != Unconfirmed {
        RecordsCons(rows[0], rest);
        TotalOnCons(rows[0].rec, Records(rest), "");
      }
    }
  }

  /** Dropping rows keeps the survivors in date order. */
  lemma {:induction false} RemoveSorted(rows: seq<Row>)
    requires SortedByDate(rows)
    ensures SortedByDate(RemoveUnconfirmed(rows))
  {
    if rows != [] {
      var rest := RemoveUnconfirmed(rows[1..]);
      assert SortedByDate(rows[1..]);
      RemoveSorted(rows[1..]);
      RemoveMembers(rows[1..]);
      if rows[0].rec.date != Unconfirmed {
        forall k | 0 <= k < |rest|
          ensures NotAfter(rows[0], rest[k])
        {
          assert rest[k] in rows[1..];
          var m :| 0 <= m < |rows[1..]| && rows[1..][m] == rest[k];
          assert rows[m + 1] == rest[k];
        }
        ConsSorted(rows[0], rest);
      }
    }
  }

  /** How often a row occurs once the unconfirmed rows are dropped. */
  lemma {:induction false} RemoveCount(rows: seq<Row>, x: Row)
    ensures multiset(RemoveUnconfirmed(rows))[x] == if x.rec.date == Unconfirmed then 0 else multiset(rows)[x]
  {
    if rows != [] {
      RemoveCount(rows[1..], x);
      assert rows == [rows[0]] + rows[1..];
    }
  }

  /** Dropping the unconfirmed rows from two permutations of one frame
      leaves two permutations. */
  lemma RemovePerm(a: seq<Row>, b: seq<Row>)
    requires multiset(a) == multiset(b)
    ensures multiset(RemoveUnconfirmed(a)) == multiset(RemoveUnconfirmed(b))
  {
    forall x
      ensures multiset(RemoveUnconfirmed(a))[x] == multiset(RemoveUnconfirmed(b))[x]
    {
      RemoveCount(a, x);
      RemoveCount(b, x);
    }
  }

  // ---------------------------------------------------------------------
  // df['net'] = sent - received

  function NetOf(x: Row): (n: NetRow)
    ensures n.index == x.index && n.date == x.rec.date && n.address == x.rec.address
    ensures n.amounts.sent == x.rec.sent && n.amounts.received == x.rec.received
    ensures Balanced(n.amounts)
  {
    NetRow(x.index, x.rec.date, x.rec.address,
           Amounts(x.rec.sent, x.rec.received, x.rec.sent - x.rec.received))
  }

  /** The table with the net column: the same rows in the same order. */
  function WithNet(rows: seq<Row>): (r: seq<NetRow>)
    ensures |r| == |rows|
    ensures forall k :: 0 <= k < |r| ==> r[k] == NetOf(rows[k])
  {
    if rows == [] then [] else [NetOf(rows[0])] + WithNet(rows[1..])
  }

  /** Column sums over the table rows dated `d`. */
  function NetTotal(rows: seq<NetRow>, d: string): Amounts
  {
    if rows == [] then NoAmounts
    else Plus(if rows[0].date == d then rows[0].amounts else NoAmounts, NetTotal(rows[1..], d))
  }

  function NetDates(rows: seq<NetRow>): set<string>
  {
    if rows == [] then {} else {rows[0].date} + NetDates(rows[1..])
  }

  lemma {:induction false} WithNetTotals(rows: seq<Row>, d: string)
    ensures NetTotal(WithNet(rows), d) == TotalOn(Records(rows), d)
    ensures NetDates(WithNet(rows)) == DatesOf(Records(rows))
  {
    if rows != [] {
      var w := WithNet(rows[1..]);
      WithNetTotals(rows[1..], d);
      assert WithNet(rows) == [NetOf(rows[0])] + w;
      assert ([NetOf(rows[0])] + w)[1..] == w;
      assert Records(rows) == [rows[0].rec] + Records(rows[1..]);
      TotalOnCons(rows[0].rec, Records(rows[1..]), d);
    }
  }

  // ---------------------------------------------------------------------
  // groupby("date").agg(sum): one row per distinct date, keys ascending.

  ghost predicate StrictlyAscending(g: seq<DailyRow>)
  {
    forall i, j :: 0 <= i < j < |g| ==> Less(g[i].date, g[j].date)
  }

  ghost predicate Above(d: string, g: seq<DailyRow>)
  {
    forall k :: 0 <= k < |g| ==> Less(d, g[k].date)
  }

  function GroupDates(g: seq<DailyRow>): set<string>
  {
    if g == [] then {} else {g[0].date} + GroupDates(g[1..])
  }

  /** Column sums over the summary rows dated `d`. */
  function GroupTotal(g: seq<DailyRow>, d: string): Amounts
  {
    if g == [] then NoAmounts
    else Plus(if g[0].date == d then g[0].amounts else NoAmounts, GroupTotal(g[1..], d))
  }

  /** Add one table row to an ascending summary: into the row of its date,
      or as a new row in date order. */
  function AddToGroup(g: seq<DailyRow>, n: NetRow): seq<DailyRow>
  {
    if g == [] then [DailyRow(n.date, n.amounts)]
    else if g[0].date == n.date then [DailyRow(g[0].date, Plus(g[0].amounts, n.amounts))] + g[1..]
    else if Less(n.date, g[0].date) then [DailyRow(n.date, n.amounts)] + g
    else [g[0]] + AddToGroup(g[1..], n)
  }

  /** A key below every key of the summary and below the new row's date
      stays below every key of the result. */
  lemma {:induction false} AddToGroupAbove(g: seq<DailyRow>, n: NetRow, d: string)
    requires Above(d, g) && Less(d, n.date)
    ensures Above(d, AddToGroup(g, n))
  {
    var r := AddToGroup(g, n);
    if g != [] && g[0].date != n.date && !Less(n.date, g[0].date) {
      var t := AddToGroup(g[1..], n);
      assert Above(d, g[1..]);
      AddToGroupAbove(g[1..], n, d);
      assert r == [g[0]] + t;
      forall k | 0 <= k < |r|
        ensures Less(d, r[k].date)
      {
        if k > 0 {
          assert r[k] == t[k - 1];
        }
      }
    }
  }

  /** A key below every key of an ascending summary can go in front. */
  lemma ConsAscending(x: DailyRow, g: seq<DailyRow>)
    requires StrictlyAscending(g) && Above(x.date, g)
    ensures StrictlyAscending([x] + g)
  {
    var r := [x] + g;
    forall i, j | 0 <= i < j < |r|
      ensures Less(r[i].date, r[j].date)
    {
      assert r[j] == g[j - 1];
      if i > 0 {
        assert r[i] == g[i - 1];
      }
    }
  }

  /** Adding a row keeps the keys strictly ascending. */
  lemma {:induction false} AddToGroupAscending(g: seq<DailyRow>, n: NetRow)
    requires StrictlyAscending(g)
    ensures StrictlyAscending(AddToGroup(g, n))
  {
    if g == [] {
    } else if g[0].date == n.date {
      assert StrictlyAscending(g[1..]);
      assert Above(g[0].date, g[1..]);
      ConsAscending(AddToGroup(g, n)[0], g[1..]);
      assert AddToGroup(g, n) == [AddToGroup(g, n)[0]] + g[1..];
    } else if Less(n.date, g[0].date) {
      forall k | 0 <= k < |g|
        ensures Less(n.date, g[k].date)
      {
        if k > 0 {
          assert Less(g[0].date, g[k].date);
          LessTransitive(n.date, g[0].date, g[k].date);
        }
      }
      ConsAscending(DailyRow(n.date, n.amounts), g);
    } else {
      var tail := g[1..];
      var t := AddToGroup(tail, n);
      assert StrictlyAscending(tail);
      AddToGroupAscending(tail, n);
      assert Less(g[0].date, n.date) by { LessTotal(n.date, g[0].date); }
      assert Above(g[0].date, tail);
      AddToGroupAbove(tail, n, g[0].date);
      ConsAscending(g[0], t);
    }
  }

  /** Adding a row adds its date to the keys. */
  lemma {:induction false} AddToGroupDates(g: seq<DailyRow>, n: NetRow)
    ensures GroupDates(AddToGroup(g, n)) == GroupDates(g) + {n.date}
  {
    var r := AddToGroup(g, n);
    if g == [] {
    } else if g[0].date == n.date {
      assert r[1..] == g[1..];
    } else if Less(n.date, g[0].date) {
      assert r[1..] == g;
    } else {
      AddToGroupDates(g[1..], n);
      assert r[1..] == AddToGroup(g[1..], n);
    }
  }

  lemma GroupTotalCons(x: DailyRow, g: seq<DailyRow>, d: string)
    ensures GroupTotal([x] + g, d) == Plus(if x.date == d then x.amounts else NoAmounts, GroupTotal(g, d))
  {
    assert ([x] + g)[1..] == g;
  }

  /** Adding a row adds its amounts to the totals of its date and to no
      other date's. */
  lemma {:induction false} AddToGroupTotal(g: seq<DailyRow>, n: NetRow, d: string)
    ensures GroupTotal(AddToGroup(g, n), d)
         == Plus(GroupTotal(g, d), if n.date == d then n.amounts else NoAmounts)
  {
    var c := if n.date == d then n.amounts else NoAmounts;
    var single := DailyRow(n.date, n.amounts);
    if g == [] {
      assert AddToGroup(g, n) == [single] + [];
      GroupTotalCons(single, [], d);
      PlusNone(c);
    } else {
      var g0 := g[0];
      var rest := g[1..];
      var c0 := if g0.date == d then g0.amounts else NoAmounts;
      var t1 := GroupTotal(rest, d);
      assert GroupTotal(g, d) == Plus(c0, t1);
      if g0.date == n.date {
        var merged := DailyRow(g0.date, Plus(g0.amounts, n.amounts));
        assert AddToGroup(g, n) == [merged] + rest;
        GroupTotalCons(merged, rest, d);
        if g0.date == d {
          PlusAssoc(g0.amounts, n.amounts, t1);
          PlusSwap(n.amounts, t1, g0.amounts);
          PlusAssoc(g0.amounts, t1, n.amounts);
        } else {
          PlusNone(t1);
          PlusNone(Plus(c0, t1));
        }
      } else if Less(n.date, g0.date) {
        assert AddToGroup(g, n) == [single] + g;
        GroupTotalCons(single, g, d);
        PlusSwap(c, GroupTotal(g, d), c);
      } else {
        var t := AddToGroup(rest, n);
        assert AddToGroup(g, n) == [g0] + t;
        AddToGroupTotal(rest, n, d);
        GroupTotalCons(g0, t, d);
        PlusAssoc(c0, t1, c);
      }
    }
  }

  function GroupByDate(rows: seq<NetRow>): (g: seq<DailyRow>)
    ensures StrictlyAscending(g)
    ensures GroupDates(g) == NetDates(rows)
    ensures forall d :: GroupTotal(g, d) == NetTotal(rows, d)
  {
    if rows == [] then []
    else
      var t := GroupByDate(rows[1..]);
      AddToGroupAscending(t, rows[0]);
      AddToGroupDates(t, rows[0]);
      assert forall d :: GroupTotal(AddToGroup(t, rows[0]), d) == NetTotal(rows, d) by {
        forall d
          ensures GroupTotal(AddToGroup(t, rows[0]), d) == NetTotal(rows, d)
        {
          AddToGroupTotal(t, rows[0], d);
        }
      }
      AddToGroup(t, rows[0])
  }

  /** In an ascending summary, a row's amounts are the totals of its date. */
  lemma {:induction false} RowIsGroupTotal(g: seq<DailyRow>, k: nat)
    requires StrictlyAscending(g) && k < |g|
    ensures GroupTotal(g, g[k].date) == g[k].amounts
    ensures g[k].date in GroupDates(g)
  {
    if k == 0 {
      assert Above(g[0].date, g[1..]);
      AbsentTotal(g[1..], g[0].date);
    } else {
      RowIsGroupTotal(g[1..], k - 1);
      assert g[0].date != g[k].date by {
        assert Less(g[0].date, g[k].date);
        LessIrreflexive(g[k].date);
      }
    }
  }

  lemma {:induction false} AbsentTotal(g: seq<DailyRow>, d: string)
    requires Above(d, g)
    ensures GroupTotal(g, d) == NoAmounts
  {
    if g != [] {
      assert g[0].date != d by { LessIrreflexive(d); }
      assert Above(d, g[1..]);
      AbsentTotal(g[1..], d);
    }
  }

  // ---------------------------------------------------------------------
  // The whole summarizer.

  /** The frame sorted by date with the unconfirmed rows dropped. */
  function ConfirmedRows(records: seq<FlowRecord>): seq<Row>
  {
    RemoveUnconfirmed(SortByDate(Frame(records)))
  }

  /** The per-transaction table written to disk. */
  function Table(records: seq<FlowRecord>): seq<NetRow>
  {
    WithNet(ConfirmedRows(records))
  }

  /** The daily summary. */
  function DailySummary(records: seq<FlowRecord>): seq<DailyRow>
  {
    GroupByDate(Table(records))
  }

  /** The table rows are the confirmed records, each under its original
      label and each exactly as often as in the frame, in date order. */
  lemma TableCorrect(records: seq<FlowRecord>)
    ensures SortedByDate(ConfirmedRows(records))
    ensures multiset(ConfirmedRows(records)) == multiset(RemoveUnconfirmed(Frame(records)))
    ensures forall x :: x in ConfirmedRows(records) <==>
      x.index < |records| && x == Row(x.index, records[x.index]) && x.rec.date != Unconfirmed
    ensures forall k :: 0 <= k < |Table(records)| ==> Table(records)[k] == NetOf(ConfirmedRows(records)[k])
  {
    var f := Frame(records);
    var s := SortByDate(f);
    FrameShape(records);
    SortSameRows(f);
    RemoveSorted(s);
    RemoveMembers(s);
    RemovePerm(s, f);
    forall x
      ensures x in ConfirmedRows(records) <==>
        x.index < |records| && x == Row(x.index, records[x.index]) && x.rec.date != Unconfirmed
    {
      if x.index < |records| && x == Row(x.index, records[x.index]) {
        assert f[x.index] == x;
      }
    }
  }

  /** The summary has exactly one row per distinct confirmed date, in
      ascending date order, no row for the sentinel, and each row holds the
      sums of sent, received and net over the input records of its date,
      so that its net is its sent minus its received. */
  lemma SummaryCorrect(records: seq<FlowRecord>)
    ensures var g := DailySummary(records);
      && StrictlyAscending(g)
      && GroupDates(g) == DatesOf(records) - {Unconfirmed}
      && (forall k :: 0 <= k < |g| ==>
            && g[k].date != Unconfirmed
            && g[k].amounts == TotalOn(records, g[k].date)
            && Balanced(g[k].amounts))
  {
    var rows := SortByDate(Frame(records));
    var kept := RemoveUnconfirmed(rows);
    var g := DailySummary(records);
    FrameShape(records);
    SortTotals(Frame(records), "");
    RemoveDates(rows);
    WithNetTotals(kept, "");
    forall k | 0 <= k < |g|
      ensures g[k].date != Unconfirmed
      ensures g[k].amounts == TotalOn(records, g[k].date)
      ensures Balanced(g[k].amounts)
    {
      var d := g[k].date;
      RowIsGroupTotal(g, k);
      SortTotals(Frame(records), d);
      RemoveTotal(rows, d);
      WithNetTotals(kept, d);
      TotalOnBalanced(records, d);
    }
  }

  /** The summarizer as run: the frame, the sort, the drop loop, the net
      column and the group-by. */
  method SummarizeDaily(records: seq<FlowRecord>) returns (table: seq<NetRow>, summary: seq<DailyRow>)
    ensures table == Table(records)
    ensures summary == DailySummary(records)
  {
    var rows := Frame(records);
    FrameShape(records);
    SortSameRows(rows);
    rows := SortByDate(rows);
    rows := DropUnconfirmed(rows);
    table := WithNet(rows);
    summary := GroupByDate(table);
  }

  // ---------------------------------------------------------------------
  // As written, an empty `data` list makes a DataFrame without a 'date'
  // column, and sort_values(by='date') raises KeyError.

  datatype SortOutcome = SortedRows(rows: seq<Row>) | KeyError

  function SortAsWritten(records: seq<FlowRecord>): (r: SortOutcome)
    ensures r.KeyError? <==> records == []
    ensures r.SortedRows? ==> SortedByDate(r.rows) && multiset(r.rows) == multiset(Frame(records))
  {
    if records == [] then KeyError else SortedRows(SortByDate(Frame(records)))
  }

  /** Witness: no records at all (every address without history or every
      fetch failing) stops the summarizer as written; the intended summary
      is empty. */
  lemma NoRecordsRaisesAsWritten()
    ensures SortAsWritten([]) == KeyError
    ensures DailySummary([]) == [] && Table([]) == []
  {
  }
}
