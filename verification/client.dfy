/**
 * The browser-side client of the local backend, shaped like the hosted
 * database client it replaces: a query builder collects equality filters,
 * an ordering and a single-row flag, then fetches the whole table and
 * filters and sorts it locally; insert, update and delete builders issue
 * one request per record; `rpc` knows one function, the shared-password
 * check. Every builder talks to a `JsonServer.Server`; every answer is a
 * `{ data, error }` pair.
 */
module LocalClient {
  import opened Wrappers
  import opened Text
  import opened Storage
  import opened JsonServer

  /** The `data` of an answer: a list of records or a single record. */
  datatype Answer = Many(items: seq<Item>) | One(item: Item)

  /** `{ data, error }`; `null` is `None`. */
  datatype Outcome = Outcome(data: Option<Answer>, error: Option<string>)

  /** The error raised for a response that is not ok. */
  function HttpFailure(status: nat): Outcome {
    Outcome(None, Some("HTTP " + NatToString(status)))
  }

  predicate IsOk(status: nat) {
    200 <= status < 300
  }

  // ---------------------------------------------------------------------------
  // Filtering

  /** One equality filter `(column, value)`: `item[column] === value`. */
  predicate Satisfies(item: Item, filter: (string, Value)) {
    StrictEq(Field(item, filter.0), Some(filter.1))
  }

  predicate Matches(item: Item, filters: seq<(string, Value)>) {
    forall j :: 0 <= j < |filters| ==> Satisfies(item, filters[j])
  }

  /** The condition of one filter, as a predicate value. */
  function SatisfiesFn(filter: (string, Value)): Item -> bool {
    (x: Item) => Satisfies(x, filter)
  }

  /** The condition of all the filters, as a predicate value. */
  function MatchesFn(filters: seq<(string, Value)>): Item -> bool {
    (x: Item) => Matches(x, filters)
  }

  /** One pass of the filter loop. */
  function Keep(data: seq<Item>, filter: (string, Value)): seq<Item> {
    Filter(data, SatisfiesFn(filter))
  }

  /** Matching all the filters is matching all but the last, and the last. */
  lemma MatchesSnoc(x: Item, filters: seq<(string, Value)>)
    requires |filters| > 0
    ensures Matches(x, filters) <==> Matches(x, filters[..|filters| - 1]) && Satisfies(x, filters[|filters| - 1])
  {
    var n := |filters| - 1;
    if Matches(x, filters[..n]) && Satisfies(x, filters[n]) {
      forall j | 0 <= j < |filters|
        ensures Satisfies(x, filters[j])
      {
        if j < n {
          assert filters[..n][j] == filters[j];
        }
      }
    }
    if Matches(x, filters) {
      forall j | 0 <= j < n
        ensures Satisfies(x, filters[..n][j])
      {
        assert filters[..n][j] == filters[j];
      }
    }
  }

  /** The filters applied one after the other, as the filter loop does. */
  function ApplyFilters(rows: seq<Item>, filters: seq<(string, Value)>): (r: seq<Item>)
    ensures forall x :: x in r <==> x in rows && Matches(x, filters)
    decreases |filters|
  {
    if |filters| == 0 then rows
    else
      var n := |filters| - 1;
      assert forall x :: Matches(x, filters) <==> Matches(x, filters[..n]) && Satisfies(x, filters[n]) by {
        forall x
          ensures Matches(x, filters) <==> Matches(x, filters[..n]) && Satisfies(x, filters[n])
        {
          MatchesSnoc(x, filters);
        }
      }
      Keep(ApplyFilters(rows, filters[..n]), filters[n])
  }

  lemma {:induction false} FilterComposed(s: seq<Item>, f: Item -> bool, g: Item -> bool, h: Item -> bool)
    requires forall x :: h(x) == (f(x) && g(x))
    ensures Filter(Filter(s, f), g) == Filter(s, h)
    decreases |s|
  {
    if |s| > 0 {
      FilterComposed(s[1..], f, g, h);
      var tail := Filter(s[1..], f);
      assert Filter(s, h) == (if h(s[0]) then [s[0]] else []) + Filter(s[1..], h);
      if f(s[0]) {
        var t := [s[0]] + tail;
        assert Filter(s, f) == t;
        assert t[0] == s[0] && t[1..] == tail;
        assert Filter(t, g) == (if g(s[0]) then [s[0]] else []) + Filter(tail, g);
      } else {
        assert Filter(s, f) == tail;
      }
    }
  }

  /** The successive filters keep the matching rows in the server's order: one filter by all the conditions. */
  lemma {:induction false} ApplyFiltersKeepsOrder(rows: seq<Item>, filters: seq<(string, Value)>)
    ensures ApplyFilters(rows, filters) == Filter(rows, MatchesFn(filters))
    decreases |filters|
  {
    if |filters| == 0 {
      FilterAll(rows, MatchesFn(filters));
    } else {
      var n := |filters| - 1;
      ApplyFiltersKeepsOrder(rows, filters[..n]);
      forall x
        ensures MatchesFn(filters)(x) == (MatchesFn(filters[..n])(x) && SatisfiesFn(filters[n])(x))
      {
        MatchesSnoc(x, filters);
      }
      FilterComposed(rows, MatchesFn(filters[..n]), SatisfiesFn(filters[n]), MatchesFn(filters));
    }
  }

  lemma {:induction false} FilterAll(s: seq<Item>, f: Item -> bool)
    requires forall x :: f(x)
    ensures Filter(s, f) == s
    decreases |s|
  {
    if |s| > 0 {
      FilterAll(s[1..], f);
      assert s == [s[0]] + s[1..];
    }
  }

  /** The value recorded for a column, if any. */
  function Lookup(filters: seq<(string, Value)>, column: string): (r: Option<Value>)
    ensures r.None? <==> forall j :: 0 <= j < |filters| ==> filters[j].0 != column
    ensures r.Some? ==> exists j :: 0 <= j < |filters| && filters[j] == (column, r.value)
  {
    match ColumnIndex(filters, column)
    case None => None
    case Some(i) => Some(filters[i].1)
  }

  predicate DistinctColumns(filters: seq<(string, Value)>) {
    forall i, j :: 0 <= i < j < |filters| ==> filters[i].0 != filters[j].0
  }

  /** With one filter per column, a row matches iff every column with a filter holds exactly its value. */
  lemma MatchesByColumn(item: Item, filters: seq<(string, Value)>)
    requires DistinctColumns(filters)
    ensures Matches(item, filters) <==>
            forall c :: Lookup(filters, c).Some? ==> StrictEq(Field(item, c), Lookup(filters, c))
  {
    if Matches(item, filters) {
      forall c | Lookup(filters, c).Some?
        ensures StrictEq(Field(item, c), Lookup(filters, c))
      {
        var j :| 0 <= j < |filters| && filters[j] == (c, Lookup(filters, c).value);
        assert Satisfies(item, filters[j]);
      }
    }
    if forall c :: Lookup(filters, c).Some? ==> StrictEq(Field(item, c), Lookup(filters, c)) {
      forall j | 0 <= j < |filters|
        ensures Satisfies(item, filters[j])
      {
        var c := filters[j].0;
        var v := Lookup(filters, c).value;
        var k :| 0 <= k < |filters| && filters[k] == (c, v);
        assert k == j;
      }
    }
  }

  /** The position of the column's filter, if any. */
  function ColumnIndex(filters: seq<(string, Value)>, column: string): (r: Option<nat>)
    ensures r.Some? ==> r.value < |filters| && filters[r.value].0 == column
    ensures r.None? ==> forall j :: 0 <= j < |filters| ==> filters[j].0 != column
    decreases |filters|
  {
    if |filters| == 0 then None
    else if filters[0].0 == column then Some(0)
    else match ColumnIndex(filters[1..], column)
      case None => None
      case Some(k) => Some(k + 1)
  }

  // ---------------------------------------------------------------------------
  // Ordering

  /** The kinds in the order the comparison groups them: undefined, null, booleans, numbers, strings, arrays, objects. */
  function Rank(v: Option<Value>): nat {
    match v
    case None => 0
    case Some(JNull) => 1
    case Some(JBool(_)) => 2
    case Some(JNum(_)) => 3
    case Some(JStr(_)) => 4
    case Some(JArr(_)) => 5
    case Some(JObj(_)) => 6
  }

  /** `<=` between column values: false before true, numbers by value, strings by code units. */
  predicate ValueLe(a: Option<Value>, b: Option<Value>) {
    Rank(a) < Rank(b) ||
    (Rank(a) == Rank(b) &&
     match (a, b)
     case (Some(JBool(x)), Some(JBool(y))) => !x || y
     case (Some(JNum(x)), Some(JNum(y))) => x <= y
     case (Some(JStr(x)), Some(JStr(y))) => LexLe(x, y)
     case _ => true)
  }

  lemma ValueLeTotal(a: Option<Value>, b: Option<Value>)
    ensures ValueLe(a, b) || ValueLe(b, a)
  {
    if a.Some? && b.Some? && a.value.JStr? && b.value.JStr? {
      LexLeTotal(a.value.s, b.value.s);
    }
  }

  lemma ValueLeTrans(a: Option<Value>, b: Option<Value>, c: Option<Value>)
    requires ValueLe(a, b) && ValueLe(b, c)
    ensures ValueLe(a, c)
  {
    if a.Some? && b.Some? && c.Some? && a.value.JStr? && b.value.JStr? && c.value.JStr? {
      LexLeTrans(a.value.s, b.value.s, c.value.s);
    }
  }

  /** The comparator of `order(column, { ascending })`. */
  function ItemLe(column: string, ascending: bool): (Item, Item) -> bool {
    (a: Item, b: Item) =>
      if ascending then ValueLe(Field(a, column), Field(b, column)) else ValueLe(Field(b, column), Field(a, column))
  }

  lemma ItemLeTotalPreorder(column: string, ascending: bool)
    ensures TotalPreorder(ItemLe(column, ascending))
  {
    var le := ItemLe(column, ascending);
    forall a: Item, b: Item
      ensures le(a, b) || le(b, a)
    {
      ValueLeTotal(Field(a, column), Field(b, column));
    }
    forall a: Item, b: Item, c: Item | le(a, b) && le(b, c)
      ensures le(a, c)
    {
      if ascending {
        ValueLeTrans(Field(a, column), Field(b, column), Field(c, column));
      } else {
        ValueLeTrans(Field(c, column), Field(b, column), Field(a, column));
      }
    }
  }

  /** The rows a query returns: filtered, then sorted when an order column is set (`""` is none). */
  function Query(rows: seq<Item>, filters: seq<(string, Value)>, orderColumn: string, ascending: bool): seq<Item> {
    var kept := ApplyFilters(rows, filters);
    if orderColumn == "" then kept else SortBy(kept, ItemLe(orderColumn, ascending))
  }

  /**
   * A query returns exactly the matching rows; with an order column they
   * are sorted ascending or descending by it, and without one they keep the
   * server's order.
   */
  lemma QueryCorrect(rows: seq<Item>, filters: seq<(string, Value)>, orderColumn: string, ascending: bool)
    ensures var r := Query(rows, filters, orderColumn, ascending);
            (forall x :: x in r <==> x in rows && Matches(x, filters)) &&
            multiset(r) == multiset(ApplyFilters(rows, filters)) &&
            (orderColumn == "" ==> r == Filter(rows, MatchesFn(filters))) &&
            (orderColumn != "" && ascending ==>
               forall i, j :: 0 <= i < j < |r| ==> ValueLe(Field(r[i], orderColumn), Field(r[j], orderColumn))) &&
            (orderColumn != "" && !ascending ==>
               forall i, j :: 0 <= i < j < |r| ==> ValueLe(Field(r[j], orderColumn), Field(r[i], orderColumn)))
  {
    var kept := ApplyFilters(rows, filters);
    var r := Query(rows, filters, orderColumn, ascending);
    if orderColumn == "" {
      ApplyFiltersKeepsOrder(rows, filters);
    } else {
      ItemLeTotalPreorder(orderColumn, ascending);
      SortByCorrect(kept, ItemLe(orderColumn, ascending));
      forall x
        ensures x in r <==> x in kept
      {
        assert x in r <==> x in multiset(r);
        assert x in kept <==> x in multiset(kept);
      }
      forall i, j | 0 <= i < j < |r|
        ensures ItemLe(orderColumn, ascending)(r[i], r[j])
      {
      }
    }
  }

  // ---------------------------------------------------------------------------
  // The builders

  /** The filters after an `eq` that put `(column, value)` at `at` and kept every other entry in place. */
  lemma LookupAfterEq(before: seq<(string, Value)>, after: seq<(string, Value)>, at: nat,
                      column: string, value: Value, c: string)
    requires DistinctColumns(before) && DistinctColumns(after)
    requires |before| <= |after| && at < |after| && after[at] == (column, value)
    requires forall k :: 0 <= k < |after| && k != at ==> k < |before| && after[k] == before[k]
    requires at < |before| ==> before[at].0 == column
    ensures Lookup(after, c) == if c == column then Some(value) else Lookup(before, c)
  {
    var r := Lookup(after, c);
    if c == column {
      assert r.Some?;
      var j :| 0 <= j < |after| && after[j] == (c, r.value);
    } else {
      var b := Lookup(before, c);
      if b.Some? {
        var j :| 0 <= j < |before| && before[j] == (c, b.value);
        assert j != at;
        assert after[j] == before[j];
        var j2 :| 0 <= j2 < |after| && after[j2] == (c, r.value);
        assert after[j2] == before[j2];
      } else {
        forall k | 0 <= k < |after|
          ensures after[k].0 != c
        {
        }
      }
    }
  }

  /** `from(table).select()`: a query under construction. */
  class QueryBuilder {
    const table: string
    var filters: seq<(string, Value)>
    var orderColumn: string
    var orderAsc: bool
    var isSingle: bool

    ghost predicate Valid()
      reads this
    {
      DistinctColumns(filters)
    }

    constructor (table: string)
      ensures Valid() && this.table == table
      ensures filters == [] && orderColumn == "" && orderAsc && !isSingle
    {
      this.table := table;
      filters := [];
      orderColumn := "";
      orderAsc := true;
      isSingle := false;
    }

    /** `eq(column, value)`: a later filter on the same column replaces the earlier one. */
    method Eq(column: string, value: Value)
      requires Valid()
      modifies this
      ensures Valid()
      ensures Lookup(filters, column) == Some(value)
      ensures forall c :: c != column ==> Lookup(filters, c) == Lookup(old(filters), c)
      ensures orderColumn == old(orderColumn) && orderAsc == old(orderAsc) && isSingle == old(isSingle)
    {
      var index := ColumnIndex(filters, column);
      ghost var at := if index.Some? then index.value else |filters|;
      if index.Some? {
        filters := filters[index.value := (column, value)];
      } else {
        filters := filters + [(column, value)];
      }
      assert filters[at] == (column, value);
      assert forall k :: 0 <= k < |filters| && k != at ==> k < |old(filters)| && filters[k] == old(filters)[k];
      forall c
        ensures Lookup(filters, c) == if c == column then Some(value) else Lookup(old(filters), c)
      {
        LookupAfterEq(old(filters), filters, at, column, value, c);
      }
    }

    /** `order(column, options)`: `ascending` defaults to true. */
    method Order(column: string, ascending: Option<bool>)
      modifies this
      ensures orderColumn == column && orderAsc == ascending.GetOr(true)
      ensures filters == old(filters) && isSingle == old(isSingle)
    {
      orderColumn := column;
      orderAsc := ascending.GetOr(true);
    }

    /**
     * `execute`: GET the table; an answer that is not ok is an error;
     * otherwise the rows are filtered, sorted, and for a single-row query
     * reduced to the first one (`null` when there is none).
     */
    method Execute(server: Server) returns (out: Outcome)
      ensures var tables := ReadData(server.file);
              (table !in tables ==> out == HttpFailure(404)) &&
              (table in tables ==>
                 var r := Query(tables[table], filters, orderColumn, orderAsc);
                 (isSingle && |r| > 0 ==> out == Outcome(Some(One(r[0])), None)) &&
                 (isSingle && |r| == 0 ==> out == Outcome(None, None)) &&
                 (!isSingle ==> out == Outcome(Some(Many(r)), None)))
    {
      var response := server.GetTable(table);
      if !IsOk(response.status) {
        return HttpFailure(response.status);
      }
      var rows := response.body.items;
      var data := rows;
      var i := 0;
      while i < |filters|
        invariant 0 <= i <= |filters|
        invariant data == ApplyFilters(rows, filters[..i])
      {
        assert filters[..i + 1][..i] == filters[..i];
        data := Keep(data, filters[i]);
        i := i + 1;
      }
      assert filters[..|filters|] == filters;
      if orderColumn != "" {
        data := SortBy(data, ItemLe(orderColumn, orderAsc));
      }
      if isSingle {
        if |data| > 0 {
          return Outcome(Some(One(data[0])), None);
        }
        return Outcome(None, None);
      }
      out := Outcome(Some(Many(data)), None);
    }

    /** Awaiting the builder runs the query. */
    method Then(server: Server) returns (out: Outcome)
      ensures var tables := ReadData(server.file);
              (table !in tables ==> out == HttpFailure(404)) &&
              (table in tables && !isSingle ==>
                 out == Outcome(Some(Many(Query(tables[table], filters, orderColumn, orderAsc))), None))
    {
      out := Execute(server);
    }

    /** `single()`: the first row of the query, or `null`. */
    method Single(server: Server) returns (out: Outcome)
      modifies this
      ensures isSingle && filters == old(filters) && orderColumn == old(orderColumn) && orderAsc == old(orderAsc)
      ensures var tables := ReadData(server.file);
              (table !in tables ==> out == HttpFailure(404)) &&
              (table in tables ==>
                 var r := Query(tables[table], filters, orderColumn, orderAsc);
                 out == if |r| > 0 then Outcome(Some(One(r[0])), None) else Outcome(None, None))
    {
      isSingle := true;
      out := Execute(server);
    }
  }

  /** The records a sequence of POSTs creates. */
  function CreatedAll(items: seq<Item>, uuids: seq<string>, now: string): (r: seq<Item>)
    requires |uuids| == |items|
    ensures |r| == |items|
    ensures forall i :: 0 <= i < |items| ==> r[i] == Created(items[i], uuids[i], now)
  {
    seq(|items|, i requires 0 <= i < |items| => Created(items[i], uuids[i], now))
  }

  /** How many leading writes succeed. */
  function SucceedingWrites(writeOks: seq<bool>): (k: nat)
    ensures k <= |writeOks|
    ensures forall j :: 0 <= j < k ==> writeOks[j]
    ensures k < |writeOks| ==> !writeOks[k]
    decreases |writeOks|
  {
    if |writeOks| == 0 || !writeOks[0] then 0 else 1 + SucceedingWrites(writeOks[1..])
  }

  /** `from(table).insert(records)`: one POST per record, in order. */
  class InsertBuilder {
    const table: string
    const insertData: seq<Item>

    constructor (table: string, insertData: seq<Item>)
      ensures this.table == table && this.insertData == insertData
    {
      this.table := table;
      this.insertData := insertData;
    }

    /**
     * `select()`: POSTs the records one after the other (the server's ids
     * and write results given as `uuids` and `writeOks`) and answers the
     * created records in input order; the first failure ends the loop with
     * an error, the records already created staying stored.
     */
    method Select(server: Server, uuids: seq<string>, now: string, writeOks: seq<bool>) returns (out: Outcome)
      requires |uuids| == |insertData| && |writeOks| == |insertData|
      modifies server
      ensures server.disk == old(server.disk)
      ensures var before := ReadData(old(server.file));
              var k := SucceedingWrites(writeOks);
              (table !in before ==>
                 ReadData(server.file) == before &&
                 out == if |insertData| == 0 then Outcome(Some(Many([])), None) else HttpFailure(404)) &&
              (table in before ==>
                 ReadData(server.file) == before[table := before[table] + CreatedAll(insertData[..k], uuids[..k], now)] &&
                 out == if k == |insertData| then Outcome(Some(Many(CreatedAll(insertData, uuids, now))), None)
                        else HttpFailure(500))
    {
      var before := ReadData(server.file);
      var k := SucceedingWrites(writeOks);
      var results: seq<Item> := [];
      var i := 0;
      assert CreatedAll(insertData[..0], uuids[..0], now) == [];
      if table in before {
        assert before[table] + results == before[table];
        assert before[table := before[table] + results] == before;
      }
      while i < |insertData|
        invariant 0 <= i <= |insertData| && i <= k
        invariant server.disk == old(server.disk)
        invariant results == CreatedAll(insertData[..i], uuids[..i], now)
        invariant table !in before ==> i == 0 && ReadData(server.file) == before
        invariant table in before ==> ReadData(server.file) == before[table := before[table] + results]
      {
        ghost var data := ReadData(server.file);
        var response := server.Post(table, insertData[i], uuids[i], now, writeOks[i]);
        if !IsOk(response.status) {
          return HttpFailure(response.status);
        }
        var created := Created(insertData[i], uuids[i], now);
        assert response.body.item == created;
        assert data[table] == before[table] + results;
        assert (before[table] + results) + [created] == before[table] + (results + [created]);
        assert data[table := data[table] + [created]] == before[table := before[table] + (results + [created])];
        results := results + [response.body.item];
        assert insertData[..i + 1] == insertData[..i] + [insertData[i]];
        assert uuids[..i + 1] == uuids[..i] + [uuids[i]];
        i := i + 1;
      }
      assert insertData[..i] == insertData && uuids[..i] == uuids;
      out := Outcome(Some(Many(results)), None);
    }

    /** `single()`: the first created record, or `null`. */
    method Single(server: Server, uuids: seq<string>, now: string, writeOks: seq<bool>) returns (out: Outcome)
      requires |uuids| == |insertData| && |writeOks| == |insertData|
      modifies server
      ensures server.disk == old(server.disk)
      ensures var before := ReadData(old(server.file));
              var k := SucceedingWrites(writeOks);
              (table !in before ==>
                 ReadData(server.file) == before &&
                 out == if |insertData| == 0 then Outcome(None, None) else HttpFailure(404)) &&
              (table in before ==>
                 ReadData(server.file) == before[table := before[table] + CreatedAll(insertData[..k], uuids[..k], now)]) &&
              (table in before && k == |insertData| ==>
                 out == if 0 < |insertData| then Outcome(Some(One(Created(insertData[0], uuids[0], now))), None)
                        else Outcome(None, None)) &&
              (table in before && k < |insertData| ==> out == HttpFailure(500))
    {
      var result := Select(server, uuids, now, writeOks);
      if result.data.Some? && result.data.value.Many? && |result.data.value.items| > 0 {
        return Outcome(Some(One(result.data.value.items[0])), result.error);
      }
      out := Outcome(None, result.error);
    }
  }

  /** `from(table).update(data)`: a PATCH of the record picked by an `id` filter. */
  class UpdateBuilder {
    const table: string
    const updateData: Item
    var filterId: string

    constructor (table: string, updateData: Item)
      ensures this.table == table && this.updateData == updateData && filterId == ""
    {
      this.table := table;
      this.updateData := updateData;
      filterId := "";
    }

    /** `eq(column, value)`: only a filter on `id` is recorded; others are ignored. */
    method Eq(column: string, value: string)
      modifies this
      ensures filterId == if column == "id" then value else old(filterId)
    {
      if column == "id" {
        filterId := value;
      }
    }

    /**
     * `select()`: without an id filter, an error and no request; otherwise
     * the PATCH, answered as a one-record list.
     */
    method Select(server: Server, now: string, writeOk: bool) returns (out: Outcome)
      modifies server
      ensures server.disk == old(server.disk)
      ensures filterId == "" ==> out == Outcome(None, Some("No id filter provided")) && server.file == old(server.file)
      ensures filterId != "" ==>
                var before := ReadData(old(server.file));
                (table !in before ==> out == HttpFailure(404) && server.file == old(server.file)) &&
                (table in before && FirstWithId(before[table], filterId).None? ==>
                   out == HttpFailure(404) && server.file == old(server.file)) &&
                (table in before && FirstWithId(before[table], filterId).Some? ==>
                   var i := FirstWithId(before[table], filterId).value;
                   var updated := Merged(before[table][i], updateData, now);
                   (writeOk ==>
                      out == Outcome(Some(Many([updated])), None) &&
                      server.file == Stored(before[table := before[table][i := updated]])) &&
                   (!writeOk ==> out == HttpFailure(500) && server.file == old(server.file)))
    {
      if filterId == "" {
        return Outcome(None, Some("No id filter provided"));
      }
      var response := server.Patch(table, filterId, updateData, now, writeOk);
      if !IsOk(response.status) {
        return HttpFailure(response.status);
      }
      out := Outcome(Some(Many([response.body.item])), None);
    }

    /** `single()`: the updated record, or `null` with the error. */
    method Single(server: Server, now: string, writeOk: bool) returns (out: Outcome)
      modifies server
      ensures server.disk == old(server.disk)
      ensures filterId == "" ==> out == Outcome(None, Some("No id filter provided")) && server.file == old(server.file)
      ensures filterId != "" ==>
                var before := ReadData(old(server.file));
                (table !in before ==> out == HttpFailure(404) && server.file == old(server.file)) &&
                (table in before && FirstWithId(before[table], filterId).None? ==>
                   out == HttpFailure(404) && server.file == old(server.file)) &&
                (table in before && FirstWithId(before[table], filterId).Some? ==>
                   var i := FirstWithId(before[table], filterId).value;
                   var updated := Merged(before[table][i], updateData, now);
                   (writeOk ==>
                      out == Outcome(Some(One(updated)), None) &&
                      server.file == Stored(before[table := before[table][i := updated]])) &&
                   (!writeOk ==> out == HttpFailure(500) && server.file == old(server.file)))
    {
      var result := Select(server, now, writeOk);
      if result.data.Some? && result.data.value.Many? && |result.data.value.items| > 0 {
        return Outcome(Some(One(result.data.value.items[0])), result.error);
      }
      out := Outcome(None, result.error);
    }
  }

  /** `from(table).delete()`. */
  class DeleteBuilder {
    const table: string

    constructor (table: string)
      ensures this.table == table
    {
      this.table := table;
    }

    /**
     * `eq(column, value)` sends the DELETE: a column other than `id` is an
     * error with no request; an empty id reaches no delete route and is
     * answered 404.
     */
    method Eq(server: Server, column: string, value: string, writeOk: bool) returns (out: Outcome)
      modifies server
      ensures server.disk == old(server.disk)
      ensures column != "id" ==>
                out == Outcome(None, Some("Only id filter supported for delete")) && server.file == old(server.file)
      ensures column == "id" && value == "" ==> out == HttpFailure(404) && server.file == old(server.file)
      ensures column == "id" && value != "" ==>
                var before := ReadData(old(server.file));
                (table !in before || FirstWithId(before[table], value).None? ==>
                   out == HttpFailure(404) && server.file == old(server.file)) &&
                (table in before && FirstWithId(before[table], value).Some? ==>
                   (writeOk ==>
                      out == Outcome(None, None) &&
                      server.file == Stored(before[table := RemoveAt(before[table], FirstWithId(before[table], value).value)])) &&
                   (!writeOk ==> out == HttpFailure(500) && server.file == old(server.file)))
    {
      if column != "id" {
        return Outcome(None, Some("Only id filter supported for delete"));
      }
      if value == "" {
        return HttpFailure(404);
      }
      var response := server.Delete(table, value, writeOk);
      if !IsOk(response.status) {
        return HttpFailure(response.status);
      }
      out := Outcome(None, None);
    }
  }

  /**
   * `rpc(name, params)`: `validate_shared_password` posts the password and
   * answers the verdict; any other name is an error without a request.
   */
  method Rpc(server: Server, functionName: string, inputPassword: Option<string>, writeOk: bool)
    returns (data: Option<bool>, error: Option<string>)
    modifies server
    ensures server.disk == old(server.disk)
    ensures functionName != "validate_shared_password" ==>
              data.None? && error == Some("Unknown function: " + functionName) && server.file == old(server.file)
    ensures functionName == "validate_shared_password" ==>
              var password := if inputPassword.Some? then Some(JStr(inputPassword.value)) else None;
              var tables := ReadData(old(server.file));
              ("app_config" !in tables ==> data.None? && error == Some("HTTP 500")) &&
              ("app_config" in tables ==>
                 data == Some(Validation(tables["app_config"], password).0) && error.None?)
  {
    if functionName != "validate_shared_password" {
      return None, Some("Unknown function: " + functionName);
    }
    var password := if inputPassword.Some? then Some(JStr(inputPassword.value)) else None;
    var response := server.ValidatePassword(password, writeOk);
    if !IsOk(response.status) {
      assert response.status == 500;
      return None, Some("HTTP 500");
    }
    data, error := Some(response.body.valid), None;
  }
}
