/** The record writers of src/database/tableActions.ts: parameterised INSERT and UPDATE
    statements built from a record's keys, and the loops that send one statement per record.
    The database call is an oracle `exec`: given the record's index and the statement, it
    says whether the call failed (with the error's text) or what `rowsAffected` it returned. */
module TableActions {
  import opened Common
  import opened Text

  /** A JavaScript value as the writers see it. */
  datatype Value = Null | Undefined | Number(n: real) | Str(s: string) | Flag(b: bool)

  /** A record: its keys in enumeration order with their values. A JavaScript object's keys
      are distinct, but no contract here relies on it: with a repeated key, `Keys` and
      `Values` list every entry and `Lookup` finds the first. */
  type Record = seq<(string, Value)>

  /** A statement and its parameter values; value i is bound to the name `param` + i. */
  datatype Query = Query(text: string, values: seq<Value>)

  /** What the database call did: threw, or returned `rowsAffected` (possibly absent). */
  datatype Outcome = Failed(error: string) | Done(rowsAffected: Option<seq<int>>)

  datatype Result = Ok(message: string) | Err(error: string)

  /** What `updateTableRecords` was passed: an array of records or something else. */
  datatype Records = Array(items: seq<Record>) | NotArray

  /** The cleaning step of `insertTableRecords`: null and undefined become null, a number or
      anything `Number()` can read becomes that number, everything else is kept. (A boolean
      reads as 1 or 0.) */
  function Clean(v: Value): (r: Value)
    ensures v.Null? || v.Undefined? ==> r == Null
    ensures v.Number? ==> r == v
    ensures v.Flag? ==> r == Number(if v.b then 1.0 else 0.0)
    ensures v.Str? && NumericText(v.s).Some? ==> r == Number(NumericText(v.s).value)
    ensures v.Str? && NumericText(v.s).None? ==> r == v
  {
    match v
    case Null => Null
    case Undefined => Null
    case Number(n) => Number(n)
    case Flag(b) => Number(if b then 1.0 else 0.0)
    case Str(s) => if NumericText(s).Some? then Number(NumericText(s).value) else Str(s)
  }

  /** Cleaning twice is cleaning once, and a rendered count is cleaned to that count. */
  lemma CleanIdempotent(v: Value, n: nat)
    ensures Clean(Clean(v)) == Clean(v)
    ensures Clean(Str(NatToString(n))) == Number(n as real)
  {
    NumericTextOfNat(n);
  }

  /** The trade records' text fields ('closed', 'open', 'long', a strategy name) survive
      cleaning. */
  lemma CleanKeepsWords(s: string, i: nat)
    requires i < |s| && !IsDigit(s[i]) && s[i] != '.'
    ensures Clean(Str(s)) == Str(s)
  {
    NotNumericWithLetter(s, i);
  }

  function Keys(record: Record): (r: seq<string>)
    ensures |r| == |record| && forall i :: 0 <= i < |record| ==> r[i] == record[i].0
  {
    if |record| == 0 then [] else Keys(record[..|record| - 1]) + [record[|record| - 1].0]
  }

  /** `record[key]`: the value of the first entry with that key. */
  function Lookup(record: Record, key: string): Value {
    if |record| == 0 then Undefined
    else if record[0].0 == key then record[0].1
    else Lookup(record[1..], key)
  }

  /** A present key yields a value stored under it; an absent key yields undefined. */
  lemma {:induction false} LookupFindsKey(record: Record, key: string)
    ensures (exists i :: 0 <= i < |record| && record[i].0 == key) ==>
      exists i :: 0 <= i < |record| && record[i] == (key, Lookup(record, key))
    ensures (forall i :: 0 <= i < |record| ==> record[i].0 != key) ==> Lookup(record, key) == Undefined
  {
    if |record| > 0 && record[0].0 != key {
      LookupFindsKey(record[1..], key);
      if exists i :: 0 <= i < |record| && record[i].0 == key {
        var i :| 0 <= i < |record| && record[i].0 == key;
        assert record[1..][i - 1] == record[i];
        var j :| 0 <= j < |record[1..]| && record[1..][j] == (key, Lookup(record[1..], key));
        assert record[j + 1] == record[1..][j];
      }
      if forall i :: 0 <= i < |record| ==> record[i].0 != key {
        assert forall i :: 0 <= i < |record[1..]| ==> record[1..][i] == record[i + 1];
      }
    }
  }

  /** The parameter name of value i. */
  function Placeholder(i: nat): string {
    "@param" + NatToString(i)
  }

  /** Distinct values get distinct parameter names. */
  lemma PlaceholderInjective(i: nat, j: nat)
    ensures Placeholder(i) == Placeholder(j) ==> i == j
  {
    if Placeholder(i) == Placeholder(j) {
      assert NatToString(i) == Placeholder(i)[6..];
      assert NatToString(j) == Placeholder(j)[6..];
      NatToStringInjective(i, j);
    }
  }

  /** `@param0 … @param{k-1}`. */
  function Placeholders(k: nat): (r: seq<string>)
    ensures |r| == k && forall i :: 0 <= i < k ==> r[i] == Placeholder(i)
  {
    if k == 0 then [] else Placeholders(k - 1) + [Placeholder(k - 1)]
  }

  /** The record with every value cleaned, keys and order unchanged. */
  function CleanRecord(record: Record): (r: Record)
    ensures |r| == |record| && forall i :: 0 <= i < |record| ==> r[i] == (record[i].0, Clean(record[i].1))
  {
    if |record| == 0 then [] else CleanRecord(record[..|record| - 1]) + [(record[|record| - 1].0, Clean(record[|record| - 1].1))]
  }

  function Values(record: Record): (r: seq<Value>)
    ensures |r| == |record| && forall i :: 0 <= i < |record| ==> r[i] == record[i].1
  {
    if |record| == 0 then [] else Values(record[..|record| - 1]) + [record[|record| - 1].1]
  }

  /** The INSERT statement of one record. */
  function InsertQuery(table: string, record: Record): Query {
    var cleaned := CleanRecord(record);
    var columns := Keys(cleaned);
    Query("INSERT INTO " + table + " (" + Join(columns, ", ") + ") VALUES (" + Join(Placeholders(|columns|), ", ") + ")",
          Values(cleaned))
  }

  /** The INSERT lists as many placeholders as columns, and the parameter of column i,
      `@param` + i, is bound to that column's cleaned value. */
  lemma InsertBindsColumns(table: string, record: Record)
    ensures var q := InsertQuery(table, record);
      && |q.values| == |record| == |Placeholders(|Keys(CleanRecord(record))|)|
      && Keys(CleanRecord(record)) == Keys(record)
      && forall i :: 0 <= i < |record| ==> q.values[i] == Clean(record[i].1)
  {
  }

  /** The columns an UPDATE sets: every key but `ID`, in order. */
  function SetColumns(record: Record): (r: seq<string>)
    ensures forall c :: c in r ==> c != "ID"
    ensures forall i :: 0 <= i < |record| && record[i].0 != "ID" ==> record[i].0 in r
    ensures forall c :: c in r ==> c in Keys(record)
  {
    if |record| == 0 then []
    else if record[0].0 == "ID" then SetColumns(record[1..])
    else [record[0].0] + SetColumns(record[1..])
  }

  /** `filter` keeps the order of the keys: the SET columns of two records laid end to end are
      the columns of the first followed by those of the second. */
  lemma {:induction false} SetColumnsAppend(a: Record, b: Record)
    ensures SetColumns(a + b) == SetColumns(a) + SetColumns(b)
    decreases |a|
  {
    if |a| == 0 {
      assert a + b == b;
    } else {
      assert (a + b)[0] == a[0] && (a + b)[1..] == a[1..] + b;
      SetColumnsAppend(a[1..], b);
    }
  }

  /** A record without an ID key has all its keys as SET columns, in key order. */
  lemma {:induction false} SetColumnsWithoutId(record: Record)
    requires forall i :: 0 <= i < |record| ==> record[i].0 != "ID"
    ensures SetColumns(record) == Keys(record)
    decreases |record|
  {
    if |record| > 0 {
      SetColumnsWithoutId(record[1..]);
      assert Keys(record) == [record[0].0] + Keys(record[1..]);
    }
  }

  function SetClauses(columns: seq<string>): (r: seq<string>)
    ensures |r| == |columns| && forall i :: 0 <= i < |columns| ==> r[i] == columns[i] + " = " + Placeholder(i)
  {
    if |columns| == 0 then [] else SetClauses(columns[..|columns| - 1]) + [columns[|columns| - 1] + " = " + Placeholder(|columns| - 1)]
  }

  /** The UPDATE statement of one record. The values are not cleaned. */
  function UpdateQuery(table: string, record: Record): Query {
    var columns := SetColumns(record);
    Query("UPDATE " + table + " SET " + Join(SetClauses(columns), ", ") + " WHERE ID = " + Placeholder(|columns|),
          seq(|columns|, i requires 0 <= i < |columns| => Lookup(record, columns[i])) + [Lookup(record, "ID")])
  }

  /** With k non-ID columns the UPDATE binds k + 1 values: column i's value to `@param` + i
      and the ID last, to `@param` + k, a name no SET clause uses. */
  lemma UpdateBindsColumns(table: string, record: Record)
    ensures var q := UpdateQuery(table, record);
      var k := |SetColumns(record)|;
      && |q.values| == k + 1
      && q.values[k] == Lookup(record, "ID")
      && (forall i :: 0 <= i < k ==> q.values[i] == Lookup(record, SetColumns(record)[i]))
      && (forall i :: 0 <= i < k ==> Placeholder(i) != Placeholder(k))
  {
    var k := |SetColumns(record)|;
    forall i | 0 <= i < k
      ensures Placeholder(i) != Placeholder(k)
    {
      PlaceholderInjective(i, k);
    }
  }

  /** JavaScript truthiness of a value. */
  predicate TruthyValue(v: Value) {
    match v
    case Null => false
    case Undefined => false
    case Number(n) => n != 0.0
    case Str(s) => s != ""
    case Flag(b) => b
  }

  /** `!record.ID`: the record is skipped. */
  predicate Skipped(record: Record) {
    !TruthyValue(Lookup(record, "ID"))
  }

  /** `updateResult.rowsAffected?.[0] > 0`; an absent array or first entry compares false. */
  predicate Counted(o: Outcome) {
    o.Done? && o.rowsAffected.Some? && |o.rowsAffected.value| > 0 && o.rowsAffected.value[0] > 0
  }

  // ---------------------------------------------------------------- the record loops

  /** The statement each record gets, in record order; `None` for a record the loop skips. */
  type Plan = seq<Option<Query>>

  /** `insertTableRecords` gives every record its INSERT. */
  function InsertPlan(table: string, records: seq<Record>): (r: Plan)
    ensures |r| == |records| && forall i :: 0 <= i < |records| ==> r[i] == Some(InsertQuery(table, records[i]))
  {
    seq(|records|, i requires 0 <= i < |records| => Some(InsertQuery(table, records[i])))
  }

  /** `updateTableRecords` gives every record with a truthy ID its UPDATE and skips the rest. */
  function UpdatePlan(table: string, records: seq<Record>): (r: Plan)
    ensures |r| == |records|
    ensures forall i :: 0 <= i < |records| ==> (r[i].None? <==> Skipped(records[i]))
    ensures forall i :: 0 <= i < |records| && r[i].Some? ==> r[i].value == UpdateQuery(table, records[i])
  {
    seq(|records|, i requires 0 <= i < |records| => if Skipped(records[i]) then None else Some(UpdateQuery(table, records[i])))
  }

  /** The index of the first statement from `from` on whose call fails, or |plan|. */
  function FirstFailure(plan: Plan, exec: (nat, Query) -> Outcome, from: nat): (k: nat)
    requires from <= |plan|
    ensures from <= k <= |plan|
    ensures forall i :: from <= i < k && plan[i].Some? ==> exec(i, plan[i].value).Done?
    ensures k < |plan| ==> plan[k].Some? && exec(k, plan[k].value).Failed?
    decreases |plan| - from
  {
    if from == |plan| then from
    else if plan[from].Some? && exec(from, plan[from].value).Failed? then from
    else FirstFailure(plan, exec, from + 1)
  }

  /** The statements issued for the first n records, each with its record's index: in record
      order, and only the planned ones. */
  function Sent(plan: Plan, n: nat): (r: seq<(nat, Query)>)
    requires n <= |plan|
    ensures |r| <= n
    ensures forall j :: 0 <= j < |r| ==> r[j].0 < n && plan[r[j].0] == Some(r[j].1)
    ensures forall j, j' :: 0 <= j < j' < |r| ==> r[j].0 < r[j'].0
  {
    if n == 0 then []
    else if plan[n - 1].None? then Sent(plan, n - 1)
    else Sent(plan, n - 1) + [(n - 1, plan[n - 1].value)]
  }

  /** When every one of the first n records is planned, each of them is sent, in order. */
  lemma {:induction false} SentAll(plan: Plan, n: nat)
    requires n <= |plan| && forall i :: 0 <= i < n ==> plan[i].Some?
    ensures |Sent(plan, n)| == n && forall j :: 0 <= j < n ==> Sent(plan, n)[j] == (j, plan[j].value)
  {
    if n > 0 {
      SentAll(plan, n - 1);
    }
  }

  /** `insertTableRecords`: one INSERT per record, in order; the first failure is rethrown
      wrapped, and no later record is attempted. `sent` is the statements issued. */
  method InsertTableRecords(table: string, records: seq<Record>, exec: (nat, Query) -> Outcome)
    returns (r: Result, sent: seq<(nat, Query)>)
    ensures var plan := InsertPlan(table, records);
      var k := FirstFailure(plan, exec, 0);
      && sent == Sent(plan, if k < |records| then k + 1 else k)
      && (k == |records| ==> r == Ok(NatToString(|records|) + " records inserted successfully"))
      && (k < |records| ==> r == Err("Error inserting records: " + exec(k, InsertQuery(table, records[k])).error))
  {
    ghost var plan := InsertPlan(table, records);
    var recordCount := |records|;
    sent := [];
    var i := 0;
    while i < |records|
      invariant 0 <= i <= |records|
      invariant FirstFailure(plan, exec, 0) == FirstFailure(plan, exec, i)
      invariant sent == Sent(plan, i)
    {
      var query := InsertQuery(table, records[i]);
      assert plan[i] == Some(query);
      var outcome := exec(i, query);
      sent := sent + [(i, query)];
      if outcome.Failed? {
        return Err("Error inserting records: " + outcome.error), sent;
      }
      i := i + 1;
    }
    r := Ok(NatToString(recordCount) + " records inserted successfully");
  }

  /** A run of inserts that all succeed sends every record's INSERT, in record order. */
  lemma InsertsAllSent(table: string, records: seq<Record>, exec: (nat, Query) -> Outcome)
    requires FirstFailure(InsertPlan(table, records), exec, 0) == |records|
    ensures var sent := Sent(InsertPlan(table, records), |records|);
      |sent| == |records| && forall j :: 0 <= j < |records| ==> sent[j] == (j, InsertQuery(table, records[j]))
  {
    SentAll(InsertPlan(table, records), |records|);
  }

  /** `updatedCount` after the first n records: the sent updates that affected a row. */
  function UpdatedCount(plan: Plan, exec: (nat, Query) -> Outcome, n: nat): (c: nat)
    requires n <= |plan|
    ensures c <= n
  {
    if n == 0 then 0
    else UpdatedCount(plan, exec, n - 1) + (if plan[n - 1].Some? && Counted(exec(n - 1, plan[n - 1].value)) then 1 else 0)
  }

  /** `updateTableRecords`. A non-array is refused with a wrapped error; otherwise each
      record with a truthy ID gets one UPDATE, a failing call aborts with a wrapped error,
      and the message reports how many updates affected a row out of all records. */
  method UpdateTableRecords(table: string, records: Records, exec: (nat, Query) -> Outcome)
    returns (r: Result, sent: seq<(nat, Query)>)
    ensures records.NotArray? ==> r == Err("Error updating records: Error: Records must be an array") && sent == []
    ensures records.Array? ==>
      var items := records.items;
      var plan := UpdatePlan(table, items);
      var k := FirstFailure(plan, exec, 0);
      && (k == |items| ==> sent == Sent(plan, |items|))
      && (k == |items| ==> r == Ok(NatToString(UpdatedCount(plan, exec, |items|)) + " of " + NatToString(|items|) + " records updated successfully"))
      && (k < |items| ==> sent == Sent(plan, k + 1))
      && (k < |items| ==> r == Err("Error updating records: " + exec(k, UpdateQuery(table, items[k])).error))
  {
    if records.NotArray? {
      return Err("Error updating records: Error: Records must be an array"), [];
    }
    var items := records.items;
    ghost var plan := UpdatePlan(table, items);
    var updatedCount := 0;
    sent := [];
    var i := 0;
    while i < |items|
      invariant 0 <= i <= |items|
      invariant FirstFailure(plan, exec, 0) == FirstFailure(plan, exec, i)
      invariant sent == Sent(plan, i)
      invariant updatedCount == UpdatedCount(plan, exec, i)
    {
      var record := items[i];
      if Skipped(record) {
        assert plan[i].None?;
        i := i + 1;
        continue;
      }
      var query := UpdateQuery(table, record);
      assert plan[i] == Some(query);
      var updateResult := exec(i, query);
      sent := sent + [(i, query)];
      if updateResult.Failed? {
        return Err("Error updating records: " + updateResult.error), sent;
      }
      if Counted(updateResult) {
        updatedCount := updatedCount + 1;
      }
      i := i + 1;
    }
    r := Ok(NatToString(updatedCount) + " of " + NatToString(|items|) + " records updated successfully");
  }

  /** When every record is planned and every call affects a row, all of them are counted. */
  lemma {:induction false} UpdatedCountBounds(plan: Plan, exec: (nat, Query) -> Outcome, n: nat)
    requires n <= |plan|
    requires forall i :: 0 <= i < n ==> plan[i].Some? && Counted(exec(i, plan[i].value))
    ensures UpdatedCount(plan, exec, n) == n
  {
    if n > 0 {
      UpdatedCountBounds(plan, exec, n - 1);
    }
  }

  /** Only statements that were sent can be counted: the count is at most the number of
      UPDATEs sent. */
  lemma {:induction false} CountedAmongSent(plan: Plan, exec: (nat, Query) -> Outcome, n: nat)
    requires n <= |plan|
    ensures UpdatedCount(plan, exec, n) <= |Sent(plan, n)|
  {
    if n > 0 {
      CountedAmongSent(plan, exec, n - 1);
    }
  }
}
