/** Turning the "results" array of a reply into a table. */
module Shaping {
  import opened JsonValues

  /** The sibling fields candidate search copies next to the nested candidate. */
  const MetaFields: set<string> := {"committee", "state", "district"}

  predicate AllObjects(items: seq<Json>) {
    forall i :: 0 <= i < |items| ==> items[i].JObj?
  }

  /** pd.DataFrame(results) for an array of objects: one row per object, in order. */
  function RecordsOf(items: seq<Json>): Table
    requires AllObjects(items)
  {
    seq(|items|, i requires 0 <= i < |items| => items[i].fields)
  }

  /** A candidate-search entry that flattening can read without a KeyError. */
  predicate IsCandidateEntry(entry: Json) {
    && entry.JObj?
    && "committee" in entry.fields && "state" in entry.fields && "district" in entry.fields
    && "candidate" in entry.fields && entry.fields["candidate"].JObj?
  }

  /**
   * dict(meta_info.items() + candidate['candidate'].items()): the three
   * sibling fields and the nested candidate's fields in one record; a later
   * item overwrites an earlier one, so the nested fields win.
   */
  function FlattenEntry(entry: Json): (r: Record)
    requires IsCandidateEntry(entry)
    ensures r.Keys == MetaFields + entry.fields["candidate"].fields.Keys
    ensures forall k :: k in entry.fields["candidate"].fields ==> r[k] == entry.fields["candidate"].fields[k]
    ensures forall k :: k in MetaFields && k !in entry.fields["candidate"].fields ==> r[k] == entry.fields[k]
  {
    var meta := map["committee" := entry.fields["committee"],
                    "state" := entry.fields["state"],
                    "district" := entry.fields["district"]];
    meta + entry.fields["candidate"].fields
  }

  function FlattenAll(results: seq<Json>): Table
    requires forall i :: 0 <= i < |results| ==> IsCandidateEntry(results[i])
  {
    seq(|results|, i requires 0 <= i < |results| => FlattenEntry(results[i]))
  }

  /** The loop of candidate_search: one flattened record per entry, in the entries' order. */
  method FlattenCandidates(results: seq<Json>) returns (candidates: Table)
    requires forall i :: 0 <= i < |results| ==> IsCandidateEntry(results[i])
    ensures |candidates| == |results|
    ensures forall i :: 0 <= i < |results| ==> candidates[i] == FlattenEntry(results[i])
  {
    candidates := [];
    for i := 0 to |results|
      invariant |candidates| == i
      invariant forall j :: 0 <= j < i ==> candidates[j] == FlattenEntry(results[j])
    {
      candidates := candidates + [FlattenEntry(results[i])];
    }
  }

  /** DataFrame.drop(column, 1): every row loses the column and keeps everything else. */
  function DropColumn(table: Table, column: string): (r: Table)
    ensures |r| == |table|
    ensures forall i :: 0 <= i < |table| ==> r[i].Keys == table[i].Keys - {column}
    ensures forall i, k :: 0 <= i < |table| && k in r[i] ==> r[i][k] == table[i][k]
  {
    seq(|table|, i requires 0 <= i < |table| => table[i] - {column})
  }

  /** Tables appended one after another, as the batch methods' DataFrame.append does. */
  function Concat(tables: seq<Table>): Table
    decreases |tables|
  {
    if tables == [] then [] else Concat(tables[..|tables| - 1]) + tables[|tables| - 1]
  }

  /** One more table appended to a batch. */
  lemma ConcatSnoc(tables: seq<Table>, table: Table)
    ensures Concat(tables + [table]) == Concat(tables) + table
  {
    assert (tables + [table])[..|tables|] == tables;
  }

  /** Appending is associative over a whole batch: splitting the batch splits the result. */
  lemma {:induction false} ConcatAppend(xs: seq<Table>, ys: seq<Table>)
    ensures Concat(xs + ys) == Concat(xs) + Concat(ys)
    decreases |ys|
  {
    if ys == [] {
      assert xs + ys == xs;
    } else {
      var init := ys[..|ys| - 1];
      ConcatAppend(xs, init);
      assert (xs + ys)[..|xs + ys| - 1] == xs + init;
      assert (xs + ys)[|xs + ys| - 1] == ys[|ys| - 1];
    }
  }

  /** An empty table in a batch contributes nothing and the tables after it still follow. */
  lemma ConcatSkipsEmpty(tables: seq<Table>, k: nat)
    requires k < |tables| && tables[k] == []
    ensures Concat(tables) == Concat(tables[..k]) + Concat(tables[k + 1..])
  {
    var before, failed, after := tables[..k], [tables[k]], tables[k + 1..];
    assert tables[k..] == failed + after by {
      assert |tables[k..]| == |failed + after|;
      forall i | 0 <= i < |tables[k..]| ensures tables[k..][i] == (failed + after)[i] {
      }
    }
    assert tables == before + tables[k..];
    assert Concat(failed) == [] by {
      assert failed[..0] == [];
    }
    ConcatAppend(failed, after);
    ConcatAppend(before, failed + after);
  }

  /** The tables of the first n items of a batch, each made by table, in order. */
  function Tables<X>(table: X --> Table, xs: seq<X>, n: nat): (ts: seq<Table>)
    requires n <= |xs| && forall i :: 0 <= i < |xs| ==> table.requires(xs[i])
    ensures |ts| == n
    decreases n
  {
    if n == 0 then [] else Tables(table, xs, n - 1) + [table(xs[n - 1])]
  }

  /** The k-th table of a batch is the table of the k-th item. */
  lemma {:induction false} TablesAt<X>(table: X --> Table, xs: seq<X>, n: nat, k: nat)
    requires n <= |xs| && forall i :: 0 <= i < |xs| ==> table.requires(xs[i])
    requires k < n
    ensures Tables(table, xs, n)[k] == table(xs[k])
    decreases n
  {
    if k < n - 1 {
      TablesAt(table, xs, n - 1, k);
    }
  }

  /**
   * An item whose table is empty adds no rows, and the items after it are
   * still processed: the batch is the rows before it followed by the batch
   * of the rest.
   */
  lemma TablesSkipEmpty<X>(table: X --> Table, xs: seq<X>, k: nat)
    requires forall i :: 0 <= i < |xs| ==> table.requires(xs[i])
    requires k < |xs| && table(xs[k]) == []
    ensures Concat(Tables(table, xs, |xs|))
         == Concat(Tables(table, xs, k)) + Concat(Tables(table, xs[k + 1..], |xs| - k - 1))
  {
    var ts, rest := Tables(table, xs, |xs|), xs[k + 1..];
    TablesAt(table, xs, |xs|, k);
    ConcatSkipsEmpty(ts, k);
    forall j | 0 <= j < k ensures ts[..k][j] == Tables(table, xs, k)[j] {
      TablesAt(table, xs, |xs|, j);
      TablesAt(table, xs, k, j);
    }
    assert ts[..k] == Tables(table, xs, k);
    forall j | 0 <= j < |rest| ensures ts[k + 1..][j] == Tables(table, rest, |rest|)[j] {
      TablesAt(table, xs, |xs|, k + 1 + j);
      TablesAt(table, rest, |rest|, j);
    }
    assert ts[k + 1..] == Tables(table, rest, |rest|);
  }

  /** A batch of two is the first item's table followed by the second's. */
  lemma TablesOfTwo<X>(table: X --> Table, a: X, b: X)
    requires table.requires(a) && table.requires(b)
    ensures Concat(Tables(table, [a, b], 2)) == table(a) + table(b)
  {
    var xs, ta, tb := [a, b], table(a), table(b);
    assert Tables(table, xs, 1) == [ta] by {
      assert Tables(table, xs, 0) == [];
    }
    assert Tables(table, xs, 2) == [ta] + [tb];
    assert Concat([ta]) == ta by {
      ConcatSnoc([], ta);
      assert [] + [ta] == [ta];
    }
    ConcatSnoc([ta], tb);
  }

  /** The candidate-search example: sibling fields and nested fields side by side. */
  lemma FlattenExample()
    ensures var entry := JObj(map["committee" := JStr("C1"), "state" := JStr("NY"), "district" := JStr("5"),
                                  "candidate" := JObj(map["name" := JStr("Smith"), "party" := JStr("X")])]);
            && IsCandidateEntry(entry)
            && FlattenEntry(entry) == map["committee" := JStr("C1"), "state" := JStr("NY"), "district" := JStr("5"),
                                          "name" := JStr("Smith"), "party" := JStr("X")]
  {
  }

  /** The committee-details example: other_cycles goes, id stays. */
  lemma DropColumnExample()
    ensures DropColumn([map["id" := JStr("C001"), "other_cycles" := JArr([JNum(2012), JNum(2014)])]], "other_cycles")
         == [map["id" := JStr("C001")]]
  {
    var row := map["id" := JStr("C001"), "other_cycles" := JArr([JNum(2012), JNum(2014)])];
    assert row - {"other_cycles"} == map["id" := JStr("C001")];
  }
}
