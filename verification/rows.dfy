/** Row assembly: how one fetched row becomes a name-to-value map. */
module Rows {
  import opened Values

  type Row = map<string, Node>

  /** The index of the last column called `name`. When a result set repeats a column name,
      this is the column whose value the row keeps. */
  function LastIndex(names: seq<string>, name: string): (i: nat)
    requires name in names
    ensures i < |names| && names[i] == name
    ensures forall j :: i < j < |names| ==> names[j] != name
  {
    if names[|names| - 1] == name then |names| - 1
    else LastIndex(names[..|names| - 1], name)
  }

  /** The row one fetch denotes, defined key by key: exactly the column names, each
      holding the value of its last column. */
  function FreshRow(names: seq<string>, values: seq<Node>): Row
    requires |names| == |values|
  {
    map n | n in names :: values[LastIndex(names, n)]
  }

  /** Writes every column into `parsed`, left to right, as the connection's inner loop does
      with the one dictionary it reuses for all rows. */
  function Assign(parsed: Row, names: seq<string>, values: seq<Node>): Row
    requires |names| == |values|
  {
    if |names| == 0 then parsed
    else Assign(parsed, names[..|names| - 1], values[..|values| - 1])[names[|names| - 1] := values[|values| - 1]]
  }

  /** Assigning the columns adds exactly the column names, gives each the value of its
      last column, and leaves every other key alone. */
  lemma {:induction false} AssignWritesLastColumn(parsed: Row, names: seq<string>, values: seq<Node>)
    requires |names| == |values|
    ensures Assign(parsed, names, values).Keys == parsed.Keys + (set n | n in names)
    ensures forall n :: n in names ==> Assign(parsed, names, values)[n] == values[LastIndex(names, n)]
    ensures forall n :: n in parsed && n !in names ==> Assign(parsed, names, values)[n] == parsed[n]
  {
    if |names| > 0 {
      var names', values' := names[..|names| - 1], values[..|values| - 1];
      AssignWritesLastColumn(parsed, names', values');
      var last := names[|names| - 1];
      assert names == names' + [last];
      forall n | n in names
        ensures Assign(parsed, names, values)[n] == values[LastIndex(names, n)]
      {
        if n != last {
          assert n in names';
          assert LastIndex(names, n) == LastIndex(names', n);
        }
      }
    }
  }

  /** Reusing one dictionary across rows is harmless: once it holds no key other than the
      column names, assigning a row's columns gives exactly the fresh row, so no value
      of an earlier fetch survives. */
  lemma ReusedRowIsFresh(parsed: Row, names: seq<string>, values: seq<Node>)
    requires |names| == |values|
    requires parsed.Keys <= set n | n in names
    ensures Assign(parsed, names, values) == FreshRow(names, values)
  {
    AssignWritesLastColumn(parsed, names, values);
  }
}
