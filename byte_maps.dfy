/**
 The byte-map tables: fixed, ordered lists of protocol tokens searched linearly by name.
 A failed lookup yields -1 and every setter then falls back to the table's first entry.
 */
module ByteMaps {
  import opened Values

  /**
   The tables the core reads. Their contents live in a header outside this model, so they
   are configuration here; `WellFormed` fixes the lengths that the lookups pass.
   */
  datatype Tables = Tables(
    mode: seq<string>,
    power: seq<string>,
    fan: seq<string>,
    vane: seq<string>,
    wideVane: seq<string>,
    airflowControl: seq<string>,
    stage: seq<string>)

  predicate WellFormed(t: Tables)
  {
    |t.mode| == 5 && |t.power| == 2 && |t.fan| == 6 && |t.vane| == 7 &&
    |t.wideVane| == 8 && |t.airflowControl| == 3 && |t.stage| > 0
  }

  /** Linear search: the index of the first entry equal to `name`, or -1 when there is none. */
  function LookupIndex(table: seq<string>, name: string): (r: int)
    ensures -1 <= r < |table|
    ensures r == -1 <==> name !in table
    ensures 0 <= r ==> table[r] == name
    ensures forall j :: 0 <= j < r ==> table[j] != name
  {
    if |table| == 0 then -1
    else if table[0] == name then 0
    else
      var k := LookupIndex(table[1..], name);
      if k == -1 then -1 else k + 1
  }

  /**
   `lookupByteMapIndex`: scans the table from the front and returns the index of the first
   entry equal to `name`, or -1 after the last entry.
   */
  method LookupByteMapIndex(table: seq<string>, name: string) returns (index: int)
    ensures index == LookupIndex(table, name)
  {
    var i := 0;
    while i < |table|
      invariant 0 <= i <= |table|
      invariant forall j :: 0 <= j < i ==> table[j] != name
    {
      if table[i] == name {
        return i;
      }
      i := i + 1;
    }
    return -1;
  }

  /**
   The token a `set*Setting` helper stores for `name`: the matching entry, or entry 0 when
   the lookup fails. The result is always a token of the table.
   */
  function Setting(table: seq<string>, name: string): (r: string)
    requires |table| > 0
    ensures r in table
    ensures name in table ==> r == name
    ensures name !in table ==> r == table[0]
  {
    var index := LookupIndex(table, name);
    if index > -1 then table[index] else table[0]
  }

  /** A staged token is either not yet set or one of the table's tokens. */
  predicate TokenOf(token: Option<string>, table: seq<string>)
  {
    token.None? || token.value in table
  }
}
