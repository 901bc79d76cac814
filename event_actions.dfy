/** The table of named event actions and `cfg_get_evtact`, its lookup by
    name (cfg.c lines 68-79). The table's contents live outside cfg.c, so
    every operation takes it as a parameter. */
module EventActions {

  /** One named action: while it is asserted, the register selected by
      `word` becomes `(register & andMask) | orMask`. */
  datatype EventAction = EventAction(name: string, word: nat, andMask: bv32, orMask: bv32)

  /** First index whose name is `name`, or -1: the specification of the
      search loop. */
  function ActionIndex(table: seq<EventAction>, name: string): (r: int)
    ensures -1 <= r < |table|
    ensures r >= 0 ==> table[r].name == name
    ensures r >= 0 ==> forall k :: 0 <= k < r ==> table[k].name != name
    ensures r == -1 <==> forall k :: 0 <= k < |table| ==> table[k].name != name
  {
    if table == [] then -1
    else if table[0].name == name then 0
    else
      var r := ActionIndex(table[1..], name);
      if r < 0 then -1 else r + 1
  }

  /** `cfg_get_evtact`: a linear scan with an early return on the first
      match. */
  method GetEvtAct(table: seq<EventAction>, name: string) returns (i: int)
    ensures i == ActionIndex(table, name)
    ensures -1 <= i < |table|
    ensures i >= 0 ==> table[i].name == name && forall k :: 0 <= k < i ==> table[k].name != name
    ensures i == -1 <==> forall k :: 0 <= k < |table| ==> table[k].name != name
  {
    i := 0;
    while i < |table|
      invariant 0 <= i <= |table|
      invariant forall k :: 0 <= k < i ==> table[k].name != name
    {
      if table[i].name == name {
        return;
      }
      i := i + 1;
    }
    return -1;
  }
}
