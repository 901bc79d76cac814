/** `cfg_setbind` (cfg.c lines 84-288): the compiled-in default key bindings
    are handed to the event subsystem, then an optional keyboard-hack file
    overlays its own bindings, combos, combo delay and map changes.

    The event subsystem (`event_map`, `event_combine`) is not part of this
    model: the `Event` object records every call made to it, and whether
    `event_combine` accepts a combo is a fixed function of the calls made
    before it. */
module KeyBindings {
  import opened Options
  import opened Text
  import opened EventActions
  import opened LineTokenizer
  import opened Seqs
  import opened FileLines

  /** One call into the event subsystem. */
  datatype EventCall =
    | MapKey(key: string, space: int, word: nat, andMask: bv32, orMask: bv32)
    | CombineKeys(first: string, second: string, id: int)

  /** The event object: the calls made to it so far and its combo window
      (`coalesce_time`, seconds). `combineOk(calls, a, b, id)` says whether
      `event_combine` succeeds after `calls`. */
  class Event {
    var calls: seq<EventCall>
    var coalesceTime: real
    const combineOk: (seq<EventCall>, string, string, int) -> bool

    constructor (combineOk: (seq<EventCall>, string, string, int) -> bool, coalesceTime: real)
      ensures this.combineOk == combineOk
      ensures calls == [] && this.coalesceTime == coalesceTime
    {
      this.combineOk := combineOk;
      this.calls := [];
      this.coalesceTime := coalesceTime;
    }

    /** `event_map`: bind `key` in event space `space` to an action. */
    method Map(key: string, space: int, word: nat, andMask: bv32, orMask: bv32)
      modifies this
      ensures calls == old(calls) + [MapKey(key, space, word, andMask, orMask)]
      ensures coalesceTime == old(coalesceTime)
    {
      calls := calls + [MapKey(key, space, word, andMask, orMask)];
    }

    /** `event_combine`: returns true when the combo was refused (the
        source's nonzero return). */
    method Combine(first: string, second: string, id: int) returns (refused: bool)
      modifies this
      ensures refused == !combineOk(old(calls), first, second, id)
      ensures calls == old(calls) + [CombineKeys(first, second, id)]
      ensures coalesceTime == old(coalesceTime)
    {
      refused := !combineOk(calls, first, second, id);
      calls := calls + [CombineKeys(first, second, id)];
    }
  }

  // ---------------------------------------------------------------------
  //  Default bindings
  // ---------------------------------------------------------------------

  /** The action names of the four event maps of one key; `None` is a null
      entry. */
  type Slots = s: seq<Option<string>> | |s| == 4 witness [None, None, None, None]

  /** One row of the default binding table (the rows before the row with a
      null key). */
  datatype KeyBinding = KeyBinding(key: string, slots: Slots)

  /** What slot `j` of key `key` contributes: nothing for a null or empty
      entry or an unknown action name, else one `event_map` call for map
      `j`. */
  function SlotCalls(table: seq<EventAction>, key: string, j: nat, slot: Option<string>): seq<EventCall> {
    match slot
    case None => []
    case Some(name) =>
      if name == [] then []
      else
        var a := ActionIndex(table, name);
        if a < 0 then []
        else [MapKey(key, j, table[a].word, table[a].andMask, table[a].orMask)]
  }

  /** The calls for slots `0 .. j-1` of one row. */
  function RowCalls(table: seq<EventAction>, row: KeyBinding, j: nat): seq<EventCall>
    requires j <= 4
  {
    if j == 0 then []
    else RowCalls(table, row, j - 1) + SlotCalls(table, row.key, j - 1, row.slots[j - 1])
  }

  /** The calls of the whole default table, row by row. */
  function SeedCalls(table: seq<EventAction>, rows: seq<KeyBinding>): seq<EventCall> {
    if rows == [] then []
    else SeedCalls(table, rows[..|rows| - 1]) + RowCalls(table, rows[|rows| - 1], 4)
  }

  /** The outer loop over the rows of the default table at the start of
      `cfg_setbind`. */
  method Seed(ev: Event, table: seq<EventAction>, rows: seq<KeyBinding>)
    modifies ev
    ensures ev.calls == old(ev.calls) + SeedCalls(table, rows)
    ensures ev.coalesceTime == old(ev.coalesceTime)
  {
    var i := 0;
    while i < |rows|
      invariant 0 <= i <= |rows|
      invariant ev.calls == old(ev.calls) + SeedCalls(table, rows[..i])
      invariant ev.coalesceTime == old(ev.coalesceTime)
    {
      SeedRow(ev, table, rows[i]);
      assert rows[..i + 1][..i] == rows[..i];
      assert SeedCalls(table, rows[..i + 1]) == SeedCalls(table, rows[..i]) + RowCalls(table, rows[i], 4);
      ConcatAssoc(old(ev.calls), SeedCalls(table, rows[..i]), RowCalls(table, rows[i], 4));
      i := i + 1;
    }
    assert rows[..|rows|] == rows;
  }

  /** The inner loop over the four slots of one row. */
  method SeedRow(ev: Event, table: seq<EventAction>, row: KeyBinding)
    modifies ev
    ensures ev.calls == old(ev.calls) + RowCalls(table, row, 4)
    ensures ev.coalesceTime == old(ev.coalesceTime)
  {
    var j := 0;
    while j < 4
      invariant 0 <= j <= 4
      invariant ev.calls == old(ev.calls) + RowCalls(table, row, j)
      invariant ev.coalesceTime == old(ev.coalesceTime)
    {
      var slot := row.slots[j];
      if slot.Some? && slot.value != [] {
        var action := GetEvtAct(table, slot.value);
        if action >= 0 {
          ev.Map(row.key, j, table[action].word, table[action].andMask, table[action].orMask);
        }
      }
      j := j + 1;
    }
  }

  // ---------------------------------------------------------------------
  //  The keyboard-hack file
  // ---------------------------------------------------------------------

  /** Why a line of the keyboard-hack file made `cfg_setbind` fail. */
  datatype FailReason =
    | ArgTooLong(field: int)   // a field filled its 255-character buffer
    | ComboOutOfRange          // ADD_COMBO number outside 0..31
    | ComboRefused             // event_combine returned nonzero
    | TooManyArgs              // a third or fourth field, or text after them
    | DelayOutOfRange          // COMBO_DELAY outside [0, 100] ms
    | MapOutOfRange            // MAP number outside 0..3
    | UnknownCommand           // a single word that is not a command
    | UnknownAction            // `key action` with an unknown action name

  /** What the file loop carries from line to line: the current event map,
      the calls made so far and the combo window. */
  datatype BindState = BindState(space: int, calls: seq<EventCall>, coalesce: real)

  /** The outcome of one line, or of a run of lines: go on with a new state,
      or stop with the reason, the calls made and the combo window. */
  datatype Progress =
    | Continue(state: BindState)
    | Halt(why: FailReason, calls: seq<EventCall>, coalesce: real)

  /** What the file loop depends on besides the file: the action table,
      `atof`, and the event object's combo acceptance. */
  datatype Env = Env(
    table: seq<EventAction>,
    atof: string -> real,
    combineOk: (seq<EventCall>, string, string, int) -> bool)

  /** The decision `cfg_setbind` makes for one line of the file, in the
      source's order of checks. */
  function Step(env: Env, line: string, st: BindState): Progress {
    Decide(env, Tokenize(line), st)
  }

  /** A `COMBO_DELAY` value, given in milliseconds, as the event object's
      combo window in seconds. */
  function Seconds(ms: real): real {
    ms / 1000.0
  }

  /** The checks of `Step` on the fields of a line. */
  function Decide(env: Env, t: Tokens, st: BindState): Progress {
    if t.bad != 0 then Halt(ArgTooLong(t.bad), st.calls, st.coalesce)
    else if !t.tooMany && EqualsIgnoreCase(t.cmd, "add_combo") then
      var id := Atoi(t.arg);
      if id > 31 || id < 0 then Halt(ComboOutOfRange, st.calls, st.coalesce)
      else
        var calls := st.calls + [CombineKeys(t.arg2, t.arg3, id)];
        if !env.combineOk(st.calls, t.arg2, t.arg3, id) then Halt(ComboRefused, calls, st.coalesce)
        else Continue(st.(calls := calls))
    else if t.arg2 != [] || t.arg3 != [] || t.tooMany then Halt(TooManyArgs, st.calls, st.coalesce)
    else if EqualsIgnoreCase(t.cmd, "combo_delay") then
      var ms := env.atof(t.arg);
      if ms < 0.0 || ms > 100.0 then Halt(DelayOutOfRange, st.calls, st.coalesce)
      else Continue(st.(coalesce := Seconds(ms)))
    else if EqualsIgnoreCase(t.cmd, "map") then
      var m := Atoi(t.arg);
      if m < 0 || m > 3 then Halt(MapOutOfRange, st.calls, st.coalesce)
      else Continue(st.(space := m))
    else if t.cmd == [] || t.arg == [] then
      if t.cmd != [] then Halt(UnknownCommand, st.calls, st.coalesce) else Continue(st)
    else
      var a := ActionIndex(env.table, t.arg);
      if a < 0 then Halt(UnknownAction, st.calls, st.coalesce)
      else Continue(st.(calls := st.calls + [MapKey(t.cmd, st.space, env.table[a].word, env.table[a].andMask, env.table[a].orMask)]))
  }

  /** The lines applied in order until one of them fails. */
  function Overlay(env: Env, lines: seq<string>, st: BindState): Progress {
    if lines == [] then Continue(st)
    else
      match Step(env, lines[0], st)
      case Continue(next) => Overlay(env, lines[1..], next)
      case Halt(why, calls, coalesce) => Halt(why, calls, coalesce)
  }

  /** The keyboard-hack file argument: none given, a name that cannot be
      opened, or the text of the file, which the loop reads piece by piece
      with `lzoe_fgets`. */
  datatype KbdFile = NoFile | Unopenable | Contents(text: string)

  /** How `cfg_setbind` ends: returns 0, returns -1, or exits the program
      with status 1. */
  datatype Status = Ok | Failed(why: FailReason) | Exited

  /** The outcome of `cfg_setbind`: its status, the calls made to the event
      object and its combo window afterwards. */
  datatype SetBindResult = SetBindResult(status: Status, calls: seq<EventCall>, coalesce: real)

  function SetBindSpec(env: Env, rows: seq<KeyBinding>, file: KbdFile, calls: seq<EventCall>, coalesce: real): SetBindResult {
    var seeded := calls + SeedCalls(env.table, rows);
    match file
    case NoFile => SetBindResult(Ok, seeded, coalesce)
    case Unopenable => SetBindResult(Exited, seeded, coalesce)
    case Contents(text) => Outcome(Overlay(env, Pieces(text), BindState(0, seeded, coalesce)))
  }

  /** The file loop's outcome as `cfg_setbind` reports it. */
  function Outcome(p: Progress): SetBindResult {
    match p
    case Continue(st) => SetBindResult(Ok, st.calls, st.coalesce)
    case Halt(why, calls, coalesce) => SetBindResult(Failed(why), calls, coalesce)
  }

  /** The body of the file loop for one line, as the source writes it.
      `why` is `None` when the loop goes on with map `space'`. */
  method ApplyLine(ev: Event, table: seq<EventAction>, atof: string -> real, line: string, space: int)
    returns (why: Option<FailReason>, space': int)
    modifies ev
    ensures var before := BindState(space, old(ev.calls), old(ev.coalesceTime));
      Step(Env(table, atof, ev.combineOk), line, before) ==
        if why.None? then Continue(BindState(space', ev.calls, ev.coalesceTime))
        else Halt(why.value, ev.calls, ev.coalesceTime)
  {
    var t := SplitLine(line);
    why, space' := ApplyFields(ev, table, atof, t, space);
  }

  /** The checks of the file loop on the fields of one line. */
  method ApplyFields(ev: Event, table: seq<EventAction>, atof: string -> real, t: Tokens, space: int)
    returns (why: Option<FailReason>, space': int)
    modifies ev
    ensures var before := BindState(space, old(ev.calls), old(ev.coalesceTime));
      Decide(Env(table, atof, ev.combineOk), t, before) ==
        if why.None? then Continue(BindState(space', ev.calls, ev.coalesceTime))
        else Halt(why.value, ev.calls, ev.coalesceTime)
  {
    space' := space;
    if t.bad != 0 {
      return Some(ArgTooLong(t.bad)), space';
    }
    if !t.tooMany && EqualsIgnoreCase(t.cmd, "add_combo") {
      var id := Atoi(t.arg);
      if id > 31 || id < 0 {
        return Some(ComboOutOfRange), space';
      }
      var refused := ev.Combine(t.arg2, t.arg3, id);
      if refused {
        return Some(ComboRefused), space';
      }
      return None, space';
    }
    if t.arg2 != [] || t.arg3 != [] || t.tooMany {
      return Some(TooManyArgs), space';
    }
    if EqualsIgnoreCase(t.cmd, "combo_delay") {
      var ms := atof(t.arg);
      if ms < 0.0 || ms > 100.0 {
        return Some(DelayOutOfRange), space';
      }
      ev.coalesceTime := Seconds(ms);
      return None, space';
    }
    if EqualsIgnoreCase(t.cmd, "map") {
      space' := Atoi(t.arg);
      if space' < 0 || space' > 3 {
        return Some(MapOutOfRange), space';
      }
      return None, space';
    }
    if t.cmd == [] || t.arg == [] {
      if t.cmd != [] {
        return Some(UnknownCommand), space';
      }
      return None, space';
    }
    var action := GetEvtAct(table, t.arg);
    if action < 0 {
      return Some(UnknownAction), space';
    }
    ev.Map(t.cmd, space, table[action].word, table[action].andMask, table[action].orMask);
    return None, space';
  }

  /** The file loop after line `i`: `p` is that line's outcome. */
  lemma OverlayOneLine(env: Env, lines: seq<string>, i: nat, here: BindState, p: Progress)
    requires i < |lines| && p == Step(env, lines[i], here)
    ensures Overlay(env, lines[i..], here) == if p.Continue? then Overlay(env, lines[i + 1..], p.state) else p
  {
    var rest := lines[i..];
    assert rest != [] && rest[0] == lines[i] && rest[1..] == lines[i + 1..];
    assert Overlay(env, rest, here) == if p.Continue? then Overlay(env, rest[1..], p.state) else p;
  }

  /** `cfg_setbind`: the default bindings, then the keyboard-hack file.
      `rows` are the default table's rows before its null key, `table` the
      event action table, and `atof` the C library's conversion. */
  method SetBind(ev: Event, table: seq<EventAction>, atof: string -> real, rows: seq<KeyBinding>, file: KbdFile)
    returns (status: Status)
    modifies ev
    ensures SetBindResult(status, ev.calls, ev.coalesceTime) ==
      SetBindSpec(Env(table, atof, ev.combineOk), rows, file, old(ev.calls), old(ev.coalesceTime))
  {
    var env := Env(table, atof, ev.combineOk);
    Seed(ev, table, rows);
    if file.NoFile? {
      return Ok;
    }
    if file.Unopenable? {
      return Exited;
    }
    var lines := Pieces(file.text);
    ghost var start := BindState(0, ev.calls, ev.coalesceTime);
    assert SetBindSpec(env, rows, file, old(ev.calls), old(ev.coalesceTime)) == Outcome(Overlay(env, lines, start));
    var space := 0;
    var i := 0;
    while i < |lines|
      invariant 0 <= i <= |lines|
      invariant Overlay(env, lines, start) == Overlay(env, lines[i..], BindState(space, ev.calls, ev.coalesceTime))
    {
      ghost var here := BindState(space, ev.calls, ev.coalesceTime);
      var why;
      why, space := ApplyLine(ev, table, atof, lines[i], space);
      OverlayOneLine(env, lines, i, here, Step(env, lines[i], here));
      if why.Some? {
        return Failed(why.value);
      }
      i := i + 1;
    }
    assert lines[i..] == [];
    return Ok;
  }
}
