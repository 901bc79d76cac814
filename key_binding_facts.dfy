/** What `cfg_setbind` (cfg.c lines 84-288) guarantees, proved about its
    specification in `KeyBindings`: the default table's calls, how file
    lines compose, what a failing line leaves behind, and what each kind of
    line does, stated over the line's white-space separated words. */
module KeyBindingFacts {
  import opened Options
  import opened Text
  import opened EventActions
  import opened LineTokenizer
  import opened FieldWords
  import opened TokenizerWords
  import opened KeyBindings
  import opened Seqs

  // ---------------------------------------------------------------------
  //  Default bindings
  // ---------------------------------------------------------------------

  /** Slot `j` of `row` names a known action, and `c` is the `event_map`
      call that binds the row's key to it in map `j`. */
  predicate SlotBinds(table: seq<EventAction>, row: KeyBinding, j: nat, c: EventCall)
    requires j < 4
  {
    row.slots[j].Some? && row.slots[j].value != [] &&
    var a := ActionIndex(table, row.slots[j].value);
    a >= 0 && c == MapKey(row.key, j, table[a].word, table[a].andMask, table[a].orMask)
  }

  lemma {:induction false} RowCallsExactly(table: seq<EventAction>, row: KeyBinding, n: nat, c: EventCall)
    requires n <= 4
    ensures c in RowCalls(table, row, n) <==> exists j :: 0 <= j < n && SlotBinds(table, row, j, c)
  {
    if n > 0 {
      RowCallsExactly(table, row, n - 1, c);
      assert RowCalls(table, row, n) == RowCalls(table, row, n - 1) + SlotCalls(table, row.key, n - 1, row.slots[n - 1]);
      assert c in SlotCalls(table, row.key, n - 1, row.slots[n - 1]) <==> SlotBinds(table, row, n - 1, c);
    }
  }

  /** The default table produces exactly the `event_map` calls of its slots
      that name a known action: null, empty and unknown entries are skipped
      and never make the function fail. */
  lemma {:induction false} SeedCallsExactly(table: seq<EventAction>, rows: seq<KeyBinding>, c: EventCall)
    ensures c in SeedCalls(table, rows) <==>
      exists i, j :: 0 <= i < |rows| && 0 <= j < 4 && SlotBinds(table, rows[i], j, c)
  {
    if rows != [] {
      var init := rows[..|rows| - 1];
      var last := rows[|rows| - 1];
      assert rows == init + [last];
      SeedCallsExactly(table, init, c);
      RowCallsExactly(table, last, 4, c);
      SeedCallsStep(table, rows, init, last, c, SeedCalls(table, rows), SeedCalls(table, init), RowCalls(table, last, 4));
    }
  }

  /** The last row's part of `SeedCallsExactly`, over the rows' indices. */
  lemma SeedCallsStep(table: seq<EventAction>, rows: seq<KeyBinding>, init: seq<KeyBinding>, last: KeyBinding,
                      c: EventCall, all: seq<EventCall>, front: seq<EventCall>, back: seq<EventCall>)
    requires rows == init + [last] && all == front + back
    requires c in front <==> exists i, j :: 0 <= i < |init| && 0 <= j < 4 && SlotBinds(table, init[i], j, c)
    requires c in back <==> exists j :: 0 <= j < 4 && SlotBinds(table, last, j, c)
    ensures c in all <==> exists i, j :: 0 <= i < |rows| && 0 <= j < 4 && SlotBinds(table, rows[i], j, c)
  {
    if exists i, j :: 0 <= i < |init| && 0 <= j < 4 && SlotBinds(table, init[i], j, c) {
      var i, j :| 0 <= i < |init| && 0 <= j < 4 && SlotBinds(table, init[i], j, c);
      assert rows[i] == init[i];
    }
    if exists j :: 0 <= j < 4 && SlotBinds(table, last, j, c) {
      var j :| 0 <= j < 4 && SlotBinds(table, last, j, c);
      assert rows[|init|] == last;
    }
    if exists i, j :: 0 <= i < |rows| && 0 <= j < 4 && SlotBinds(table, rows[i], j, c) {
      var i, j :| 0 <= i < |rows| && 0 <= j < 4 && SlotBinds(table, rows[i], j, c);
      if i < |init| {
        assert rows[i] == init[i];
      } else {
        assert rows[i] == last;
      }
    }
  }

  /** Each row makes at most one call per event map. */
  lemma {:induction false} SeedCallsBound(table: seq<EventAction>, rows: seq<KeyBinding>)
    ensures |SeedCalls(table, rows)| <= 4 * |rows|
  {
    if rows != [] {
      SeedCallsBound(table, rows[..|rows| - 1]);
      var row := rows[|rows| - 1];
      assert |RowCalls(table, row, 4)| <= 4 by {
        assert |RowCalls(table, row, 1)| <= 1;
        assert |RowCalls(table, row, 2)| <= 2;
        assert |RowCalls(table, row, 3)| <= 3;
      }
    }
  }

  // ---------------------------------------------------------------------
  //  The file loop
  // ---------------------------------------------------------------------

  /** Lines are applied one after the other: a file split in two runs the
      second part from where the first left off, unless the first part
      already failed. */
  lemma {:induction false} OverlayAppend(env: Env, a: seq<string>, b: seq<string>, st: BindState)
    ensures var first := Overlay(env, a, st);
      Overlay(env, a + b, st) == if first.Continue? then Overlay(env, b, first.state) else first
  {
    if a == [] {
      assert a + b == b;
    } else {
      var ab := a + b;
      assert ab[0] == a[0];
      assert ab[1..] == a[1..] + b;
      var s := Step(env, a[0], st);
      if s.Continue? {
        OverlayAppend(env, a[1..], b, s.state);
      }
    }
  }

  /** One line never withdraws a call already made, and makes at most one. */
  lemma DecideExtends(env: Env, t: Tokens, st: BindState)
    ensures match Decide(env, t, st)
      case Continue(next) => st.calls <= next.calls && |next.calls| <= |st.calls| + 1
      case Halt(_, calls, _) => st.calls <= calls && |calls| <= |st.calls| + 1
  {
    var r := Decide(env, t, st);
    if t.bad != 0 {
      assert r == Halt(ArgTooLong(t.bad), st.calls, st.coalesce);
    } else if !t.tooMany && EqualsIgnoreCase(t.cmd, "add_combo") {
      var id := Atoi(t.arg);
      var c := CombineKeys(t.arg2, t.arg3, id);
      OneMoreCall(st.calls, c);
      assert r.Continue? ==> r.state.calls == st.calls + [c];
      assert r.Halt? ==> r.calls == st.calls || r.calls == st.calls + [c];
    } else if t.arg2 != [] || t.arg3 != [] || t.tooMany {
      assert r == Halt(TooManyArgs, st.calls, st.coalesce);
    } else if EqualsIgnoreCase(t.cmd, "combo_delay") || EqualsIgnoreCase(t.cmd, "map") || t.cmd == [] || t.arg == [] {
      assert r.Continue? ==> r.state.calls == st.calls;
      assert r.Halt? ==> r.calls == st.calls;
    } else {
      var a := ActionIndex(env.table, t.arg);
      if a >= 0 {
        var c := MapKey(t.cmd, st.space, env.table[a].word, env.table[a].andMask, env.table[a].orMask);
        OneMoreCall(st.calls, c);
        assert r == Continue(st.(calls := st.calls + [c]));
      } else {
        assert r == Halt(UnknownAction, st.calls, st.coalesce);
      }
    }
  }

  lemma OneMoreCall(calls: seq<EventCall>, c: EventCall)
    ensures calls <= calls + [c] && |calls + [c]| == |calls| + 1
  {
  }

  /** Bindings made before a failing line stay in place: whatever the
      outcome, the calls made so far are a prefix of the calls at the end. */
  lemma {:induction false} OverlayExtends(env: Env, lines: seq<string>, st: BindState)
    ensures match Overlay(env, lines, st)
      case Continue(next) => st.calls <= next.calls
      case Halt(_, calls, _) => st.calls <= calls
  {
    if lines != [] {
      DecideExtends(env, Tokenize(lines[0]), st);
      match Step(env, lines[0], st)
      case Continue(next) => OverlayExtends(env, lines[1..], next);
      case Halt(_, _, _) =>
    }
  }

  /** The current map stays one of the four event maps. */
  lemma DecideKeepsSpace(env: Env, t: Tokens, st: BindState)
    requires 0 <= st.space <= 3
    ensures Decide(env, t, st).Continue? ==> 0 <= Decide(env, t, st).state.space <= 3
  {
  }

  /** A combo window set by the file lies between 0 and 0.1 seconds. */
  lemma DecideBoundsCoalesce(env: Env, t: Tokens, st: BindState)
    ensures Decide(env, t, st).Continue? ==>
      var c := Decide(env, t, st).state.coalesce;
      c == st.coalesce || 0.0 <= c <= 0.1
  {
  }

  lemma {:induction false} OverlayKeepsRanges(env: Env, lines: seq<string>, st: BindState)
    requires 0 <= st.space <= 3
    ensures Overlay(env, lines, st).Continue? ==>
      var next := Overlay(env, lines, st).state;
      0 <= next.space <= 3 && (next.coalesce == st.coalesce || 0.0 <= next.coalesce <= 0.1)
  {
    if lines != [] {
      DecideKeepsSpace(env, Tokenize(lines[0]), st);
      DecideBoundsCoalesce(env, Tokenize(lines[0]), st);
      var s := Step(env, lines[0], st);
      if s.Continue? {
        OverlayKeepsRanges(env, lines[1..], s.state);
      }
    }
  }

  /** A fatal line ends the file: the lines after it are never applied. */
  lemma StopsAtFatalLine(env: Env, before: seq<string>, line: string, after: seq<string>, st: BindState)
    requires Overlay(env, before, st).Continue?
    requires Step(env, line, Overlay(env, before, st).state).Halt?
    ensures Overlay(env, before + [line] + after, st) == Step(env, line, Overlay(env, before, st).state)
  {
    var mid := Overlay(env, before, st).state;
    var rest := [line] + after;
    OverlayAppend(env, before, rest, st);
    ConcatAssoc(before, [line], after);
    assert rest != [] && rest[0] == line;
    HaltFirst(env, rest, mid);
  }

  lemma HaltFirst(env: Env, lines: seq<string>, st: BindState)
    requires lines != [] && Step(env, lines[0], st).Halt?
    ensures Overlay(env, lines, st) == Step(env, lines[0], st)
  {
  }
}
