/** What each kind of line of the keyboard-hack file does in `cfg_setbind`
    (cfg.c lines 136-282), stated over the line's white-space separated
    words rather than over the splitter's buffers. */
module LineFacts {
  import opened Text
  import opened EventActions
  import opened LineTokenizer
  import opened FieldWords
  import opened TokenizerWords
  import opened KeyBindings
  import opened Seqs
  import opened FileLines

  /** The words of a line once its comment and line terminator are cut
      off. */
  function LineWords(line: string): seq<string> {
    Words(StripLine(line))
  }

  /** Every word is non-empty and none fills a field buffer. */
  predicate Fits(w: seq<string>) {
    forall k :: 0 <= k < |w| ==> 0 < |w[k]| < FieldLimit
  }

  /** Every word is non-empty and none of the first four fills a field
      buffer. */
  predicate FirstFourFit(w: seq<string>) {
    forall k :: 0 <= k < |w| ==> w[k] != [] && (k < 4 ==> |w[k]| < FieldLimit)
  }

  /** A word the file loop treats as a command, in any letter case. */
  predicate IsCommand(c: string) {
    EqualsIgnoreCase(c, "add_combo") || EqualsIgnoreCase(c, "combo_delay") || EqualsIgnoreCase(c, "map")
  }

  /** The fields `t` are what the splitter reads from a line whose words
      are `w`. */
  predicate ReadsWords(t: Tokens, w: seq<string>) {
    (t.bad != 0 <==> exists k :: 0 <= k < |w| && k < 4 && |w[k]| >= FieldLimit) &&
    (t.bad == 0 ==>
      t.cmd == Nth(w, 0) && t.arg == Nth(w, 1) && t.arg2 == Nth(w, 2) && t.arg3 == Nth(w, 3) &&
      (t.tooMany <==> |w| > 4))
  }

  lemma TokenizeReadsWords(line: string)
    ensures ReadsWords(Tokenize(line), LineWords(line))
  {
    TokenizeFlagsLongWord(line);
    TokenizeReadsFourWords(line);
  }

  // ---------------------------------------------------------------------
  //  The checks on fields that read given words
  // ---------------------------------------------------------------------

  lemma DecideBlank(env: Env, t: Tokens, st: BindState)
    requires ReadsWords(t, [])
    ensures Decide(env, t, st) == Continue(st)
  {
  }

  lemma DecideLongWord(env: Env, t: Tokens, w: seq<string>, st: BindState, k: nat)
    requires ReadsWords(t, w) && k < 4 && k < |w| && |w[k]| >= FieldLimit
    ensures Decide(env, t, st).Halt? && Decide(env, t, st).why.ArgTooLong?
    ensures Decide(env, t, st).calls == st.calls
  {
  }

  lemma DecideLoneWord(env: Env, t: Tokens, c: string, st: BindState)
    requires ReadsWords(t, [c]) && 0 < |c| < FieldLimit && !IsCommand(c)
    ensures Decide(env, t, st) == Halt(UnknownCommand, st.calls, st.coalesce)
  {
    assert Nth([c], 0) == c;
  }

  lemma DecideMap(env: Env, t: Tokens, w: seq<string>, st: BindState)
    requires ReadsWords(t, w) && 1 <= |w| <= 2 && Fits(w) && EqualsIgnoreCase(w[0], "map")
    ensures var m := Atoi(Nth(w, 1));
      Decide(env, t, st) ==
        if 0 <= m <= 3 then Continue(st.(space := m)) else Halt(MapOutOfRange, st.calls, st.coalesce)
  {
    assert |w[0]| == 3;
  }

  lemma DecideDelay(env: Env, t: Tokens, w: seq<string>, st: BindState)
    requires ReadsWords(t, w) && |w| == 2 && Fits(w) && EqualsIgnoreCase(w[0], "combo_delay")
    ensures var ms := env.atof(w[1]);
      Decide(env, t, st) ==
        if 0.0 <= ms <= 100.0 then Continue(st.(coalesce := Seconds(ms)))
        else Halt(DelayOutOfRange, st.calls, st.coalesce)
  {
    assert |w[0]| == 11;
  }

  lemma DecideBinding(env: Env, t: Tokens, w: seq<string>, st: BindState)
    requires ReadsWords(t, w) && |w| == 2 && Fits(w) && !IsCommand(w[0])
    ensures var a := ActionIndex(env.table, w[1]);
      Decide(env, t, st) ==
        if a < 0 then Halt(UnknownAction, st.calls, st.coalesce)
        else Continue(st.(calls := st.calls + [MapKey(w[0], st.space, env.table[a].word, env.table[a].andMask, env.table[a].orMask)]))
  {
  }

  lemma DecideCombo(env: Env, t: Tokens, w: seq<string>, st: BindState)
    requires ReadsWords(t, w) && 1 <= |w| <= 4 && Fits(w) && EqualsIgnoreCase(w[0], "add_combo")
    ensures var id := Atoi(Nth(w, 1));
      var calls := st.calls + [CombineKeys(Nth(w, 2), Nth(w, 3), id)];
      Decide(env, t, st) ==
        if id < 0 || id > 31 then Halt(ComboOutOfRange, st.calls, st.coalesce)
        else if env.combineOk(st.calls, Nth(w, 2), Nth(w, 3), id) then Continue(st.(calls := calls))
        else Halt(ComboRefused, calls, st.coalesce)
  {
  }

  lemma DecideExtraWords(env: Env, t: Tokens, w: seq<string>, st: BindState)
    requires ReadsWords(t, w) && |w| >= 3 && FirstFourFit(w)
    requires |w| > 4 || !EqualsIgnoreCase(w[0], "add_combo")
    ensures Decide(env, t, st) == Halt(TooManyArgs, st.calls, st.coalesce)
  {
  }

  // ---------------------------------------------------------------------
  //  Lines
  // ---------------------------------------------------------------------

  /** No word of the line fills a field buffer. */
  predicate ShortLine(line: string) {
    forall k :: 0 <= k < |LineWords(line)| ==> |LineWords(line)[k]| < FieldLimit
  }

  lemma WordsOfLine(line: string)
    requires ShortLine(line)
    ensures Fits(LineWords(line)) && FirstFourFit(LineWords(line))
    ensures ReadsWords(Tokenize(line), LineWords(line))
  {
    WordsNonEmpty(StripLine(line));
    TokenizeReadsWords(line);
    FitsOf(LineWords(line));
  }

  lemma FitsOf(w: seq<string>)
    requires forall k :: 0 <= k < |w| ==> w[k] != []
    requires forall k :: 0 <= k < |w| ==> |w[k]| < FieldLimit
    ensures Fits(w) && FirstFourFit(w)
  {
  }

  /** A blank or comment-only line changes nothing. */
  lemma BlankLineIgnored(env: Env, line: string, st: BindState)
    requires LineWords(line) == []
    ensures Step(env, line, st) == Continue(st)
  {
    TokenizeReadsWords(line);
    DecideBlank(env, Tokenize(line), st);
  }

  /** A word that fills its buffer among the first four is fatal, whatever
      the command, and makes no call. */
  lemma LongWordFatal(env: Env, line: string, st: BindState, k: nat)
    requires k < 4 && k < |LineWords(line)| && |LineWords(line)[k]| >= FieldLimit
    ensures Step(env, line, st).Halt? && Step(env, line, st).why.ArgTooLong?
    ensures Step(env, line, st).calls == st.calls
  {
    TokenizeReadsWords(line);
    DecideLongWord(env, Tokenize(line), LineWords(line), st, k);
  }

  /** A single word that is not a command is fatal. */
  lemma LoneWordIsUnknownCommand(env: Env, line: string, st: BindState)
    requires |LineWords(line)| == 1 && ShortLine(line) && !IsCommand(LineWords(line)[0])
    ensures Step(env, line, st) == Halt(UnknownCommand, st.calls, st.coalesce)
  {
    var w := LineWords(line);
    WordsOfLine(line);
    assert w == [w[0]];
    DecideLoneWord(env, Tokenize(line), w[0], st);
  }

  /** `MAP n` selects map n for 0 <= n <= 3 and is fatal otherwise; `MAP`
      alone selects map 0. */
  lemma MapLine(env: Env, line: string, st: BindState)
    requires var w := LineWords(line); 1 <= |w| <= 2 && ShortLine(line) && EqualsIgnoreCase(w[0], "map")
    ensures var m := Atoi(Nth(LineWords(line), 1));
      Step(env, line, st) ==
        if 0 <= m <= 3 then Continue(st.(space := m)) else Halt(MapOutOfRange, st.calls, st.coalesce)
  {
    WordsOfLine(line);
    DecideMap(env, Tokenize(line), LineWords(line), st);
  }

  /** `MAP n` written in decimal, with or without a minus sign. */
  lemma MapNumberLine(env: Env, line: string, st: BindState, n: nat)
    requires var w := LineWords(line); |w| == 2 && ShortLine(line) && EqualsIgnoreCase(w[0], "map")
    requires LineWords(line)[1] == Decimal(n) || (n > 0 && LineWords(line)[1] == "-" + Decimal(n))
    ensures LineWords(line)[1] == Decimal(n) && n <= 3 ==> Step(env, line, st) == Continue(st.(space := n))
    ensures LineWords(line)[1] == Decimal(n) && n > 3 ==> Step(env, line, st) == Halt(MapOutOfRange, st.calls, st.coalesce)
    ensures LineWords(line)[1] != Decimal(n) ==> Step(env, line, st) == Halt(MapOutOfRange, st.calls, st.coalesce)
  {
    MapLine(env, line, st);
    AtoiDecimal(n);
  }

  /** `COMBO_DELAY ms` sets the combo window to ms/1000 seconds when
      0 <= ms <= 100 and is fatal otherwise. */
  lemma DelayLine(env: Env, line: string, st: BindState)
    requires var w := LineWords(line); |w| == 2 && ShortLine(line) && EqualsIgnoreCase(w[0], "combo_delay")
    ensures var ms := env.atof(LineWords(line)[1]);
      Step(env, line, st) ==
        if 0.0 <= ms <= 100.0 then Continue(st.(coalesce := Seconds(ms)))
        else Halt(DelayOutOfRange, st.calls, st.coalesce)
  {
    WordsOfLine(line);
    DecideDelay(env, Tokenize(line), LineWords(line), st);
  }



  /** `key action` binds the key in the current map when the action is
      known and is fatal otherwise, unlike an unknown action in the default
      table, which is skipped. */
  lemma BindingLine(env: Env, line: string, st: BindState)
    requires var w := LineWords(line); |w| == 2 && ShortLine(line) && !IsCommand(w[0])
    ensures var w := LineWords(line); var a := ActionIndex(env.table, w[1]);
      Step(env, line, st) ==
        if a < 0 then Halt(UnknownAction, st.calls, st.coalesce)
        else Continue(st.(calls := st.calls + [MapKey(w[0], st.space, env.table[a].word, env.table[a].andMask, env.table[a].orMask)]))
  {
    WordsOfLine(line);
    DecideBinding(env, Tokenize(line), LineWords(line), st);
  }

  /** `ADD_COMBO id a b`: an id outside 0..31 is fatal before any call;
      otherwise `event_combine` is called and the file goes on exactly when
      it accepts. Missing words are empty strings. */
  lemma ComboLine(env: Env, line: string, st: BindState)
    requires var w := LineWords(line); 1 <= |w| <= 4 && ShortLine(line) && EqualsIgnoreCase(w[0], "add_combo")
    ensures var w := LineWords(line); var id := Atoi(Nth(w, 1));
      var calls := st.calls + [CombineKeys(Nth(w, 2), Nth(w, 3), id)];
      Step(env, line, st) ==
        if id < 0 || id > 31 then Halt(ComboOutOfRange, st.calls, st.coalesce)
        else if env.combineOk(st.calls, Nth(w, 2), Nth(w, 3), id) then Continue(st.(calls := calls))
        else Halt(ComboRefused, calls, st.coalesce)
  {
    WordsOfLine(line);
    DecideCombo(env, Tokenize(line), LineWords(line), st);
  }

  /** A third word on any line but `ADD_COMBO`, and a fifth word on any
      line, are fatal. */
  lemma ExtraWordsFatal(env: Env, line: string, st: BindState)
    requires var w := LineWords(line); |w| >= 3 && (|w| > 4 || !EqualsIgnoreCase(w[0], "add_combo"))
    requires forall k :: 0 <= k < |LineWords(line)| && k < 4 ==> |LineWords(line)[k]| < FieldLimit
    ensures Step(env, line, st) == Halt(TooManyArgs, st.calls, st.coalesce)
  {
    WordsNonEmpty(StripLine(line));
    TokenizeReadsWords(line);
    DecideExtraWords(env, Tokenize(line), LineWords(line), st);
  }

  // ---------------------------------------------------------------------
  //  A file of bindings
  // ---------------------------------------------------------------------

  /** A `key action` line whose action the table knows. */
  predicate IsBinding(table: seq<EventAction>, line: string) {
    var w := LineWords(line);
    |w| == 2 && ShortLine(line) && !IsCommand(w[0]) && ActionIndex(table, w[1]) >= 0
  }

  /** The `event_map` call a binding line makes in map `space`. */
  function BindingCall(table: seq<EventAction>, line: string, space: int): EventCall
    requires IsBinding(table, line)
  {
    var w := LineWords(line);
    var a := ActionIndex(table, w[1]);
    MapKey(w[0], space, table[a].word, table[a].andMask, table[a].orMask)
  }

  lemma BindingStep(env: Env, line: string, st: BindState)
    requires IsBinding(env.table, line)
    ensures Step(env, line, st) == Continue(st.(calls := st.calls + [BindingCall(env.table, line, st.space)]))
  {
    BindingLine(env, line, st);
  }

  /** The calls a run of binding lines makes in map `space`: one per line,
      in order. */
  function BindingCalls(table: seq<EventAction>, lines: seq<string>, space: int): (r: seq<EventCall>)
    requires forall i :: 0 <= i < |lines| ==> IsBinding(table, lines[i])
    ensures |r| == |lines|
  {
    if lines == [] then [] else [BindingCall(table, lines[0], space)] + BindingCalls(table, lines[1..], space)
  }

  /** A file of binding lines succeeds and binds each key, in order, in the
      current map. */
  lemma {:induction false} BindingsFile(env: Env, lines: seq<string>, st: BindState)
    requires forall i :: 0 <= i < |lines| ==> IsBinding(env.table, lines[i])
    ensures Overlay(env, lines, st) == Continue(st.(calls := st.calls + BindingCalls(env.table, lines, st.space)))
  {
    if lines == [] {
      assert st.calls + [] == st.calls;
    } else {
      var c := BindingCall(env.table, lines[0], st.space);
      BindingStep(env, lines[0], st);
      var next := st.(calls := st.calls + [c]);
      BindingsFile(env, lines[1..], next);
      assert BindingCalls(env.table, lines, st.space) == [c] + BindingCalls(env.table, lines[1..], st.space);
      ConcatAssoc(st.calls, [c], BindingCalls(env.table, lines[1..], st.space));
    }
  }

  /** A keyboard-hack file of binding lines, each ended by its newline and
      at most 255 characters long, makes `cfg_setbind` succeed: the default
      bindings come first, then one binding per line, in order, in map 0. */
  lemma BindingsText(env: Env, rows: seq<KeyBinding>, ls: seq<string>, calls: seq<EventCall>, coalesce: real)
    requires forall i :: 0 <= i < |ls| ==> Terminated(ls[i]) && |ls[i]| <= ReadLimit && IsBinding(env.table, ls[i])
    ensures SetBindSpec(env, rows, Contents(Flatten(ls)), calls, coalesce) ==
      SetBindResult(Ok, calls + SeedCalls(env.table, rows) + BindingCalls(env.table, ls, 0), coalesce)
  {
    ShortLinesReadWhole(ls);
    BindingsFile(env, ls, BindState(0, calls + SeedCalls(env.table, rows), coalesce));
  }
}
