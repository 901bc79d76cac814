/** The field splitter of cfg.c (lines 149-190) reads the first four
    white-space separated words of a line. */
module TokenizerWords {
  import opened Text
  import opened LineTokenizer
  import opened FieldWords

  /** What one scan does to the words, stated over plain values: `w` are
      the words before the scan, `f` the field it reads and `wr` the words
      after it. */
  predicate ScanReads(w: seq<string>, f: string, wr: seq<string>) {
    (w == [] ==> f == [] && wr == []) &&
    (w != [] && |w[0]| < FieldLimit ==> f == w[0] && wr == w[1..]) &&
    (w != [] && |w[0]| >= FieldLimit ==> |f| == FieldLimit)
  }

  lemma PadStep(w: seq<string>, f: string, wr: seq<string>, tail: seq<string>, n: nat)
    requires n > 0 && ScanReads(w, f, wr)
    requires ShortWords(wr, n - 1) ==> tail == Pad(wr, n - 1)
    ensures ShortWords(w, n) ==> [f] + tail == Pad(w, n)
  {
    if w == [] {
      assert Pad(w, n) == [[]] + Pad(wr, n - 1);
    }
  }

  lemma DropStep(w: seq<string>, f: string, wr: seq<string>, left: seq<string>, n: nat)
    requires n > 0 && ScanReads(w, f, wr)
    requires ShortWords(wr, n - 1) ==> left == DropWords(wr, n - 1)
    ensures ShortWords(w, n) ==> left == DropWords(w, n)
  {
    if w == [] {
      assert DropWords(wr, n - 1) == [];
    }
  }

  lemma FullStep(w: seq<string>, f: string, wr: seq<string>, tail: seq<string>, fs: seq<string>, n: nat)
    requires n > 0 && ScanReads(w, f, wr) && fs == [f] + tail
    requires !ShortWords(wr, n - 1) ==> SomeFull(tail)
    ensures !ShortWords(w, n) ==> SomeFull(fs)
  {
    if !ShortWords(w, n) {
      if w != [] && |w[0]| >= FieldLimit {
        assert |fs[0]| == FieldLimit;
      } else {
        var k :| 0 <= k < |tail| && |tail[k]| == FieldLimit;
        assert fs[k + 1] == tail[k];
      }
    }
  }

  /** `n` scans read the first `n` words, padded with empty fields, as long
      as none of them reaches the buffer size. */
  lemma {:induction false} ScanNReadsWords(s: string, n: nat)
    ensures ShortWords(Words(s), n) ==> ScanN(s, n).0 == Pad(Words(s), n)
    decreases n
  {
    if n == 0 {
      assert ScanN(s, n).0 == [] == Pad(Words(s), n);
    } else {
      var rest := Scan(s).1;
      assert ScanN(s, n).0 == [Scan(s).0] + ScanN(rest, n - 1).0;
      ScanTakesWord(s);
      ScanNReadsWords(rest, n - 1);
      PadStep(Words(s), Scan(s).0, Words(rest), ScanN(rest, n - 1).0, n);
    }
  }

  /** Under the same condition, the text left after `n` scans holds the
      remaining words. */
  lemma {:induction false} ScanNLeavesWords(s: string, n: nat)
    ensures ShortWords(Words(s), n) ==> Words(ScanN(s, n).1) == DropWords(Words(s), n)
    decreases n
  {
    if n == 0 {
      assert ScanN(s, n).1 == s && DropWords(Words(s), n) == Words(s);
    } else {
      var rest := Scan(s).1;
      assert ScanN(s, n).1 == ScanN(rest, n - 1).1;
      ScanTakesWord(s);
      ScanNLeavesWords(rest, n - 1);
      DropStep(Words(s), Scan(s).0, Words(rest), Words(ScanN(rest, n - 1).1), n);
    }
  }

  /** If one of the first `n` words reaches the buffer size, one of the `n`
      fields fills its buffer. */
  lemma {:induction false} ScanNFillsBuffer(s: string, n: nat)
    ensures !ShortWords(Words(s), n) ==> SomeFull(ScanN(s, n).0)
    decreases n
  {
    if n > 0 {
      ScanNFillsBuffer(Scan(s).1, n - 1);
      FillsStep(s, n);
    }
  }

  /** The inductive step of `ScanNFillsBuffer`, with the hypothesis for the
      rest of the text as the premise. */
  lemma FillsStep(s: string, n: nat)
    requires n > 0
    ensures (!ShortWords(Words(Scan(s).1), n - 1) ==> SomeFull(ScanN(Scan(s).1, n - 1).0)) ==>
      (!ShortWords(Words(s), n) ==> SomeFull(ScanN(s, n).0))
  {
    var rest := Scan(s).1;
    assert ScanN(s, n).0 == [Scan(s).0] + ScanN(rest, n - 1).0;
    ScanTakesWord(s);
    if !ShortWords(Words(rest), n - 1) ==> SomeFull(ScanN(rest, n - 1).0) {
      FullStep(Words(s), Scan(s).0, Words(rest), ScanN(rest, n - 1).0, ScanN(s, n).0, n);
    }
  }

  /** `Tokenize` is four field scans followed by a test for leftover text. */
  lemma TokenizeScansFour(buf: string)
    ensures var t := Tokenize(buf); var r := ScanN(StripLine(buf), 4);
      r.0 == [t.cmd, t.arg, t.arg2, t.arg3] && (t.tooMany <==> LStrip(r.1) != [])
  {
    var line := StripLine(buf);
    var s1 := Scan(line);
    var s2 := Scan(s1.1);
    var s3 := Scan(s2.1);
    var s4 := Scan(s3.1);
    assert Tokenize(buf) == Tokens(s1.0, s2.0, s3.0, s4.0, BadCode(s1.0, s2.0, s3.0, s4.0), LStrip(s4.1) != []);
    var n0 := ScanN(s4.1, 0);
    var n1 := ScanN(s3.1, 1);
    var n2 := ScanN(s2.1, 2);
    var n3 := ScanN(s1.1, 3);
    var n4 := ScanN(line, 4);
    assert n0 == ([], s4.1);
    assert n1 == ([s4.0] + n0.0, n0.1);
    assert n2 == ([s3.0] + n1.0, n1.1);
    assert n3 == ([s2.0] + n2.0, n2.1);
    assert n4 == ([s1.0] + n3.0, n3.1);
    ConsFour(s1.0, s2.0, s3.0, s4.0, n0.0, n1.0, n2.0, n3.0);
  }

  lemma ConsFour(a: string, b: string, c: string, d: string,
                 t0: seq<string>, t1: seq<string>, t2: seq<string>, t3: seq<string>)
    requires t0 == [] && t1 == [d] + t0 && t2 == [c] + t1 && t3 == [b] + t2
    ensures [a] + t3 == [a, b, c, d]
  {
  }

  /** `bad` is set exactly when some field filled its buffer. */
  lemma BadMeansFull(t: Tokens)
    requires |t.cmd| <= FieldLimit && |t.arg| <= FieldLimit && |t.arg2| <= FieldLimit && |t.arg3| <= FieldLimit
    requires t.bad == 0 <==> |t.cmd| < FieldLimit && |t.arg| < FieldLimit && |t.arg2| < FieldLimit && |t.arg3| < FieldLimit
    ensures t.bad != 0 <==> SomeFull([t.cmd, t.arg, t.arg2, t.arg3])
  {
    var fs := [t.cmd, t.arg, t.arg2, t.arg3];
    assert fs[0] == t.cmd && fs[1] == t.arg && fs[2] == t.arg2 && fs[3] == t.arg3;
    if t.bad != 0 {
      var k := if |t.cmd| == FieldLimit then 0 else if |t.arg| == FieldLimit then 1
        else if |t.arg2| == FieldLimit then 2 else 3;
      assert |fs[k]| == FieldLimit;
    }
  }

  /** The word-level argument behind the two lemmas below, over any four
      fields `fs` that read the words `w` as the scans do. */
  lemma FieldsOfWords(fs: seq<string>, w: seq<string>)
    requires ShortWords(w, 4) ==> fs == Pad(w, 4)
    requires !ShortWords(w, 4) ==> SomeFull(fs)
    ensures SomeFull(fs) <==> exists k :: 0 <= k < |w| && k < 4 && |w[k]| >= FieldLimit
    ensures !SomeFull(fs) ==> fs == [Nth(w, 0), Nth(w, 1), Nth(w, 2), Nth(w, 3)]
  {
    ShortWordsAt(w, 4);
    PadAt(w, 4, 0);
    PadAt(w, 4, 1);
    PadAt(w, 4, 2);
    PadAt(w, 4, 3);
  }

  /** What the four scans of a line read, in terms of its words. */
  lemma ScansOfWords(line: string)
    ensures ShortWords(Words(line), 4) ==> ScanN(line, 4).0 == Pad(Words(line), 4)
    ensures !ShortWords(Words(line), 4) ==> SomeFull(ScanN(line, 4).0)
  {
    ScanNReadsWords(line, 4);
    ScanNFillsBuffer(line, 4);
  }

  /** The tokeniser reports an over-long field exactly when one of the
      first four words reaches the buffer size. */
  lemma TokenizeFlagsLongWord(buf: string)
    ensures var w := Words(StripLine(buf));
      Tokenize(buf).bad != 0 <==> exists k :: 0 <= k < |w| && k < 4 && |w[k]| >= FieldLimit
  {
    var t := Tokenize(buf);
    var line := StripLine(buf);
    BadMeansFull(t);
    TokenizeScansFour(buf);
    ScansOfWords(line);
    FieldsOfWords(ScanN(line, 4).0, Words(line));
  }

  /** When no field is over-long, the fields are the first four words
      (empty where the line has fewer) and `too_many` says that there is a
      fifth. */
  lemma TokenizeReadsFourWords(buf: string)
    ensures var w := Words(StripLine(buf)); var t := Tokenize(buf);
      t.bad == 0 ==>
        t.cmd == Nth(w, 0) && t.arg == Nth(w, 1) && t.arg2 == Nth(w, 2) && t.arg3 == Nth(w, 3) &&
        (t.tooMany <==> |w| > 4)
  {
    TokenizeReadsFields(buf);
    TokenizeSeesFifthWord(buf);
  }

  lemma TokenizeReadsFields(buf: string)
    ensures var w := Words(StripLine(buf)); var t := Tokenize(buf);
      t.bad == 0 ==> t.cmd == Nth(w, 0) && t.arg == Nth(w, 1) && t.arg2 == Nth(w, 2) && t.arg3 == Nth(w, 3)
  {
    var t := Tokenize(buf);
    var line := StripLine(buf);
    BadMeansFull(t);
    TokenizeScansFour(buf);
    ScansOfWords(line);
    FieldsOfWords(ScanN(line, 4).0, Words(line));
  }

  lemma TokenizeSeesFifthWord(buf: string)
    ensures var w := Words(StripLine(buf)); var t := Tokenize(buf);
      t.bad == 0 ==> (t.tooMany <==> |w| > 4)
  {
    var t := Tokenize(buf);
    var line := StripLine(buf);
    var w := Words(line);
    if t.bad == 0 {
      BadMeansFull(t);
      TokenizeScansFour(buf);
      ScanNFillsBuffer(line, 4);
      assert ShortWords(w, 4);
      var rest := ScanN(line, 4).1;
      ScanNLeavesWords(line, 4);
      NoWordsIsBlank(rest);
      DropWordsIsSuffix(w, 4);
    }
  }

  lemma {:induction false} ShortWordsAt(w: seq<string>, n: nat)
    ensures ShortWords(w, n) <==> forall k :: 0 <= k < |w| && k < n ==> |w[k]| < FieldLimit
  {
    if n > 0 && w != [] {
      ShortWordsAt(w[1..], n - 1);
      assert forall k :: 0 < k < |w| ==> w[k] == w[1..][k - 1];
    }
  }

  lemma {:induction false} PadAt(w: seq<string>, n: nat, k: nat)
    requires k < n
    ensures Pad(w, n)[k] == Nth(w, k)
    decreases n
  {
    var tail := if w == [] then [] else w[1..];
    assert Pad(w, n) == [Nth(w, 0)] + Pad(tail, n - 1);
    if k > 0 {
      PadAt(tail, n - 1, k - 1);
      assert Nth(w, k) == Nth(tail, k - 1);
    }
  }

  lemma {:induction false} DropWordsIsSuffix(w: seq<string>, n: nat)
    ensures DropWords(w, n) == w[(if n <= |w| then n else |w|)..]
  {
    if n > 0 && w != [] {
      DropWordsIsSuffix(w[1..], n - 1);
      var m := if n <= |w| then n else |w|;
      assert w[1..][m - 1..] == w[m..];
    }
  }
}
