/** A reference reading of a keyboard-hack line as white-space separated
    words, and the proof that the field splitter of cfg.c (lines 149-190)
    reads the first four of them. */
module FieldWords {
  import opened Text
  import opened LineTokenizer

  // ---------------------------------------------------------------------
  //  Reference definition: the white-space separated words of a line.
  // ---------------------------------------------------------------------

  /** The whole run of non-space characters at the start of `s`. */
  function Word(s: string): string {
    Span(s, |s|)
  }

  /** The maximal non-space words of `s`, left to right. */
  function Words(s: string): seq<string>
    decreases |s|
  {
    var t := LStrip(s);
    if t == [] then [] else
      var v := Word(t);
      assert v != [] by {
        assert v == [t[0]] + Span(t[1..], |t| - 1);
      }
      [v] + Words(t[|v|..])
  }

  lemma WordNonEmpty(t: string)
    requires t != [] && !IsSpace(t[0])
    ensures Word(t) != []
  {
    assert Word(t) == [t[0]] + Span(t[1..], |t| - 1);
  }

  lemma ConsNonEmpty(v: string, rest: seq<string>, all: seq<string>)
    requires v != [] && all == [v] + rest
    requires forall k :: 0 <= k < |rest| ==> rest[k] != []
    ensures forall k :: 0 <= k < |all| ==> all[k] != []
  {
    assert forall k :: 0 < k < |all| ==> all[k] == rest[k - 1];
  }

  /** Every word holds at least one character. */
  lemma {:induction false} WordsNonEmpty(s: string)
    ensures forall k :: 0 <= k < |Words(s)| ==> Words(s)[k] != []
    decreases |s|
  {
    var t := LStrip(s);
    if t != [] {
      var v := Word(t);
      WordNonEmpty(t);
      WordsNonEmpty(t[|v|..]);
      ConsNonEmpty(v, Words(t[|v|..]), Words(s));
    }
  }

  /** The `k`-th word, or the empty string when there are fewer words. */
  function Nth(w: seq<string>, k: nat): string {
    if k < |w| then w[k] else []
  }

  lemma {:induction false} SpanIsCappedWord(s: string, n: nat)
    ensures Span(s, n) == if |Word(s)| <= n then Word(s) else Word(s)[..n]
  {
    if s != [] && !IsSpace(s[0]) && n > 0 {
      var w1 := Word(s[1..]);
      SpanIsCappedWord(s[1..], n - 1);
      assert Word(s) == [s[0]] + w1;
      if |w1| > n - 1 {
        assert [s[0]] + w1[..n - 1] == ([s[0]] + w1)[..n];
      }
    }
  }

  /** One field scan takes the next word when it is shorter than the
      buffer, and fills the buffer otherwise. */
  lemma ScanTakesWord(s: string)
    ensures var w := Words(s); var f := Scan(s).0; var wr := Words(Scan(s).1);
      (w == [] ==> f == [] && wr == []) &&
      (w != [] && |w[0]| < FieldLimit ==> f == w[0] && wr == w[1..]) &&
      (w != [] && |w[0]| >= FieldLimit ==> |f| == FieldLimit)
  {
    var t := LStrip(s);
    SpanIsCappedWord(t, FieldLimit);
    if t == [] {
      assert Scan(s).1 == [];
    }
  }

  lemma NoWordsIsBlank(s: string)
    ensures Words(s) == [] <==> LStrip(s) == []
  {
  }

  /** `n` field scans in a row: the fields and what follows them. */
  function ScanN(s: string, n: nat): (r: (seq<string>, string))
    ensures |r.0| == n
  {
    if n == 0 then ([], s) else
      var first := Scan(s);
      var others := ScanN(first.1, n - 1);
      ([first.0] + others.0, others.1)
  }

  /** The first `n` words, padded with empty strings. */
  function Pad(w: seq<string>, n: nat): (r: seq<string>)
    ensures |r| == n
  {
    if n == 0 then []
    else if w == [] then [[]] + Pad([], n - 1)
    else [w[0]] + Pad(w[1..], n - 1)
  }

  /** None of the first `n` words reaches the buffer size. */
  predicate ShortWords(w: seq<string>, n: nat) {
    n == 0 || w == [] || (|w[0]| < FieldLimit && ShortWords(w[1..], n - 1))
  }

  /** The words left after the first `n`. */
  function DropWords(w: seq<string>, n: nat): seq<string> {
    if n == 0 || w == [] then w else DropWords(w[1..], n - 1)
  }

  /** Some field filled its buffer. */
  predicate SomeFull(fs: seq<string>) {
    exists k :: 0 <= k < |fs| && |fs[k]| == FieldLimit
  }
}
