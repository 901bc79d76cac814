/** How `cfg_setbind` reads the keyboard-hack file: `lzoe_fgets(buf, 256, f)`
    (cfg.c line 143) returns the next piece of the file, up to and
    including the next newline but never more than 255 characters. A
    physical line longer than that arrives as several pieces, and each is
    handled as a line of its own. */
module FileLines {

  /** The characters one `lzoe_fgets` call can return into `buf[256]`. */
  const ReadLimit := 255

  /** Where the piece starting at the beginning of `text` ends, having
      looked at its first `k` characters and found no newline among them. */
  function PieceEnd(text: string, k: nat): (n: nat)
    requires k < |text| && k < ReadLimit
    requires forall j :: 0 <= j < k ==> text[j] != '\n'
    ensures k < n <= |text| && n <= ReadLimit
    ensures forall j :: 0 <= j < n - 1 ==> text[j] != '\n'
    ensures n < |text| ==> n == ReadLimit || text[n - 1] == '\n'
    decreases |text| - k
  {
    if text[k] == '\n' || k + 1 == |text| || k + 1 == ReadLimit then k + 1
    else PieceEnd(text, k + 1)
  }

  /** The pieces successive `lzoe_fgets` calls return, until end of file. */
  function Pieces(text: string): (r: seq<string>)
    ensures forall i :: 0 <= i < |r| ==> 0 < |r[i]| <= ReadLimit
    decreases |text|
  {
    if text == [] then [] else
      var n := PieceEnd(text, 0);
      [text[..n]] + Pieces(text[n..])
  }

  /** The pieces laid end to end. */
  function Flatten(ls: seq<string>): string
    decreases |ls|
  {
    if ls == [] then [] else ls[0] + Flatten(ls[1..])
  }

  /** Reading the file piece by piece loses and repeats nothing. */
  lemma {:induction false} PiecesCoverText(text: string)
    ensures Flatten(Pieces(text)) == text
    decreases |text|
  {
    if text != [] {
      var n := PieceEnd(text, 0);
      var head, tail := text[..n], text[n..];
      PiecesStep(text);
      PiecesCoverText(tail);
      FlattenCons(head, Pieces(tail));
      assert head + tail == text;
    }
  }

  lemma PiecesStep(text: string)
    requires text != []
    ensures Pieces(text) == [text[..PieceEnd(text, 0)]] + Pieces(text[PieceEnd(text, 0)..])
  {
  }

  lemma FlattenCons(h: string, ls: seq<string>)
    ensures Flatten([h] + ls) == h + Flatten(ls)
  {
    assert ([h] + ls)[0] == h && ([h] + ls)[1..] == ls;
  }

  /** A line as a text editor writes it: ended by its newline, with no
      other newline in it. */
  predicate Terminated(line: string) {
    line != [] && line[|line| - 1] == '\n' && forall j :: 0 <= j < |line| - 1 ==> line[j] != '\n'
  }

  lemma {:induction false} PieceEndAtNewline(text: string, m: nat, k: nat)
    requires 0 <= k < m <= |text| && m <= ReadLimit
    requires text[m - 1] == '\n' && forall j :: 0 <= j < m - 1 ==> text[j] != '\n'
    ensures PieceEnd(text, k) == m
    decreases m - k
  {
    if k + 1 < m {
      PieceEndAtNewline(text, m, k + 1);
    }
  }

  /** A file of terminated lines of at most 255 characters each, the
      newline included, is read line by line. */
  lemma {:induction false} ShortLinesReadWhole(ls: seq<string>)
    requires forall i :: 0 <= i < |ls| ==> Terminated(ls[i]) && |ls[i]| <= ReadLimit
    ensures Pieces(Flatten(ls)) == ls
    decreases |ls|
  {
    if ls != [] {
      var text := Flatten(ls);
      var m := |ls[0]|;
      assert text == ls[0] + Flatten(ls[1..]);
      assert text[..m] == ls[0] && text[m..] == Flatten(ls[1..]);
      PieceEndAtNewline(text, m, 0);
      ShortLinesReadWhole(ls[1..]);
    }
  }

  /** A line with no newline among its first 255 characters is cut there:
      the rest of it comes back as the next piece. */
  lemma LongLineSplits(text: string)
    requires |text| > ReadLimit && forall j :: 0 <= j < ReadLimit ==> text[j] != '\n'
    ensures |Pieces(text)| >= 2
    ensures Pieces(text)[0] == text[..ReadLimit]
    ensures Pieces(text)[1..] == Pieces(text[ReadLimit..])
  {
    var n := PieceEnd(text, 0);
    assert n == ReadLimit;
    assert text[ReadLimit..] != [];
  }
}
