/** The field splitter of the keyboard-hack file (cfg.c lines 149-190): a
    line is cut at its last `;`, then at its last CR and its last LF, and up
    to four white-space separated fields are copied into 256-byte buffers,
    each holding at most 255 characters. */
module LineTokenizer {
  import opened Text

  /** Characters a field buffer holds before the copy loop stops. */
  const FieldLimit: nat := 255

  /** The four fields, the number (1..4) of the last field that filled its
      buffer or 0, and whether text is left after the fourth field. */
  datatype Tokens = Tokens(cmd: string, arg: string, arg2: string, arg3: string, bad: int, tooMany: bool)

  /** The comment and line-terminator cuts, in the order the source makes
      them. */
  function StripLine(buf: string): (r: string)
    ensures r <= buf
  {
    CutAtLast(CutAtLast(CutAtLast(buf, ';'), '\r'), '\n')
  }

  /** The longest run of non-space characters at the start of `s`, cut at
      `limit` characters. */
  function Span(s: string, limit: nat): (r: string)
    ensures |r| <= limit && |r| <= |s| && r == s[..|r|]
    ensures |r| < limit && |r| < |s| ==> IsSpace(s[|r|])
  {
    if s == [] || limit == 0 || IsSpace(s[0]) then [] else [s[0]] + Span(s[1..], limit - 1)
  }

  /** One field: skip white space, then copy at most `FieldLimit`
      characters. Returns the field and what follows it. */
  function Scan(s: string): (string, string) {
    var t := LStrip(s);
    var f := Span(t, FieldLimit);
    (f, t[|f|..])
  }

  /** The number of the last of the four fields that filled its buffer. */
  function BadCode(cmd: string, arg: string, arg2: string, arg3: string): int {
    if |arg3| == FieldLimit then 4
    else if |arg2| == FieldLimit then 3
    else if |arg| == FieldLimit then 2
    else if |cmd| == FieldLimit then 1
    else 0
  }

  /** What the source's character scans leave in `cmd`, `arg`, `arg2`, `arg3`,
      `bad` and `too_many` for one line read from the file. */
  function Tokenize(buf: string): (t: Tokens)
    ensures |t.cmd| <= FieldLimit && |t.arg| <= FieldLimit && |t.arg2| <= FieldLimit && |t.arg3| <= FieldLimit
    ensures t.bad == 0 <==> |t.cmd| < FieldLimit && |t.arg| < FieldLimit && |t.arg2| < FieldLimit && |t.arg3| < FieldLimit
  {
    var line := StripLine(buf);
    var (c, r1) := Scan(line);
    var (a, r2) := Scan(r1);
    var (a2, r3) := Scan(r2);
    var (a3, r4) := Scan(r3);
    Tokens(c, a, a2, a3, BadCode(c, a, a2, a3), LStrip(r4) != [])
  }

  /** `while (*s1 && isspace(*s1)) s1++;` */
  method SkipBlanks(line: string, i: nat) returns (j: nat)
    requires i <= |line|
    ensures i <= j <= |line|
    ensures line[j..] == LStrip(line[i..])
  {
    j := i;
    while j < |line| && IsSpace(line[j])
      invariant i <= j <= |line|
      invariant LStrip(line[j..]) == LStrip(line[i..])
    {
      assert line[j..][1..] == line[j + 1..];
      j := j + 1;
    }
  }

  /** A prefix of non-space characters that ends at the limit, at the end
      of the string or at a space is what `Span` returns. */
  lemma {:induction false} SpanOfStop(s: string, limit: nat, n: nat)
    requires n <= limit && n <= |s|
    requires forall k :: 0 <= k < n ==> !IsSpace(s[k])
    requires n == limit || n == |s| || IsSpace(s[n])
    ensures Span(s, limit) == s[..n]
  {
    if n > 0 {
      SpanOfStop(s[1..], limit - 1, n - 1);
      assert s[..n] == [s[0]] + s[1..][..n - 1];
    }
  }

  /** `while (*s1 && !isspace(*s1) && s2 < &buf[255]) *s2++ = *s1++;` */
  method CopyField(line: string, i: nat) returns (field: string, j: nat)
    requires i <= |line|
    ensures field == Span(line[i..], FieldLimit)
    ensures j == i + |field| <= |line|
  {
    field := [];
    j := i;
    while j < |line| && !IsSpace(line[j]) && |field| < FieldLimit
      invariant i <= j <= |line|
      invariant field == line[i..j]
      invariant |field| <= FieldLimit
      invariant forall k :: i <= k < j ==> !IsSpace(line[k])
    {
      field := field + [line[j]];
      j := j + 1;
    }
    SpanOfStop(line[i..], FieldLimit, j - i);
  }

  /** One blank skip and one field copy: a `Scan` of what is left. */
  method NextField(line: string, p: nat) returns (field: string, q: nat)
    requires p <= |line|
    ensures p <= q <= |line|
    ensures Scan(line[p..]) == (field, line[q..])
  {
    var j := SkipBlanks(line, p);
    field, q := CopyField(line, j);
    ghost var t := LStrip(line[p..]);
    assert t == line[j..];
    assert t[|field|..] == line[q..];
    assert Scan(line[p..]) == (Span(t, FieldLimit), t[|field|..]);
  }

  /** The tokenising part of the file loop of `cfg_setbind`, written as the
      source writes it. */
  method SplitLine(buf: string) returns (t: Tokens)
    ensures t == Tokenize(buf)
  {
    var line := StripLine(buf);
    assert line[0..] == line;
    var cmd, s1 := NextField(line, 0);
    var arg, s2 := NextField(line, s1);
    var arg2, s3 := NextField(line, s2);
    var arg3, s4 := NextField(line, s3);
    var rest := SkipBlanks(line, s4);
    var bad := 0;
    if |cmd| == FieldLimit { bad := 1; }
    if |arg| == FieldLimit { bad := 2; }
    if |arg2| == FieldLimit { bad := 3; }
    if |arg3| == FieldLimit { bad := 4; }
    t := Tokens(cmd, arg, arg2, arg3, bad, rest < |line|);
  }
}
