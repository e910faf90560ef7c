/**
 * The text format of call metadata: printed by Dart (lib/synurang.dart,
 * invokeBackendAsync), parsed by Go (cmd/server/main.go).  Strings are their UTF-8
 * bytes, in which the separators occur only as themselves.
 */
module MetadataCodec {
  import opened Basics

  const NEWLINE: byte := 10
  const EQUALS: byte := 61
  const MINUS: byte := 45

  /** "__timeout_ms" */
  const TIMEOUT_KEY: Bytes := [95, 95, 116, 105, 109, 101, 111, 117, 116, 95, 109, 115]

  datatype Entry = Entry(key: Bytes, value: Bytes)

  // ----- numbers -----

  function Digits(n: nat): (r: Bytes)
    ensures r != [] && forall b | b in r :: IsDigit(b)
  {
    if n < 10 then [(n + 48) as byte] else Digits(n / 10) + [(n % 10 + 48) as byte]
  }

  predicate IsDigit(b: byte) {
    48 <= b <= 57
  }

  function Decimal(x: int): Bytes {
    if x < 0 then [MINUS] + Digits(-x) else Digits(x)
  }

  /** The number that the leading digits spell, continuing `acc`. */
  function ScanDigits(v: Bytes, acc: nat): nat {
    if v == [] || !IsDigit(v[0]) then acc else ScanDigits(v[1..], 10 * acc + (v[0] as nat - 48))
  }

  function SkipSpaces(v: Bytes): Bytes {
    if v != [] && (v[0] == 32 || 9 <= v[0] <= 13) then SkipSpaces(v[1..]) else v
  }

  /** Sscanf with "%d": blanks, an optional sign, at least one digit; fails outside int64. */
  function ScanInt(v: Bytes): Option<int> {
    var w := SkipSpaces(v);
    var signed := w != [] && (w[0] == MINUS || w[0] == 43);
    var ds := if signed then w[1..] else w;
    if ds == [] || !IsDigit(ds[0]) then None
    else
      var n := ScanDigits(ds, 0);
      var x: int := if signed && w[0] == MINUS then -(n as int) else n;
      if IsInt64(x) then Some(x) else None
  }

  lemma {:induction false} ScanOneMore(v: Bytes, d: byte, acc: nat)
    requires IsDigit(d) && forall b | b in v :: IsDigit(b)
    ensures ScanDigits(v + [d], acc) == 10 * ScanDigits(v, acc) + (d as nat - 48)
  {
    if v == [] {
      assert [d][1..] == [];
    } else {
      assert v[0] in v && (v + [d])[1..] == v[1..] + [d];
      ScanOneMore(v[1..], d, 10 * acc + (v[0] as nat - 48));
    }
  }

  lemma {:induction false} ScanUndoesDigits(n: nat)
    ensures ScanDigits(Digits(n), 0) == n
  {
    if n < 10 {
      assert Digits(n)[1..] == [];
    } else {
      ScanUndoesDigits(n / 10);
      ScanOneMore(Digits(n / 10), (n % 10 + 48) as byte, 0);
    }
  }

  lemma ScanUndoesDecimal(x: int)
    requires IsInt64(x)
    ensures ScanInt(Decimal(x)) == Some(x)
    ensures NEWLINE !in Decimal(x)
  {
    var ds := Digits(if x < 0 then -x else x);
    assert ds[0] in ds;
    ScanUndoesDigits(if x < 0 then -x else x);
    if x < 0 {
      assert Decimal(x)[1..] == ds;
    }
  }

  predicate IsBlank(b: byte) {
    b == 32 || 9 <= b <= 13
  }

  /** The number that digits spell. */
  function Number(digits: Bytes): nat
    requires forall b | b in digits :: IsDigit(b)
  {
    if digits == [] then 0
    else
      var last := digits[|digits|-1];
      assert IsDigit(last);
      10 * Number(digits[..|digits|-1]) + (last as nat - 48)
  }

  lemma {:induction false} ScanStops(digits: Bytes, rest: Bytes, acc: nat)
    requires (forall b | b in digits :: IsDigit(b)) && (rest == [] || !IsDigit(rest[0]))
    ensures ScanDigits(digits + rest, acc) == ScanDigits(digits, acc)
  {
    if digits == [] {
      assert digits + rest == rest;
    } else {
      assert digits[0] in digits && (digits + rest)[1..] == digits[1..] + rest;
      ScanStops(digits[1..], rest, 10 * acc + (digits[0] as nat - 48));
    }
  }

  lemma {:induction false} ScanIsNumber(digits: Bytes)
    requires forall b | b in digits :: IsDigit(b)
    ensures ScanDigits(digits, 0) == Number(digits)
  {
    if digits != [] {
      var front, last := digits[..|digits|-1], digits[|digits|-1];
      assert digits == front + [last];
      ScanIsNumber(front);
      ScanOneMore(front, last, 0);
    }
  }

  lemma {:induction false} BlanksSkipped(blanks: Bytes, text: Bytes)
    requires (forall b | b in blanks :: IsBlank(b)) && text != [] && !IsBlank(text[0])
    ensures SkipSpaces(blanks + text) == text
  {
    if blanks == [] {
      assert blanks + text == text;
    } else {
      assert blanks[0] in blanks && (blanks + text)[1..] == blanks[1..] + text;
      BlanksSkipped(blanks[1..], text);
    }
  }

  /** What Sscanf reads: blanks, at most one sign, and digits up to anything else, unless they exceed 64 bits. */
  lemma ScanReads(blanks: Bytes, sign: Bytes, digits: Bytes, rest: Bytes)
    requires (forall b | b in blanks :: IsBlank(b)) && (sign == [] || sign == [MINUS] || sign == [43])
    requires digits != [] && (forall b | b in digits :: IsDigit(b)) && (rest == [] || !IsDigit(rest[0]))
    ensures var x: int := if sign == [MINUS] then -(Number(digits) as int) else Number(digits);
      ScanInt(blanks + sign + digits + rest) == if IsInt64(x) then Some(x) else None
  {
    var text := sign + digits + rest;
    assert digits[0] in digits;
    assert blanks + sign + digits + rest == blanks + text;
    BlanksSkipped(blanks, text);
    if sign == [] {
      assert text == digits + rest;
    } else {
      assert text[1..] == digits + rest;
    }
    ScanStops(digits, rest, 0);
    ScanIsNumber(digits);
  }

  // ----- lines -----

  /** The first position of `ch`, or -1. */
  function FirstIndex(data: Bytes, ch: byte): (r: int)
    ensures r == -1 <==> ch !in data
    ensures r >= 0 ==> r < |data| && data[r] == ch && ch !in data[..r]
    ensures r >= -1
  {
    if data == [] then -1
    else if data[0] == ch then 0
    else
      var i := FirstIndex(data[1..], ch);
      assert i >= 0 ==> data[..i + 1] == [data[0]] + data[1..][..i];
      if i == -1 then -1 else i + 1
  }

  /** The lines of a text; a terminator at the very end starts no further line. */
  function Lines(data: Bytes): seq<Bytes> {
    if data == [] then []
    else
      var i := FirstIndex(data, NEWLINE);
      if i == -1 then [data] else [data[..i]] + Lines(data[i + 1..])
  }

  /** The lines written out again, each with a terminator. */
  function Unlines(lines: seq<Bytes>): Bytes {
    if lines == [] then [] else lines[0] + [NEWLINE] + Unlines(lines[1..])
  }

  lemma {:induction false} FirstIndexAt(a: Bytes, ch: byte, b: Bytes)
    requires ch !in a
    ensures FirstIndex(a + [ch] + b, ch) == |a|
  {
    var s := a + [ch] + b;
    if a != [] {
      assert s[0] == a[0] && a[0] in a;
      assert s[1..] == a[1..] + [ch] + b;
      FirstIndexAt(a[1..], ch, b);
    }
  }

  /** Either the text has no terminator, or its first line splits off. */
  lemma FirstLine(data: Bytes) returns (line: Bytes, rest: Bytes)
    requires NEWLINE in data
    ensures data == line + [NEWLINE] + rest && NEWLINE !in line && |rest| < |data|
    ensures Lines(data) == [line] + Lines(rest)
  {
    var i := FirstIndex(data, NEWLINE);
    line, rest := data[..i], data[i + 1..];
  }

  lemma LineSplitsOff(line: Bytes, rest: Bytes)
    requires NEWLINE !in line
    ensures Lines(line + [NEWLINE] + rest) == [line] + Lines(rest)
  {
    var data := line + [NEWLINE] + rest;
    FirstIndexAt(line, NEWLINE, rest);
    assert data[..|line|] == line && data[|line| + 1..] == rest;
  }

  lemma UnlinesCons(line: Bytes, lines: seq<Bytes>)
    ensures Unlines([line] + lines) == line + [NEWLINE] + Unlines(lines)
  {
    assert ([line] + lines)[1..] == lines;
  }

  /** The text with a final terminator, unless it is empty or has one. */
  function Terminated(data: Bytes): Bytes {
    if data == [] || data[|data|-1] == NEWLINE then data else data + [NEWLINE]
  }

  lemma TerminatedTail(line: Bytes, rest: Bytes)
    ensures Terminated(line + [NEWLINE] + rest) == line + [NEWLINE] + Terminated(rest)
  {
    var data := line + [NEWLINE] + rest;
    if rest == [] {
      assert data == line + [NEWLINE];
    } else {
      assert data[|data|-1] == rest[|rest|-1];
      assert data + [NEWLINE] == line + [NEWLINE] + (rest + [NEWLINE]);
    }
  }

  /** Splitting loses nothing but the terminators, and no line contains one. */
  lemma {:induction false} SplittingLosesNothing(data: Bytes)
    ensures Unlines(Lines(data)) == Terminated(data)
    ensures forall line | line in Lines(data) :: NEWLINE !in line
    decreases |data|
  {
    if NEWLINE in data {
      var line, rest := FirstLine(data);
      SplittingLosesNothing(rest);
      UnlinesCons(line, Lines(rest));
      TerminatedTail(line, rest);
    } else if data != [] {
      UnlinesCons(data, []);
      assert [data] + [] == [data];
      assert data[|data|-1] in data;
    }
  }

  lemma {:induction false} UnlinesSnoc(lines: seq<Bytes>, line: Bytes)
    ensures Unlines(lines + [line]) == Unlines(lines) + line + [NEWLINE]
  {
    if lines == [] {
      assert [] + [line] == [line];
      UnlinesCons(line, []);
    } else {
      UnlinesSnoc(lines[1..], line);
      assert (lines + [line])[1..] == lines[1..] + [line];
    }
  }

  lemma Attach<T>(a: seq<T>, b: seq<T>, c: seq<T>)
    ensures a + b + c == a + (b + c)
  {
  }

  /** Lines and what follows the last terminator are all that splitting finds in a text. */
  lemma {:induction false} LinesOfUnlines(lines: seq<Bytes>, last: Bytes)
    requires NEWLINE !in last && forall line | line in lines :: NEWLINE !in line
    ensures Lines(Unlines(lines) + last) == lines + if last == [] then [] else [last]
  {
    if lines == [] {
      assert [] + last == last;
    } else {
      var head, text := lines[0], Unlines(lines[1..]);
      LinesOfUnlines(lines[1..], last);
      LineSplitsOff(head, text + last);
      Attach(head + [NEWLINE], text, last);
      Attach([head], lines[1..], if last == [] then [] else [last]);
      assert lines == [head] + lines[1..];
    }
  }

  // ----- printing and parsing -----

  function Line(k: Bytes, v: Bytes): Bytes {
    k + [EQUALS] + v + [NEWLINE]
  }

  function PrintEntries(es: seq<Entry>): Bytes {
    if es == [] then [] else PrintEntries(es[..|es|-1]) + Line(es[|es|-1].key, es[|es|-1].value)
  }

  function Print(es: seq<Entry>, timeout: Option<int>): Bytes {
    (if timeout.Some? then Line(TIMEOUT_KEY, Decimal(timeout.value)) else []) + PrintEntries(es)
  }

  datatype Parsed = Parsed(meta: map<Bytes, Bytes>, timeoutMs: int)

  /** What one line adds. */
  function ParseLine(p: Parsed, line: Bytes): Parsed {
    var i := FirstIndex(line, EQUALS);
    if i <= 0 then p
    else
      var key, value := line[..i], line[i + 1..];
      if key == TIMEOUT_KEY then (match ScanInt(value) case Some(x) => p.(timeoutMs := x) case None => p)
      else p.(meta := p.meta[key := value])
  }

  function ParseLines(p: Parsed, lines: seq<Bytes>): Parsed {
    if lines == [] then p else ParseLine(ParseLines(p, lines[..|lines|-1]), lines[|lines|-1])
  }

  function Parse(data: Bytes): Parsed {
    ParseLines(Parsed(map[], 0), Lines(data))
  }

  /** Metadata that the format can carry. */
  predicate Clean(m: map<Bytes, Bytes>) {
    forall k | k in m :: CleanKey(k) && NEWLINE !in m[k]
  }

  predicate CleanKey(k: Bytes) {
    k != [] && EQUALS !in k && NEWLINE !in k && k != TIMEOUT_KEY
  }

  /** The entries of a map, in some order. */
  predicate EntriesOf(m: map<Bytes, Bytes>, es: seq<Entry>) {
    && (forall i, j | 0 <= i < j < |es| :: es[i].key != es[j].key)
    && (forall i | 0 <= i < |es| :: es[i].key in m && m[es[i].key] == es[i].value)
    && (forall k | k in m :: exists i :: 0 <= i < |es| && es[i].key == k)
  }

  function Entered(es: seq<Entry>): map<Bytes, Bytes> {
    if es == [] then map[] else Entered(es[..|es|-1])[es[|es|-1].key := es[|es|-1].value]
  }

  lemma {:induction false} EnteredHas(es: seq<Entry>)
    requires forall i, j | 0 <= i < j < |es| :: es[i].key != es[j].key
    ensures forall i | 0 <= i < |es| :: es[i].key in Entered(es) && Entered(es)[es[i].key] == es[i].value
    ensures forall k | k in Entered(es) :: exists i :: 0 <= i < |es| && es[i].key == k
  {
    if es != [] {
      EnteredHas(es[..|es|-1]);
      assert forall i | 0 <= i < |es| - 1 :: es[..|es|-1][i] == es[i];
    }
  }

  lemma EnteredIsMap(m: map<Bytes, Bytes>, es: seq<Entry>)
    requires EntriesOf(m, es)
    ensures Entered(es) == m
  {
    EnteredHas(es);
    assert forall k :: k in Entered(es) <==> k in m;
  }

  /** Text after which a new line starts. */
  predicate EndsLine(text: Bytes) {
    text == [] || text[|text|-1] == NEWLINE
  }

  lemma {:induction false} LinesAppend(text: Bytes, line: Bytes)
    requires NEWLINE !in line && EndsLine(text)
    ensures Lines(text + line + [NEWLINE]) == Lines(text) + [line]
    decreases |text|
  {
    if text == [] {
      LinesOfOne(line);
      assert text + line + [NEWLINE] == line + [NEWLINE];
    } else {
      assert text[|text|-1] in text;
      var head, tail := FirstLine(text);
      LastOfTail(head, tail);
      LinesAppend(tail, line);
      Regroup(head, tail, line);
      PrependLine(head, tail + line + [NEWLINE], Lines(tail), line);
    }
  }

  lemma LinesOfOne(line: Bytes)
    requires NEWLINE !in line
    ensures Lines(line + [NEWLINE]) == [line]
  {
    LineSplitsOff(line, []);
    assert line + [NEWLINE] + [] == line + [NEWLINE];
    assert [line] + [] == [line];
  }

  lemma Regroup(head: Bytes, tail: Bytes, line: Bytes)
    ensures head + [NEWLINE] + tail + line + [NEWLINE] == head + [NEWLINE] + (tail + line + [NEWLINE])
  {
  }

  lemma LastOfTail(head: Bytes, tail: Bytes)
    ensures tail != [] ==> (head + [NEWLINE] + tail)[|head| + |tail|] == tail[|tail|-1]
  {
  }

  lemma PrependLine(head: Bytes, text: Bytes, lines: seq<Bytes>, last: Bytes)
    requires NEWLINE !in head && Lines(text) == lines + [last]
    ensures Lines(head + [NEWLINE] + text) == [head] + lines + [last]
  {
    LineSplitsOff(head, text);
    Attach([head], lines, [last]);
  }

  lemma ParseEntryLine(p: Parsed, k: Bytes, v: Bytes)
    requires k != [] && EQUALS !in k
    ensures ParseLine(p, k + [EQUALS] + v) ==
      if k == TIMEOUT_KEY then (match ScanInt(v) case Some(x) => p.(timeoutMs := x) case None => p)
      else p.(meta := p.meta[k := v])
  {
    var line := k + [EQUALS] + v;
    FirstIndexAt(k, EQUALS, v);
    assert line[..|k|] == k && line[|k| + 1..] == v;
  }

  function TimeoutMs(timeout: Option<int>): int {
    if timeout.Some? then timeout.value else 0
  }

  lemma ParseLinesSnoc(p: Parsed, lines: seq<Bytes>, line: Bytes)
    ensures ParseLines(p, lines + [line]) == ParseLine(ParseLines(p, lines), line)
  {
    assert (lines + [line])[..|lines|] == lines;
  }

  /** Parsing a text with one more line for `k` and `v`. */
  lemma ParseOneMore(text: Bytes, k: Bytes, v: Bytes)
    requires k != [] && EQUALS !in k && NEWLINE !in k && NEWLINE !in v
    requires EndsLine(text)
    ensures Parse(text + Line(k, v)) == ParseLine(Parse(text), k + [EQUALS] + v)
  {
    var line := k + [EQUALS] + v;
    assert text + Line(k, v) == text + line + [NEWLINE];
    LinesAppend(text, line);
    ParseLinesSnoc(Parsed(map[], 0), Lines(text), line);
  }

  lemma ParseUndoesPrintTimeout(timeout: Option<int>)
    requires timeout.Some? ==> IsInt64(timeout.value)
    ensures Parse(Print([], timeout)) == Parsed(map[], TimeoutMs(timeout))
    ensures EndsLine(Print([], timeout))
  {
    if timeout.Some? {
      var v := Decimal(timeout.value);
      ScanUndoesDecimal(timeout.value);
      ParseOneMore([], TIMEOUT_KEY, v);
      ParseEntryLine(Parsed(map[], 0), TIMEOUT_KEY, v);
      assert Print([], timeout) == [] + Line(TIMEOUT_KEY, v);
    }
  }

  lemma {:induction false} ParseUndoesPrintEntries(es: seq<Entry>, timeout: Option<int>)
    requires forall e | e in es :: CleanKey(e.key) && NEWLINE !in e.value
    requires timeout.Some? ==> IsInt64(timeout.value)
    ensures Parse(Print(es, timeout)) == Parsed(Entered(es), TimeoutMs(timeout))
    ensures EndsLine(Print(es, timeout))
    decreases |es|
  {
    if es == [] {
      ParseUndoesPrintTimeout(timeout);
    } else {
      var front, e := es[..|es|-1], es[|es|-1];
      ParseUndoesPrintEntries(front, timeout);
      assert e in es && es == front + [e];
      ParsePrintedEntry(front, e, timeout);
    }
  }

  lemma ParsePrintedEntry(front: seq<Entry>, e: Entry, timeout: Option<int>)
    requires CleanKey(e.key) && NEWLINE !in e.value && EndsLine(Print(front, timeout))
    requires Parse(Print(front, timeout)) == Parsed(Entered(front), TimeoutMs(timeout))
    ensures Parse(Print(front + [e], timeout)) == Parsed(Entered(front + [e]), TimeoutMs(timeout))
    ensures EndsLine(Print(front + [e], timeout))
  {
    var text := Print(front, timeout);
    PrintOneMore(front, e, timeout);
    ParseOneMore(text, e.key, e.value);
    ParseEntryLine(Parse(text), e.key, e.value);
    assert (front + [e])[..|front|] == front;
    assert (text + Line(e.key, e.value))[|text + Line(e.key, e.value)|-1] == NEWLINE;
  }

  lemma PrintOneMore(es: seq<Entry>, e: Entry, timeout: Option<int>)
    ensures Print(es + [e], timeout) == Print(es, timeout) + Line(e.key, e.value)
  {
    assert (es + [e])[..|es|] == es;
  }

  lemma {:induction false} ParsedIsClean(lines: seq<Bytes>)
    requires forall line | line in lines :: NEWLINE !in line
    ensures Clean(ParseLines(Parsed(map[], 0), lines).meta)
  {
    if lines != [] {
      ParsedIsClean(lines[..|lines|-1]);
      var line := lines[|lines|-1];
      assert line in lines;
      var i := FirstIndex(line, EQUALS);
      if i > 0 {
        assert NEWLINE !in line[..i] && NEWLINE !in line[i + 1..];
      }
    }
  }

  /**
   * Parsing undoes printing: for metadata that the format can carry, in whatever order
   * its entries are printed, and any optional 64-bit timeout.
   */
  lemma ParseUndoesPrint(m: map<Bytes, Bytes>, es: seq<Entry>, timeout: Option<int>)
    requires EntriesOf(m, es) && Clean(m) && (timeout.Some? ==> IsInt64(timeout.value))
    ensures Parse(Print(es, timeout)) == Parsed(m, TimeoutMs(timeout))
  {
    forall e | e in es
      ensures CleanKey(e.key) && NEWLINE !in e.value
    {
      var i :| 0 <= i < |es| && es[i] == e;
      assert es[i].key in m;
    }
    ParseUndoesPrintEntries(es, timeout);
    EnteredIsMap(m, es);
  }

  /** The metadata comes back exactly when it is clean, whatever the order and the timeout. */
  lemma RoundTripIffClean(m: map<Bytes, Bytes>, es: seq<Entry>, timeout: Option<int>)
    requires EntriesOf(m, es) && (timeout.Some? ==> IsInt64(timeout.value))
    ensures Parse(Print(es, timeout)).meta == m <==> Clean(m)
  {
    if Clean(m) {
      ParseUndoesPrint(m, es, timeout);
    }
    SplittingLosesNothing(Print(es, timeout));
    ParsedIsClean(Lines(Print(es, timeout)));
  }

  /** A value with a newline does not come back: the parser keeps what is before it. */
  lemma NewlineIsLost()
    ensures var m := map[[97] := [98, NEWLINE, 99]];
      EntriesOf(m, [Entry([97], [98, NEWLINE, 99])]) && Parse(Print([Entry([97], [98, NEWLINE, 99])], None)).meta != m
  {
    var m: map<Bytes, Bytes>, es := map[[97] := [98, NEWLINE, 99]], [Entry([97], [98, NEWLINE, 99])];
    assert es[0].key in m && m[es[0].key] == es[0].value;
    assert NEWLINE == m[[97]][1];
    assert !Clean(m);
    RoundTripIffClean(m, es, None);
  }

  // ----- what any text means -----

  /** The line gives the value `v` to the key `k`. */
  predicate Assigns(line: Bytes, k: Bytes, v: Bytes) {
    k != [] && EQUALS !in k && line == k + [EQUALS] + v
  }

  lemma AssignsOne(line: Bytes, k: Bytes, v: Bytes)
    ensures var i := FirstIndex(line, EQUALS);
      Assigns(line, k, v) <==> i > 0 && k == line[..i] && v == line[i + 1..]
  {
    if Assigns(line, k, v) {
      FirstIndexAt(k, EQUALS, v);
      assert line[..|k|] == k && line[|k| + 1..] == v;
    } else if FirstIndex(line, EQUALS) > 0 {
      var i := FirstIndex(line, EQUALS);
      assert line == line[..i] + [EQUALS] + line[i + 1..];
    }
  }

  /** The last of the lines that gives `k` a value gives it `v`. */
  ghost predicate LastIs(lines: seq<Bytes>, k: Bytes, v: Bytes) {
    exists i :: 0 <= i < |lines| && Assigns(lines[i], k, v) && forall j, w | i < j < |lines| :: !Assigns(lines[j], k, w)
  }

  /** The last of the lines that gives a readable time-out gives `x`. */
  ghost predicate LastTimeoutIs(lines: seq<Bytes>, x: int) {
    exists i, v :: 0 <= i < |lines| && Assigns(lines[i], TIMEOUT_KEY, v) && ScanInt(v) == Some(x)
      && forall j, w | i < j < |lines| && Assigns(lines[j], TIMEOUT_KEY, w) :: ScanInt(w).None?
  }

  lemma LastSnoc(lines: seq<Bytes>, line: Bytes, k: Bytes, v: Bytes)
    ensures LastIs(lines + [line], k, v) <==>
      Assigns(line, k, v) || (LastIs(lines, k, v) && forall w :: !Assigns(line, k, w))
  {
    var more := lines + [line];
    assert more[|lines|] == line;
    if LastIs(lines, k, v) {
      var i :| 0 <= i < |lines| && Assigns(lines[i], k, v) && forall j, w | i < j < |lines| :: !Assigns(lines[j], k, w);
      assert Assigns(more[i], k, v);
    }
    if LastIs(more, k, v) {
      var i :| 0 <= i < |more| && Assigns(more[i], k, v) && forall j, w | i < j < |more| :: !Assigns(more[j], k, w);
      if i < |lines| {
        assert Assigns(lines[i], k, v);
        forall j, w | i < j < |lines|
          ensures !Assigns(lines[j], k, w)
        {
          assert more[j] == lines[j];
        }
      }
    }
  }

  lemma LastTimeoutSnoc(lines: seq<Bytes>, line: Bytes, v: Bytes, x: int)
    requires forall w :: Assigns(line, TIMEOUT_KEY, w) ==> w == v
    ensures LastTimeoutIs(lines + [line], x) <==>
      if Assigns(line, TIMEOUT_KEY, v) && ScanInt(v).Some? then ScanInt(v) == Some(x) else LastTimeoutIs(lines, x)
  {
    var more := lines + [line];
    assert more[|lines|] == line;
    if LastTimeoutIs(lines, x) {
      var i, w :| 0 <= i < |lines| && Assigns(lines[i], TIMEOUT_KEY, w) && ScanInt(w) == Some(x)
        && forall j, u | i < j < |lines| && Assigns(lines[j], TIMEOUT_KEY, u) :: ScanInt(u).None?;
      assert Assigns(more[i], TIMEOUT_KEY, w);
    }
    if LastTimeoutIs(more, x) {
      var i, w :| 0 <= i < |more| && Assigns(more[i], TIMEOUT_KEY, w) && ScanInt(w) == Some(x)
        && forall j, u | i < j < |more| && Assigns(more[j], TIMEOUT_KEY, u) :: ScanInt(u).None?;
      if i < |lines| {
        assert Assigns(lines[i], TIMEOUT_KEY, w);
        forall j, u | i < j < |lines| && Assigns(lines[j], TIMEOUT_KEY, u)
          ensures ScanInt(u).None?
        {
          assert more[j] == lines[j];
        }
      }
    }
  }

  lemma LineAdds(p: Parsed, line: Bytes, k: Bytes, v: Bytes)
    requires Assigns(line, k, v)
    ensures ParseLine(p, line) ==
      if k == TIMEOUT_KEY then (if ScanInt(v).Some? then p.(timeoutMs := ScanInt(v).value) else p)
      else p.(meta := p.meta[k := v])
  {
    AssignsOne(line, k, v);
  }

  lemma LineAddsNothing(p: Parsed, line: Bytes)
    requires forall k, v :: !Assigns(line, k, v)
    ensures ParseLine(p, line) == p
  {
    var i := FirstIndex(line, EQUALS);
    if i > 0 {
      AssignsOne(line, line[..i], line[i + 1..]);
    }
  }

  /** What the lines so far mean. */
  ghost predicate Means(p: Parsed, lines: seq<Bytes>) {
    && (forall k, v :: k in p.meta && p.meta[k] == v <==> k != TIMEOUT_KEY && LastIs(lines, k, v))
    && (forall x :: LastTimeoutIs(lines, x) ==> p.timeoutMs == x)
    && (p.timeoutMs != 0 ==> LastTimeoutIs(lines, p.timeoutMs))
  }

  lemma OneLineMeans(p: Parsed, lines: seq<Bytes>, line: Bytes)
    requires Means(p, lines)
    ensures Means(ParseLine(p, line), lines + [line])
  {
    var key, value := [], [];
    if k, v :| Assigns(line, k, v) {
      key, value := k, v;
      LineAdds(p, line, k, v);
    } else {
      LineAddsNothing(p, line);
    }
    forall k, v
      ensures Assigns(line, k, v) ==> k == key && v == value
    {
      AssignsOne(line, k, v);
      AssignsOne(line, key, value);
    }
    LineMeansKeys(p, lines, line, key, value);
    LineMeansTimeout(p, lines, line, key, value);
  }

  lemma LineMeansKeys(p: Parsed, lines: seq<Bytes>, line: Bytes, key: Bytes, value: Bytes)
    requires Means(p, lines) && forall k, v :: Assigns(line, k, v) ==> k == key && v == value
    requires ParseLine(p, line).meta ==
      if Assigns(line, key, value) && key != TIMEOUT_KEY then p.meta[key := value] else p.meta
    ensures var q := ParseLine(p, line);
      forall k, v :: k in q.meta && q.meta[k] == v <==> k != TIMEOUT_KEY && LastIs(lines + [line], k, v)
  {
    forall k, v
      ensures var q := ParseLine(p, line);
        k in q.meta && q.meta[k] == v <==> k != TIMEOUT_KEY && LastIs(lines + [line], k, v)
    {
      LastSnoc(lines, line, k, v);
    }
  }

  lemma LineMeansTimeout(p: Parsed, lines: seq<Bytes>, line: Bytes, key: Bytes, value: Bytes)
    requires Means(p, lines) && forall k, v :: Assigns(line, k, v) ==> k == key && v == value
    requires ParseLine(p, line).timeoutMs ==
      if Assigns(line, TIMEOUT_KEY, value) && ScanInt(value).Some? then ScanInt(value).value else p.timeoutMs
    ensures var q := ParseLine(p, line);
      && (forall x :: LastTimeoutIs(lines + [line], x) ==> q.timeoutMs == x)
      && (q.timeoutMs != 0 ==> LastTimeoutIs(lines + [line], q.timeoutMs))
  {
    forall x
      ensures LastTimeoutIs(lines + [line], x) <==>
        if Assigns(line, TIMEOUT_KEY, value) && ScanInt(value).Some? then ScanInt(value) == Some(x)
        else LastTimeoutIs(lines, x)
    {
      LastTimeoutSnoc(lines, line, value, x);
    }
  }

  lemma {:induction false} LinesMean(lines: seq<Bytes>)
    ensures Means(ParseLines(Parsed(map[], 0), lines), lines)
  {
    if lines != [] {
      var front := lines[..|lines|-1];
      LinesMean(front);
      OneLineMeans(ParseLines(Parsed(map[], 0), front), front, lines[|lines|-1]);
      assert front + [lines[|lines|-1]] == lines;
    }
  }

  /**
   * The meaning of any text whatever: each key other than that of the time-out has the
   * value that the last line which assigns to it gives it, and no other key is there; the
   * time-out is what the last line with a readable one says, or 0 if there is none.
   */
  lemma ParseFindsLast(data: Bytes)
    ensures Means(Parse(data), Lines(data))
    ensures (forall x :: !LastTimeoutIs(Lines(data), x)) ==> Parse(data).timeoutMs == 0
  {
    LinesMean(Lines(data));
  }

  // ----- the source's form -----

  method IndexOf(data: Bytes, ch: byte) returns (r: int)
    ensures r == FirstIndex(data, ch)
  {
    for i := 0 to |data|
      invariant ch !in data[..i]
    {
      if data[i] == ch {
        FirstIndexAt(data[..i], ch, data[i + 1..]);
        assert data[..i] + [ch] + data[i + 1..] == data;
        return i;
      }
    }
    assert data[..|data|] == data;
    return -1;
  }

  method SplitLines(data: Bytes) returns (lines: seq<Bytes>)
    ensures lines == Lines(data)
  {
    lines := [];
    var start := 0;
    for i := 0 to |data|
      invariant start <= i
      invariant forall j | start <= j < i :: data[j] != NEWLINE
      invariant Unlines(lines) == data[..start]
      invariant forall line | line in lines :: NEWLINE !in line
    {
      if data[i] == NEWLINE {
        UnlinesSnoc(lines, data[start..i]);
        TakeLine(data, start, i);
        lines := lines + [data[start..i]];
        start := i + 1;
      }
    }
    LinesOfUnlines(lines, data[start..]);
    assert data[..start] + data[start..] == data;
    if start < |data| {
      lines := lines + [data[start..]];
    }
  }

  lemma TakeLine(data: Bytes, start: nat, i: nat)
    requires start <= i < |data|
    ensures data[..start] + data[start..i] + [data[i]] == data[..i + 1]
  {
    assert data[..i] == data[..start] + data[start..i];
  }

  method ParseMetadata(data: Bytes) returns (meta: map<Bytes, Bytes>, timeoutMs: int)
    ensures Parsed(meta, timeoutMs) == Parse(data)
  {
    meta, timeoutMs := map[], 0;
    if |data| == 0 {
      return;
    }
    var lines := SplitLines(data);
    for n := 0 to |lines|
      invariant Parsed(meta, timeoutMs) == ParseLines(Parsed(map[], 0), lines[..n])
    {
      assert lines[..n + 1][..n] == lines[..n];
      var line := lines[n];
      if |line| > 0 {
        var idx := IndexOf(line, EQUALS);
        if idx > 0 {
          var key, value := line[..idx], line[idx + 1..];
          if key == TIMEOUT_KEY {
            var x := ScanInt(value);
            if x.Some? {
              timeoutMs := x.value;
            }
          } else {
            meta := meta[key := value];
          }
        }
      }
    }
    assert lines[..|lines|] == lines;
  }

  /** The Dart side: a buffer that grows by one line per entry. */
  method EncodeMetadata(entries: seq<Entry>, timeout: Option<int>) returns (buffer: Bytes)
    ensures buffer == Print(entries, timeout)
  {
    buffer := [];
    if timeout.Some? {
      buffer := buffer + Line(TIMEOUT_KEY, Decimal(timeout.value));
    }
    for n := 0 to |entries|
      invariant buffer == Print(entries[..n], timeout)
    {
      assert entries[..n + 1] == entries[..n] + [entries[n]];
      PrintOneMore(entries[..n], entries[n], timeout);
      buffer := buffer + Line(entries[n].key, entries[n].value);
    }
    assert entries[..|entries|] == entries;
  }
}
