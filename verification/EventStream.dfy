/** How section 9.2 of the WHATWG HTML Living Standard reads the bytes of one frame, and when the
    decoder reads the same. */
module EventStream {
  import opened Wrappers
  import opened Collections
  import opened Sse

  const COLON: Byte := 58
  const DATA: Bytes := [100, 97, 116, 97]

  // ----- The standard's reading -----

  predicate EndsLine(c: Byte) { c == LF || c == CR }

  function FirstEnd(b: Bytes): (i: nat)
    ensures i <= |b| && (forall k :: 0 <= k < i ==> !EndsLine(b[k])) && (i < |b| ==> EndsLine(b[i]))
  {
    if b == [] || EndsLine(b[0]) then 0 else 1 + FirstEnd(b[1..])
  }

  /** A carriage return and line feed together end one line. */
  function EndLength(b: Bytes, i: nat): (n: nat)
    requires i < |b|
    ensures 1 <= n && i + n <= |b|
  {
    if b[i] == CR && i + 1 < |b| && b[i + 1] == LF then 2 else 1
  }

  /** Lines end with LF, CR, or CR LF. */
  function StandardLines(b: Bytes): (lines: seq<Bytes>)
    decreases |b|
  {
    var i := FirstEnd(b);
    if i == |b| then [b] else [b[..i]] + StandardLines(b[i + EndLength(b, i)..])
  }

  function FirstColon(line: Bytes): (i: nat)
    ensures i <= |line| && (forall k :: 0 <= k < i ==> line[k] != COLON) && (i < |line| ==> line[i] == COLON)
  {
    if line == [] || line[0] == COLON then 0 else 1 + FirstColon(line[1..])
  }

  function WithoutSpace(value: Bytes): (v: Bytes) {
    if |value| > 0 && value[0] == SPACE then value[1..] else value
  }

  /** The value of a data field: after the first colon, less one space; empty without a colon. */
  function DataField(line: Bytes): (value: Option<Bytes>) {
    var i := FirstColon(line);
    if line[..i] != DATA then None
    else if i == |line| then Some([])
    else Some(WithoutSpace(line[i + 1..]))
  }

  /** The data of the events dispatched so far, and the data buffer. */
  datatype Reading = Reading(events: seq<Bytes>, buffer: Bytes)

  /** An empty buffer dispatches nothing; otherwise its last line feed is dropped. */
  function Dispatch(r: Reading): (s: Reading) {
    if r.buffer == [] then r else Reading(r.events + [r.buffer[..|r.buffer| - 1]], [])
  }

  function Read(lines: seq<Bytes>): (r: Reading) {
    if lines == [] then Reading([], [])
    else
      var before, line := Read(lines[..|lines| - 1]), lines[|lines| - 1];
      if line == [] then Dispatch(before)
      else
        match DataField(line)
        case None => before
        case Some(value) => before.(buffer := before.buffer + value + [LF])
  }

  /** The data of the events of a frame, which a blank line ends. */
  function StandardEvents(frame: Bytes): (events: seq<Bytes>) {
    Dispatch(Read(StandardLines(frame))).events
  }

  /** What the decoder emits for a frame. */
  function Emitted(frame: Bytes): (events: seq<Bytes>) {
    if Payload(frame).Some? then [Payload(frame).value] else []
  }

  // ----- When the decoder reads the same -----

  function CrPieces(line: Bytes): (pieces: seq<Bytes>)
    ensures |pieces| >= 1
    decreases |line|
  {
    if CR !in line then [line]
    else
      var i := FirstCr(line);
      [line[..i]] + CrPieces(line[i + 1..])
  }

  function FirstCr(line: Bytes): (i: nat)
    requires CR in line
    ensures i < |line| && line[i] == CR && forall k :: 0 <= k < i ==> line[k] != CR
  {
    if line[0] == CR then 0 else 1 + FirstCr(line[1..])
  }

  /** A line of the decoder holds no data field it does not see: it is not a bare field name, and
      if it contains carriage returns, none of its pieces is a data field. */
  predicate Plain(line: Bytes) {
    if CR in line then forall i :: 0 <= i < |CrPieces(line)| ==> DataField(CrPieces(line)[i]).None?
    else line != DATA
  }

  /** Two data fields are separated by a blank line. */
  ghost predicate SplitByBlank(lines: seq<Bytes>) {
    exists i, j, k :: Separates(lines, i, j, k)
  }

  predicate Separates(lines: seq<Bytes>, i: int, j: int, k: int) {
    0 <= i < j < k < |lines| && DataField(lines[i]).Some? && lines[j] == [] && DataField(lines[k]).Some?
  }

  predicate AllPlain(lines: seq<Bytes>) {
    forall i :: 0 <= i < |lines| ==> Plain(StripSuffixCr(lines[i]))
  }

  /** No line hides a data field, the first data value is not empty, and no blank line comes
      between two data fields. */
  ghost predicate Conforms(frame: Bytes) {
    && AllPlain(Lines(frame))
    && (DataValues(Lines(frame)) != [] ==> DataValues(Lines(frame))[0] != [])
    && !SplitByBlank(StandardLines(frame))
  }

  // ----- Data fields, in order -----

  function FieldOf(line: Bytes): (values: seq<Bytes>) {
    if DataField(line).Some? then [DataField(line).value] else []
  }

  /** All data values of the standard's lines, whatever blank lines come between. */
  function Fields(lines: seq<Bytes>): (values: seq<Bytes>) {
    Gather(FieldOf, lines)
  }

  /** A data field is `data` alone, or `data:` and a value. */
  lemma {:induction false} DataFieldIs(line: Bytes)
    ensures DataField(line) ==
            if DATA_PREFIX <= line then Some(WithoutSpace(line[5..]))
            else if line == DATA then Some([]) else None
  {
    var i := FirstColon(line);
    if DATA_PREFIX <= line {
      assert line[4] == COLON && line[0] == 100 && line[1] == 97 && line[2] == 116 && line[3] == 97;
      assert i == 4 && line[..4] == DATA;
    } else {
      assert i == |line| ==> line[..i] == line;
      assert line == DATA ==> i == |line|;
    }
  }

  /** A line free of carriage returns is read alike unless it is a bare `data`. */
  lemma {:induction false} CrFreeLine(line: Bytes)
    requires CR !in line
    ensures DataField(line) == if line == DATA then Some([]) else DataValue(line)
    ensures line == DATA ==> DataValue(line) == None
  {
    DataFieldIs(line);
    assert StripSuffixCr(line) == line;
  }

  // ----- The standard's lines within the decoder's -----

  lemma {:induction false} NoLfIsCrPieces(b: Bytes)
    requires LF !in b
    ensures StandardLines(b) == CrPieces(b)
    decreases |b|
  {
    var i := FirstEnd(b);
    if i < |b| {
      assert b[i] == CR;
      assert FirstCr(b) == i;
      assert EndLength(b, i) == 1;
      NoLfIsCrPieces(b[i + 1..]);
    } else {
      assert CR !in b;
    }
  }

  lemma {:induction false} FirstLfIs(b: Bytes, from: nat, i: nat)
    requires from <= i < |b| && b[i] == LF && forall k :: from <= k < i ==> b[k] != LF
    ensures FirstLf(b, from) == Some(i)
    decreases i - from
  {
    if from < i {
      FirstLfIs(b, from + 1, i);
    }
  }

  lemma {:induction false} FirstLfMeans(b: Bytes, from: nat)
    ensures FirstLf(b, from).None? ==> forall k :: from <= k < |b| ==> b[k] != LF
    ensures FirstLf(b, from).Some? ==> forall k :: from <= k < FirstLf(b, from).value ==> b[k] != LF
    decreases |b| - from
  {
    if from < |b| && b[from] != LF {
      FirstLfMeans(b, from + 1);
    }
  }

  /** Up to the first line feed, the standard's lines are the pieces of the decoder's line. */
  lemma {:induction false} LfLineIsCrPieces(b: Bytes, i: nat)
    requires i < |b| && b[i] == LF && forall k :: 0 <= k < i ==> b[k] != LF
    ensures StandardLines(b) == CrPieces(StripSuffixCr(b[..i])) + StandardLines(b[i + 1..])
    decreases |b|
  {
    var j := FirstEnd(b);
    if j == i {
      assert CR !in b[..i];
    } else if j + 1 == i {
      assert b[..i][..j] == b[..j] && CR !in b[..j];
      assert StripSuffixCr(b[..i]) == b[..j];
    } else {
      LoneCr(b, i, j);
    }
  }

  lemma {:induction false} LoneCr(b: Bytes, i: nat, j: nat)
    requires i < |b| && b[i] == LF && (forall k :: 0 <= k < i ==> b[k] != LF) && j == FirstEnd(b) && j + 1 < i
    ensures StandardLines(b) == CrPieces(StripSuffixCr(b[..i])) + StandardLines(b[i + 1..])
    decreases |b|, 0
  {
    var inner := b[..i][j + 1..];
    CrCons(b, j);
    RestSlices(b, i, j);
    LfLineIsCrPieces(b[j + 1..], i - j - 1);
    PiecesCons(b[..i], j);
    Prepended(b[..j], CrPieces(StripSuffixCr(inner)), StandardLines(b[i + 1..]));
  }

  lemma {:induction false} CrCons(b: Bytes, j: nat)
    requires j == FirstEnd(b) && j + 1 < |b| && b[j] == CR && b[j + 1] != LF
    ensures StandardLines(b) == [b[..j]] + StandardLines(b[j + 1..])
  {
    assert EndLength(b, j) == 1 && j != |b|;
  }

  lemma {:induction false} Prepended(x: Bytes, pieces: seq<Bytes>, rest: seq<Bytes>)
    ensures [x] + (pieces + rest) == ([x] + pieces) + rest
  {}

  lemma {:induction false} RestSlices(b: Bytes, i: nat, j: nat)
    requires j + 1 < i < |b|
    ensures b[j + 1..][..i - j - 1] == b[..i][j + 1..]
    ensures b[j + 1..][i - j - 1 + 1..] == b[i + 1..]
    ensures b[..i][..j] == b[..j]
  {}

  lemma {:induction false} PiecesCons(line: Bytes, j: nat)
    requires j + 1 < |line| && line[j] == CR && forall k :: 0 <= k < j ==> line[k] != CR
    ensures CrPieces(StripSuffixCr(line)) == [line[..j]] + CrPieces(StripSuffixCr(line[j + 1..]))
  {
    var s := StripSuffixCr(line);
    assert s[j] == CR && CR in s;
    assert FirstCr(s) == j;
    assert s[..j] == line[..j];
    assert s[j + 1..] == StripSuffixCr(line[j + 1..]);
  }

  // ----- The data values the two readings find -----

  lemma {:induction false} FirstCrIs(b: Bytes, i: nat)
    requires i < |b| && b[i] == CR && forall k :: 0 <= k < i ==> b[k] != CR
    ensures CR in b && FirstCr(b) == i
  {}

  lemma {:induction false} TrailingCr(line: Bytes)
    ensures CrPieces(line + [CR]) == CrPieces(line) + [[]]
    decreases |line|
  {
    var b := line + [CR];
    if CR !in line {
      FirstCrIs(b, |line|);
      assert b[..|line|] == line && b[|line| + 1..] == [];
    } else {
      var i := FirstCr(line);
      FirstCrIs(b, i);
      assert b[..i] == line[..i] && b[i + 1..] == line[i + 1..] + [CR];
      TrailingCr(line[i + 1..]);
      Prepended(line[..i], CrPieces(line[i + 1..]), [[]]);
    }
  }

  /** The standard's data values within one line of the decoder. */
  function WithinLine(line: Bytes): (values: seq<Bytes>) { Fields(CrPieces(StripSuffixCr(line))) }

  function WithinLines(lines: seq<Bytes>): (values: seq<Bytes>) {
    Gather(WithinLine, lines)
  }

  lemma {:induction false} LastLineFields(b: Bytes)
    ensures Fields(CrPieces(b)) == WithinLine(b)
  {
    if |b| > 0 && b[|b| - 1] == CR {
      var line := b[..|b| - 1];
      assert b == line + [CR];
      TrailingCr(line);
      GatherAppend(FieldOf, CrPieces(line), [[]]);
      GatherOne(FieldOf, []);
      assert Fields(CrPieces(line)) + [] == Fields(CrPieces(line));
    }
  }

  /** The standard's data values of a frame are those within the decoder's lines. */
  lemma {:induction false} FrameFields(b: Bytes)
    ensures Fields(StandardLines(b)) == WithinLines(Lines(b))
    decreases |b|
  {
    FirstLfMeans(b, 0);
    match FirstLf(b, 0)
    case None =>
      NoLfIsCrPieces(b);
      LastLineFields(b);
      GatherOne(WithinLine, b);
    case Some(i) =>
      LfLineIsCrPieces(b, i);
      GatherAppend(FieldOf, CrPieces(StripSuffixCr(b[..i])), StandardLines(b[i + 1..]));
      FrameFields(b[i + 1..]);
      GatherAppend(WithinLine, [b[..i]], Lines(b[i + 1..]));
      GatherOne(WithinLine, b[..i]);
  }

  function Seen(line: Bytes): (values: seq<Bytes>) {
    if DataValue(line).Some? then [DataValue(line).value] else []
  }

  /** One line: read alike if plain; otherwise the decoder's value holds a carriage return, or the
      standard finds more. */
  lemma {:induction false} LineReads(line: Bytes)
    ensures Plain(StripSuffixCr(line)) ==> WithinLine(line) == Seen(line)
    ensures !Plain(StripSuffixCr(line)) ==>
              (Seen(line) != [] && CR in Seen(line)[0]) || |WithinLine(line)| > |Seen(line)|
  {
    var s := StripSuffixCr(line);
    if CR in s {
      GatherEmptyIff(FieldOf, CrPieces(s));
      assert forall i :: 0 <= i < |CrPieces(s)| ==> (FieldOf(CrPieces(s)[i]) == [] <==> DataField(CrPieces(s)[i]).None?);
      if DATA_PREFIX <= s {
        CrInValue(s);
      }
    } else {
      CrFreeLine(s);
      GatherOne(FieldOf, s);
      assert StripSuffixCr(s) == s;
    }
  }

  lemma {:induction false} CrInValue(s: Bytes)
    requires CR in s && DATA_PREFIX <= s
    ensures CR in WithoutSpace(s[5..])
    ensures DataField(CrPieces(s)[0]).Some?
  {
    var i := FirstCr(s);
    assert s[0] == 100 && s[1] == 97 && s[2] == 116 && s[3] == 97 && s[4] == 58;
    assert i >= 5;
    assert s[5..][i - 5] == CR;
    assert WithoutSpace(s[5..])[if s[5] == SPACE then i - 6 else i - 5] == CR;
    DataFieldIs(s[..i]);
    assert DATA_PREFIX <= s[..i];
  }

  predicate CrFree(values: seq<Bytes>) { forall i :: 0 <= i < |values| ==> CR !in values[i] }

  /** All lines: read alike if all are plain; otherwise, unless some value of the decoder holds a
      carriage return, the standard finds more. */
  lemma {:induction false} LinesRead(lines: seq<Bytes>)
    ensures AllPlain(lines) ==> WithinLines(lines) == DataValues(lines)
    ensures CrFree(DataValues(lines)) ==>
              |WithinLines(lines)| >= |DataValues(lines)| && (!AllPlain(lines) ==> |WithinLines(lines)| > |DataValues(lines)|)
  {
    SeenValues(lines);
    if AllPlain(lines) {
      forall i | 0 <= i < |lines|
        ensures WithinLine(lines[i]) == Seen(lines[i])
      {
        LineReads(lines[i]);
      }
      GatherSame(WithinLine, Seen, lines);
    } else if CrFree(DataValues(lines)) {
      forall i | 0 <= i < |lines|
        ensures |WithinLine(lines[i])| >= |Seen(lines[i])|
        ensures !Plain(StripSuffixCr(lines[i])) ==> |WithinLine(lines[i])| > |Seen(lines[i])|
      {
        LineReads(lines[i]);
        if Seen(lines[i]) != [] {
          GatherMember(Seen, lines, i, Seen(lines[i])[0]);
        }
      }
      GatherLonger(WithinLine, Seen, lines);
    }
  }

  lemma {:induction false} SeenValues(lines: seq<Bytes>)
    ensures DataValues(lines) == Gather(Seen, lines)
  {
    if lines != [] {
      SeenValues(lines[..|lines| - 1]);
    }
  }

  // ----- Values without line ends -----

  predicate Clean(b: Bytes) { LF !in b && CR !in b }

  lemma {:induction false} StandardLinesClean(b: Bytes)
    ensures forall i :: 0 <= i < |StandardLines(b)| ==> Clean(StandardLines(b)[i])
    decreases |b|
  {
    var i := FirstEnd(b);
    assert Clean(b[..i]);
    if i < |b| {
      StandardLinesClean(b[i + EndLength(b, i)..]);
    } else {
      assert b[..i] == b;
    }
  }

  lemma {:induction false} FieldsClean(lines: seq<Bytes>)
    requires forall i :: 0 <= i < |lines| ==> Clean(lines[i])
    ensures forall i :: 0 <= i < |Fields(lines)| ==> Clean(Fields(lines)[i])
  {
    if lines != [] {
      FieldsClean(lines[..|lines| - 1]);
      FieldClean(lines[|lines| - 1]);
      assert Fields(lines) == Fields(lines[..|lines| - 1]) + FieldOf(lines[|lines| - 1]);
    }
  }

  lemma {:induction false} FieldClean(line: Bytes)
    requires Clean(line)
    ensures DataField(line).Some? ==> Clean(DataField(line).value)
  {}

  predicate LfFree(values: seq<Bytes>) { forall i :: 0 <= i < |values| ==> LF !in values[i] }

  lemma {:induction false} LinesLfFree(b: Bytes)
    ensures LfFree(Lines(b))
    decreases |b|
  {
    FirstLfMeans(b, 0);
    if FirstLf(b, 0).Some? {
      LinesLfFree(b[FirstLf(b, 0).value + 1..]);
    }
  }

  lemma {:induction false} ValuesLfFree(lines: seq<Bytes>)
    requires LfFree(lines)
    ensures LfFree(DataValues(lines))
  {
    if lines != [] {
      ValuesLfFree(lines[..|lines| - 1]);
    }
  }

  // ----- Joining is undone by splitting -----

  lemma {:induction false} JoinFront(v: Bytes, rest: seq<Bytes>)
    requires rest != []
    ensures JoinLf([v] + rest) == v + [LF] + JoinLf(rest)
  {
    var all := [v] + rest;
    var init, last := rest[..|rest| - 1], rest[|rest| - 1];
    assert all[..|all| - 1] == [v] + init;
    if init == [] {
      assert [v] + init == [v];
    } else {
      JoinFront(v, init);
      assert (v + [LF] + JoinLf(init)) + [LF] + last == v + [LF] + (JoinLf(init) + [LF] + last);
    }
  }

  lemma {:induction false} LinesOfJoin(values: seq<Bytes>)
    requires values != [] && LfFree(values)
    ensures Lines(JoinLf(values)) == values
  {
    var v, rest := values[0], values[1..];
    assert values == [v] + rest;
    if rest == [] {
      FirstLfMeans(v, 0);
    } else {
      JoinFront(v, rest);
      LinesOfJoin(rest);
      var b := JoinLf(values);
      assert b[|v|] == LF && b[..|v|] == v && b[|v| + 1..] == JoinLf(rest);
      FirstLfIs(b, 0, |v|);
    }
  }

  lemma {:induction false} JoinInjective(a: seq<Bytes>, b: seq<Bytes>)
    requires a != [] && b != [] && LfFree(a) && LfFree(b) && JoinLf(a) == JoinLf(b)
    ensures a == b
  {
    LinesOfJoin(a);
    LinesOfJoin(b);
  }

  // ----- The standard's events -----

  /** The groups of data values that blank lines closed, and the open one. */
  datatype Groups = Groups(done: seq<seq<Bytes>>, open: seq<Bytes>)

  function Close(g: Groups): (h: Groups) {
    if g.open == [] then g else Groups(g.done + [g.open], [])
  }

  function Group(lines: seq<Bytes>): (g: Groups) {
    if lines == [] then Groups([], [])
    else
      var before, line := Group(lines[..|lines| - 1]), lines[|lines| - 1];
      if line == [] then Close(before) else before.(open := before.open + FieldOf(line))
  }

  function Joined(groups: seq<seq<Bytes>>): (events: seq<Bytes>) {
    seq(|groups|, i requires 0 <= i < |groups| => JoinLf(groups[i]))
  }

  function Buffered(values: seq<Bytes>): (b: Bytes) {
    if values == [] then [] else Buffered(values[..|values| - 1]) + values[|values| - 1] + [LF]
  }

  lemma {:induction false} BufferIsJoin(values: seq<Bytes>)
    requires values != []
    ensures Buffered(values) == JoinLf(values) + [LF]
  {
    var init, last := values[..|values| - 1], values[|values| - 1];
    if init == [] {
      assert values == [last];
      assert Buffered(values) == [] + last + [LF];
    } else {
      BufferIsJoin(init);
    }
  }

  predicate ReadsAs(r: Reading, g: Groups) {
    r == Reading(Joined(g.done), Buffered(g.open))
  }

  lemma {:induction false} DispatchCloses(r: Reading, g: Groups)
    requires ReadsAs(r, g)
    ensures ReadsAs(Dispatch(r), Close(g))
  {
    if g.open != [] {
      BufferIsJoin(g.open);
      assert r.buffer[..|r.buffer| - 1] == JoinLf(g.open);
      assert Joined(g.done + [g.open]) == Joined(g.done) + [JoinLf(g.open)];
    }
  }

  lemma {:induction false} ReadGroups(lines: seq<Bytes>)
    ensures ReadsAs(Read(lines), Group(lines))
  {
    if lines != [] {
      var init, line := lines[..|lines| - 1], lines[|lines| - 1];
      ReadGroups(init);
      if line == [] {
        DispatchCloses(Read(init), Group(init));
      } else {
        BufferField(Group(init).open, line);
      }
    }
  }

  lemma {:induction false} BufferField(open: seq<Bytes>, line: Bytes)
    ensures Buffered(open + FieldOf(line)) ==
            if DataField(line).Some? then Buffered(open) + DataField(line).value + [LF] else Buffered(open)
  {
    if DataField(line).Some? {
      assert (open + FieldOf(line))[..|open|] == open;
    } else {
      assert open + FieldOf(line) == open;
    }
  }

  function Flat(groups: seq<seq<Bytes>>): (values: seq<Bytes>) {
    if groups == [] then [] else Flat(groups[..|groups| - 1]) + groups[|groups| - 1]
  }

  lemma {:induction false} GroupsHoldFields(lines: seq<Bytes>)
    ensures Flat(Group(lines).done) + Group(lines).open == Fields(lines)
    ensures forall i :: 0 <= i < |Group(lines).done| ==> Group(lines).done[i] != []
  {
    if lines != [] {
      var init, line := lines[..|lines| - 1], lines[|lines| - 1];
      GroupsHoldFields(init);
      var g := Group(init);
      if line == [] {
        assert FieldOf(line) == [] && Fields(init) + [] == Fields(init);
        CloseFlat(g);
      } else {
        Assoc(Flat(g.done), g.open, FieldOf(line));
        assert lines == init + [line];
      }
    }
  }

  lemma {:induction false} CloseFlat(g: Groups)
    ensures Flat(Close(g).done) + Close(g).open == Flat(g.done) + g.open
  {
    if g.open != [] {
      assert (g.done + [g.open])[..|g.done|] == g.done;
      assert Flat(g.done + [g.open]) + [] == Flat(g.done) + g.open;
    }
  }

  ghost predicate ClosedGroup(lines: seq<Bytes>) { exists i, j :: Closes(lines, i, j) }

  predicate Closes(lines: seq<Bytes>, i: int, j: int) {
    0 <= i < j < |lines| && DataField(lines[i]).Some? && lines[j] == []
  }

  lemma {:induction false} FieldsIff(lines: seq<Bytes>)
    ensures Fields(lines) != [] <==> exists i :: 0 <= i < |lines| && DataField(lines[i]).Some?
  {
    GatherEmptyIff(FieldOf, lines);
    assert forall i :: 0 <= i < |lines| ==> (FieldOf(lines[i]) == [] <==> DataField(lines[i]).None?);
  }

  /** Some group is closed exactly when a blank line follows a data field. */
  lemma {:induction false} ClosedIff(lines: seq<Bytes>)
    ensures Group(lines).done != [] <==> ClosedGroup(lines)
  {
    if lines != [] {
      var n := |lines| - 1;
      var init := lines[..n];
      ClosedIff(init);
      GroupsHoldFields(init);
      FieldsIff(init);
      forall i, j
        ensures Closes(lines, i, j) <==> Closes(init, i, j) || (j == n && lines[n] == [] && 0 <= i < n && DataField(init[i]).Some?)
      {}
      if lines[n] == [] && Group(init).open != [] {
        var i :| 0 <= i < n && DataField(init[i]).Some?;
        assert Closes(lines, i, n);
      }
      if ClosedGroup(lines) {
        var i, j :| Closes(lines, i, j);
        assert Closes(init, i, j) || Fields(init) != [];
      }
      if ClosedGroup(init) {
        var i, j :| Closes(init, i, j);
        assert Closes(lines, i, j);
      }
    }
  }

  lemma {:induction false} SeparatesStep(lines: seq<Bytes>, i: int, j: int, k: int)
    requires lines != []
    ensures var n := |lines| - 1; var init := lines[..n];
            Separates(lines, i, j, k) <==>
            Separates(init, i, j, k) || (k == n && Closes(init, i, j) && DataField(lines[n]).Some?)
  {}

  /** Two groups exactly when a blank line separates two data fields. */
  lemma {:induction false} SplitIff(lines: seq<Bytes>)
    ensures |Close(Group(lines)).done| >= 2 <==> SplitByBlank(lines)
  {
    if lines != [] {
      var n := |lines| - 1;
      var init := lines[..n];
      SplitIff(init);
      ClosedIff(init);
      forall i, j, k
        ensures Separates(lines, i, j, k) <==> Separates(init, i, j, k) || (k == n && Closes(init, i, j) && DataField(lines[n]).Some?)
      {
        SeparatesStep(lines, i, j, k);
      }
      if DataField(lines[n]).Some? {
        SplitNeedsClosed(init);
        if ClosedGroup(init) {
          var i, j :| Closes(init, i, j);
          assert Separates(lines, i, j, n);
        }
      } else if SplitByBlank(init) {
        var i, j, k :| Separates(init, i, j, k);
        assert Separates(lines, i, j, k);
      }
    }
  }

  lemma {:induction false} SplitNeedsClosed(lines: seq<Bytes>)
    ensures SplitByBlank(lines) ==> ClosedGroup(lines)
  {
    if SplitByBlank(lines) {
      var i, j, k :| Separates(lines, i, j, k);
      assert Closes(lines, i, j);
    }
  }

  // ----- The exact condition -----

  /** The groups whose values are the standard's events. */
  function EventGroups(frame: Bytes): (groups: seq<seq<Bytes>>) { Close(Group(StandardLines(frame))).done }

  lemma {:induction false} EventsAreGroups(frame: Bytes)
    ensures StandardEvents(frame) == Joined(EventGroups(frame))
    ensures Flat(EventGroups(frame)) == WithinLines(Lines(frame))
    ensures forall i :: 0 <= i < |EventGroups(frame)| ==> EventGroups(frame)[i] != []
    ensures |EventGroups(frame)| >= 2 <==> SplitByBlank(StandardLines(frame))
  {
    FrameFields(frame);
    GroupsOf(StandardLines(frame));
  }

  lemma {:induction false} GroupsOf(lines: seq<Bytes>)
    ensures Dispatch(Read(lines)).events == Joined(Close(Group(lines)).done)
    ensures Flat(Close(Group(lines)).done) == Fields(lines)
    ensures forall i :: 0 <= i < |Close(Group(lines)).done| ==> Close(Group(lines)).done[i] != []
    ensures |Close(Group(lines)).done| >= 2 <==> SplitByBlank(lines)
  {
    assert ReadsAs(Dispatch(Read(lines)), Close(Group(lines))) by {
      ReadGroups(lines);
      DispatchCloses(Read(lines), Group(lines));
    }
    SplitIff(lines);
    GroupsHoldFields(lines);
    FlatClosed(Group(lines));
  }

  lemma {:induction false} FlatClosed(g: Groups)
    ensures Flat(Close(g).done) == Flat(g.done) + g.open
  {
    CloseFlat(g);
    assert Flat(Close(g).done) + [] == Flat(Close(g).done);
  }

  /** What an emitted payload is made of. */
  lemma {:induction false} EmittedIs(values: seq<Bytes>)
    ensures var kept := DropLeadingEmpty(values);
            && (kept != [] ==> kept[0] != [] && JoinLf(kept) != [])
            && (kept == [] ==> JoinLf(kept) == [])
            && |kept| <= |values| && (|kept| == |values| ==> kept == values)
            && (values != [] && values[0] != [] ==> kept == values)
            && (forall i :: 0 <= i < |kept| ==> kept[i] in values)
            && (CrFree(kept) ==> CrFree(values))
  {
    if values != [] && values[0] == [] {
      EmittedIs(values[1..]);
      assert values == [values[0]] + values[1..];
    } else if values != [] {
      JoinNonEmpty(values);
    }
  }

  lemma {:induction false} FlatOne(groups: seq<seq<Bytes>>)
    ensures groups == [] ==> Flat(groups) == []
    ensures |groups| == 1 ==> Flat(groups) == groups[0]
    ensures Flat(groups) == [] && (forall i :: 0 <= i < |groups| ==> groups[i] != []) ==> groups == []
  {
    if |groups| == 1 {
      assert groups[..0] == [];
      assert Flat([]) + groups[0] == groups[0];
    }
  }

  /** The values of one frame, read both ways: groups of the standard and values of the decoder. */
  lemma {:induction false} SameEventsIff(groups: seq<seq<Bytes>>, values: seq<Bytes>, plain: bool)
    requires forall i :: 0 <= i < |groups| ==> groups[i] != []
    requires LfFree(values) && LfFree(Flat(groups)) && CrFree(Flat(groups))
    requires plain ==> Flat(groups) == values
    requires CrFree(values) ==> |Flat(groups)| >= |values| && (!plain ==> |Flat(groups)| > |values|)
    ensures var kept := DropLeadingEmpty(values);
            var emitted := if JoinLf(kept) == [] then [] else [JoinLf(kept)];
            emitted == Joined(groups) <==> plain && (values != [] ==> values[0] != []) && |groups| < 2
  {
    var kept := DropLeadingEmpty(values);
    EmittedIs(values);
    FlatOne(groups);
    var emitted := if JoinLf(kept) == [] then [] else [JoinLf(kept)];
    if emitted == Joined(groups) {
      assert |groups| == |emitted| < 2;
      if groups == [] {
        assert CrFree(kept);
      } else {
        assert JoinLf(kept) == Joined(groups)[0] == JoinLf(groups[0]);
        assert LfFree(kept);
        JoinInjective(kept, groups[0]);
      }
    }
    if plain && (values != [] ==> values[0] != []) && |groups| < 2 {
      if |groups| == 1 {
        assert Joined(groups) == [JoinLf(values)];
      } else {
        assert values == [];
      }
    }
  }

  /** The decoder emits exactly the events the standard dispatches for a frame if and only if no
      line hides a data field, the first data value is not empty, and no blank line comes between
      two data fields. */
  lemma {:induction false} FollowsStandardIff(frame: Bytes)
    ensures Emitted(frame) == StandardEvents(frame) <==> Conforms(frame)
  {
    var lines := Lines(frame);
    EventsAreGroups(frame);
    LinesRead(lines);
    LinesLfFree(frame);
    ValuesLfFree(lines);
    StandardLinesClean(frame);
    FieldsClean(StandardLines(frame));
    FrameFields(frame);
    SameEventsIff(EventGroups(frame), DataValues(lines), AllPlain(lines));
  }

  // ----- Frames read differently -----

  lemma {:induction false} FirstLineIs(line: Bytes, rest: Bytes)
    requires LF !in line
    ensures Lines(line + [LF] + rest) == [line] + Lines(rest)
  {
    var b := line + [LF] + rest;
    FirstLfIs(b, 0, |line|);
    assert b[..|line|] == line && b[|line| + 1..] == rest;
  }

  lemma {:induction false} OnlyLineIs(line: Bytes)
    requires LF !in line
    ensures Lines(line) == [line]
  {
    FirstLfMeans(line, 0);
  }

  /** A frame that starts with a bare `data` line, such as `data` and then `data: x`, is read
      differently: the standard takes the bare line for an empty data value. */
  lemma {:induction false} BareFieldDiffers(rest: Bytes)
    ensures Emitted(DATA + [LF] + rest) != StandardEvents(DATA + [LF] + rest)
  {
    var frame := DATA + [LF] + rest;
    FirstLineIs(DATA, rest);
    assert StripSuffixCr(Lines(frame)[0]) == DATA && !Plain(DATA);
    FollowsStandardIff(frame);
  }

  /** So is one that starts with an empty `data:` line, which the decoder drops. */
  lemma {:induction false} EmptyFirstDiffers(rest: Bytes)
    ensures Emitted(DATA_PREFIX + [LF] + rest) != StandardEvents(DATA_PREFIX + [LF] + rest)
  {
    var frame := DATA_PREFIX + [LF] + rest;
    FirstLineIs(DATA_PREFIX, rest);
    SeenValues(Lines(frame));
    GatherAppend(Seen, [DATA_PREFIX], Lines(rest));
    GatherOne(Seen, DATA_PREFIX);
    assert DataValue(DATA_PREFIX) == Some([]);
    assert DataValues(Lines(frame))[0] == [];
    FollowsStandardIff(frame);
  }

  /** And so is a data line that ends with a lone carriage return before more text. */
  lemma {:induction false} LoneCrDiffers(value: Bytes, more: Bytes)
    requires LF !in value && CR !in value && LF !in more && more != []
    ensures Emitted(DATA_PREFIX + value + [CR] + more) != StandardEvents(DATA_PREFIX + value + [CR] + more)
  {
    var frame := DATA_PREFIX + value + [CR] + more;
    OnlyLineIs(frame);
    var s := StripSuffixCr(frame);
    assert s[5 + |value|] == CR && DATA_PREFIX <= s;
    CrInValue(s);
    assert !Plain(s);
    FollowsStandardIff(frame);
  }
}
