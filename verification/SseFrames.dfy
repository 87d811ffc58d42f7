/**
 The event-stream reader of sse.ts: bounded connection attempts, then a read
 loop that cuts a growing buffer at blank lines and dispatches each frame.
 */
module SseFrames {

  const HANDSHAKE_MAX_ATTEMPTS := 3

  /* ----- Splitting text at blank lines ----- */

  /** Length of the separator \r?\n\r?\n that starts at i, or 0. */
  function SeparatorAt(s: string, i: nat): nat
    requires i <= |s|
  {
    var a := if i < |s| && s[i] == '\r' then i + 1 else i;
    if a < |s| && s[a] == '\n' then
      var b := if a + 1 < |s| && s[a + 1] == '\r' then a + 2 else a + 1;
      if b < |s| && s[b] == '\n' then b + 1 - i else 0
    else 0
  }

  /** The leftmost position at or after i where a separator starts, or |s|. */
  function NextSeparator(s: string, i: nat): (k: nat)
    requires i <= |s|
    ensures i <= k <= |s|
    ensures k < |s| ==> SeparatorAt(s, k) > 0
    ensures forall j | i <= j < k :: SeparatorAt(s, j) == 0
    decreases |s| - i
  {
    if i == |s| || SeparatorAt(s, i) > 0 then i else NextSeparator(s, i + 1)
  }

  datatype Cut = Cut(frames: seq<string>, rest: string)

  /** text.split(/\r?\n\r?\n/) with the last piece kept apart. */
  function Split(s: string): Cut
    decreases |s|
  {
    var k := NextSeparator(s, 0);
    if k == |s| then Cut([], s)
    else
      var tail := Split(s[k + SeparatorAt(s, k)..]);
      Cut([s[..k]] + tail.frames, tail.rest)
  }

  ghost predicate IsSeparator(s: string) {
    s == "\n\n" || s == "\r\n\n" || s == "\n\r\n" || s == "\r\n\r\n"
  }

  /** Frames and separators laid end to end, then the rest. */
  ghost function Weave(frames: seq<string>, separators: seq<string>, rest: string): string
    requires |frames| == |separators|
  {
    if frames == [] then rest else frames[0] + separators[0] + Weave(frames[1..], separators[1..], rest)
  }

  /** The leftmost cut: each piece ends at the first separator of what is left. */
  ghost predicate CutBy(s: string, c: Cut, separators: seq<string>)
    requires |separators| == |c.frames|
  {
    && s == Weave(c.frames, separators, c.rest)
    && NextSeparator(c.rest, 0) == |c.rest|
    && forall n | 0 <= n < |c.frames| ::
         IsSeparator(separators[n]) && NextSeparator(c.frames[n] + separators[n], 0) == |c.frames[n]|
  }

  ghost predicate LeftmostCut(s: string, c: Cut) {
    exists separators: seq<string> :: |separators| == |c.frames| && CutBy(s, c, separators)
  }

  lemma SeparatorIsOneOfFour(s: string, k: nat)
    requires k <= |s| && SeparatorAt(s, k) > 0
    ensures k + SeparatorAt(s, k) <= |s| && IsSeparator(s[k..k + SeparatorAt(s, k)])
  {
  }

  /** Text after a position moves no separator that lies wholly before it. */
  lemma SeparatorIsLocal(s: string, e: nat, k: nat)
    requires k <= e <= |s|
    ensures k + SeparatorAt(s, k) <= e ==> SeparatorAt(s[..e], k) == SeparatorAt(s, k)
    ensures SeparatorAt(s[..e], k) > 0 ==> SeparatorAt(s, k) == SeparatorAt(s[..e], k)
  {
  }

  lemma {:induction false} SplitIsCut(s: string)
    ensures LeftmostCut(s, Split(s))
    decreases |s|
  {
    var k := NextSeparator(s, 0);
    hide Split, SeparatorAt, NextSeparator;
    var e := k + SeparatorAt(s, k);
    SplitFirst(s, k, e);
    if k == |s| {
      assert CutBy(s, Split(s), []);
    } else {
      SeparatorIsOneOfFour(s, k);
      SplitIsCut(s[e..]);
      var rest: seq<string> :| |rest| == |Split(s[e..]).frames| && CutBy(s[e..], Split(s[e..]), rest);
      FirstFrameEnds(s, k, e);
      CutExtends(s, k, e, Split(s[e..]), rest);
    }
  }

  /** A blank line, in one of its four spellings, stands at this place. */
  ghost predicate Stands(s: string, k: nat) {
    exists e | k <= e <= |s| :: IsSeparator(s[k..e])
  }

  lemma StandsMeans(s: string, k: nat)
    requires k <= |s|
    ensures Stands(s, k) <==> SeparatorAt(s, k) > 0
  {
    if SeparatorAt(s, k) > 0 {
      SeparatorIsOneOfFour(s, k);
    }
    if e :| k <= e <= |s| && IsSeparator(s[k..e]) {
      var t := s[k..e];
      assert t[0] == s[k] && t[1] == s[k + 1];
      assert |t| > 2 ==> t[2] == s[k + 2];
      assert |t| > 3 ==> t[3] == s[k + 3];
    }
  }

  /**
   The pieces and the blank lines laid end to end are the text; a piece ends at the first blank line, the rest has
   none.
   */
  ghost predicate CutAtBlankLines(s: string, c: Cut, separators: seq<string>)
    requires |separators| == |c.frames|
  {
    && s == Weave(c.frames, separators, c.rest)
    && (forall k | 0 <= k <= |c.rest| :: !Stands(c.rest, k))
    && forall n | 0 <= n < |c.frames| ::
         && IsSeparator(separators[n])
         && forall k | 0 <= k < |c.frames[n]| :: !Stands(c.frames[n] + separators[n], k)
  }

  lemma SplitIsLeftmost(s: string)
    ensures exists separators: seq<string> ::
              |separators| == |Split(s).frames| && CutAtBlankLines(s, Split(s), separators)
  {
    hide Split, CutBy, CutAtBlankLines;
    SplitIsCut(s);
    var separators: seq<string> :| |separators| == |Split(s).frames| && CutBy(s, Split(s), separators);
    CutIsClean(s, Split(s), separators);
  }

  lemma NothingStands(s: string, n: nat)
    requires n <= |s| && NextSeparator(s, 0) == n
    ensures forall k | 0 <= k < n :: !Stands(s, k)
    ensures n == |s| ==> !Stands(s, n)
  {
    hide Stands, SeparatorAt, NextSeparator;
    forall k | 0 <= k < n
      ensures !Stands(s, k)
    {
      StandsMeans(s, k);
    }
    if n == |s| {
      StandsMeans(s, n);
      NoneAtEnd(s);
    }
  }

  lemma NoneAtEnd(s: string)
    ensures SeparatorAt(s, |s|) == 0
  {
  }

  lemma CutIsClean(s: string, c: Cut, separators: seq<string>)
    requires |separators| == |c.frames| && CutBy(s, c, separators)
    ensures CutAtBlankLines(s, c, separators)
  {
    hide Stands, SeparatorAt, NextSeparator, Weave, IsSeparator;
    NothingStands(c.rest, |c.rest|);
    forall n | 0 <= n < |c.frames|
      ensures forall k | 0 <= k < |c.frames[n]| :: !Stands(c.frames[n] + separators[n], k)
    {
      NothingStands(c.frames[n] + separators[n], |c.frames[n]|);
    }
  }

  lemma FirstFrameEnds(s: string, k: nat, e: nat)
    requires k < |s| && k == NextSeparator(s, 0) && e == k + SeparatorAt(s, k) <= |s|
    ensures NextSeparator(s[..e], 0) == k
  {
    forall j | 0 <= j < k
      ensures SeparatorAt(s[..e], j) == 0
    {
      SeparatorIsLocal(s, e, j);
    }
    SeparatorIsLocal(s, e, k);
    FirstSeparatorUnique(s[..e], k);
  }

  lemma CutExtends(s: string, k: nat, e: nat, tail: Cut, rest: seq<string>)
    requires k <= e <= |s| && IsSeparator(s[k..e]) && NextSeparator(s[..e], 0) == k
    requires |rest| == |tail.frames| && CutBy(s[e..], tail, rest)
    ensures LeftmostCut(s, Cut([s[..k]] + tail.frames, tail.rest))
  {
    hide SeparatorAt, NextSeparator;
    var frames, separators := [s[..k]] + tail.frames, [s[k..e]] + rest;
    assert separators[1..] == rest && frames[1..] == tail.frames;
    assert s == s[..k] + s[k..e] + s[e..];
    assert frames[0] + separators[0] == s[..e];
    assert CutBy(s, Cut(frames, tail.rest), separators);
  }

  lemma FirstSeparatorUnique(s: string, k: nat)
    requires k < |s| && SeparatorAt(s, k) > 0 && forall j | 0 <= j < k :: SeparatorAt(s, j) == 0
    ensures NextSeparator(s, 0) == k
  {
  }

  /* ----- Cutting as the text arrives ----- */

  /**
   A separator found in the text so far is still the leftmost one after more text:
   no earlier separator can be completed across it.
   */
  lemma NextSeparatorStable(a: string, b: string)
    requires NextSeparator(a, 0) < |a|
    ensures NextSeparator(a + b, 0) == NextSeparator(a, 0)
    ensures SeparatorAt(a + b, NextSeparator(a, 0)) == SeparatorAt(a, NextSeparator(a, 0))
  {
    var k := NextSeparator(a, 0);
    var t := a + b;
    assert t[..|a|] == a;
    SeparatorIsOneOfFour(a, k);
    SeparatorIsLocal(t, |a|, k);
    forall j | 0 <= j < k
      ensures SeparatorAt(t, j) == 0
    {
      SeparatorIsLocal(t, |a|, j);
    }
    FirstSeparatorUnique(t, k);
  }

  /** One step of the cut, by the position and length of its first separator. */
  lemma SplitFirst(s: string, k: nat, e: nat)
    requires k <= |s| && k == NextSeparator(s, 0) && e == k + SeparatorAt(s, k)
    ensures k == |s| ==> Split(s) == Cut([], s)
    ensures k < |s| ==> k < e <= |s| && Split(s) == Cut([s[..k]] + Split(s[e..]).frames, Split(s[e..]).rest)
  {
    if k < |s| {
      SeparatorIsOneOfFour(s, k);
    }
  }

  /** Cutting what has arrived and later cutting the remainder with more text loses nothing. */
  lemma {:induction false} SplitAppend(a: string, b: string)
    ensures Split(a + b).frames == Split(a).frames + Split(Split(a).rest + b).frames
    ensures Split(a + b).rest == Split(Split(a).rest + b).rest
    decreases |a|
  {
    hide Split, SeparatorAt, NextSeparator;
    var k := NextSeparator(a, 0);
    var e := k + SeparatorAt(a, k);
    SplitFirst(a, k, e);
    if k < |a| {
      NextSeparatorStable(a, b);
      SplitFirst(a + b, k, e);
      var x := a[e..];
      SplitAppend(x, b);
      assert (a + b)[e..] == x + b && (a + b)[..k] == a[..k];
      assert [a[..k]] + (Split(x).frames + Split(Split(x).rest + b).frames)
          == ([a[..k]] + Split(x).frames) + Split(Split(x).rest + b).frames;
    }
  }

  /* ----- The data of one frame ----- */

  predicate IsBlank(c: char) {
    || '\t' <= c <= '\r' || c == ' ' || c == '\U{A0}' || c == '\U{1680}' || '\U{2000}' <= c <= '\U{200A}'
    || c == '\U{2028}' || c == '\U{2029}' || c == '\U{202F}' || c == '\U{205F}' || c == '\U{3000}' || c == '\U{FEFF}'
  }

  /** The characters JavaScript takes for white space. */
  const WHITE_SPACE :=
    "\t\n\U{B}\U{C}\r \U{A0}\U{1680}\U{2000}\U{2001}\U{2002}\U{2003}\U{2004}\U{2005}\U{2006}\U{2007}\U{2008}\U{2009}"
    + "\U{200A}\U{2028}\U{2029}\U{202F}\U{205F}\U{3000}\U{FEFF}"

  lemma BlanksAre(c: char)
    ensures IsBlank(c) <==> c in WHITE_SPACE
  {
  }

  function TrimStart(s: string): string {
    if s != [] && IsBlank(s[0]) then TrimStart(s[1..]) else s
  }

  function TrimEnd(s: string): string {
    if s != [] && IsBlank(s[|s| - 1]) then TrimEnd(s[..|s| - 1]) else s
  }

  function Trim(s: string): string {
    TrimEnd(TrimStart(s))
  }

  function FirstLine(s: string): (k: nat)
    ensures k <= |s| && (k < |s| ==> s[k] == '\n') && forall i | 0 <= i < k :: s[i] != '\n'
  {
    if s == [] || s[0] == '\n' then 0 else 1 + FirstLine(s[1..])
  }

  /** The data of a line of the data field, without the field's name and leading blanks; nothing of another line. */
  function LineData(line: string): seq<string> {
    if "data:" <= line then [TrimStart(line[5..])] else []
  }

  /** The data lines of a frame. */
  function DataLines(frame: string): seq<string>
    decreases |frame|
  {
    var k := FirstLine(frame);
    var here := LineData(frame[..k]);
    if k == |frame| then here else here + DataLines(frame[k + 1..])
  }

  function JoinLines(lines: seq<string>): string {
    if lines == [] then ""
    else if |lines| == 1 then lines[0]
    else lines[0] + ("\n" + JoinLines(lines[1..]))
  }

  function FrameData(frame: string): string {
    Trim(JoinLines(DataLines(frame)))
  }

  /** What is left of a text without the blanks before it. */
  predicate Trimmed(s: string, t: string) {
    && |t| <= |s| && t == s[|s| - |t|..]
    && (forall i | 0 <= i < |s| - |t| :: IsBlank(s[i])) && (t != "" ==> !IsBlank(t[0]))
  }

  lemma {:induction false} TrimStartMeans(s: string)
    ensures Trimmed(s, TrimStart(s))
  {
    hide IsBlank;
    if s != [] && IsBlank(s[0]) {
      TrimStartMeans(s[1..]);
    }
  }

  /** What is left of a text without the blanks around it. */
  ghost predicate TrimmedBoth(s: string, t: string) {
    exists i :: TrimmedAt(s, t, i)
  }

  ghost predicate TrimmedAt(s: string, t: string, i: nat) {
    && i + |t| <= |s| && t == s[i..i + |t|] && (t != "" ==> !IsBlank(t[0]) && !IsBlank(t[|t| - 1]))
    && (forall j | 0 <= j < i :: IsBlank(s[j])) && (forall j | i + |t| <= j < |s| :: IsBlank(s[j]))
  }

  lemma {:induction false} TrimEndMeans(s: string)
    ensures TrimEnd(s) <= s && (TrimEnd(s) != "" ==> !IsBlank(TrimEnd(s)[|TrimEnd(s)| - 1]))
    ensures forall j | |TrimEnd(s)| <= j < |s| :: IsBlank(s[j])
  {
    hide IsBlank;
    if s != [] && IsBlank(s[|s| - 1]) {
      TrimEndMeans(s[..|s| - 1]);
    }
  }

  lemma TrimMeans(s: string)
    ensures TrimmedBoth(s, Trim(s))
  {
    hide IsBlank, TrimStart, TrimEnd;
    var a := TrimStart(s);
    var t := TrimEnd(a);
    TrimStartMeans(s);
    TrimEndMeans(a);
    var i := |s| - |a|;
    assert t == s[i..i + |t|];
    forall j | i + |t| <= j < |s|
      ensures IsBlank(s[j])
    {
      assert s[j] == a[j - i];
    }
    assert TrimmedAt(s, t, i);
  }

  /** Lines as the reader takes them: those of the data field, behind its name and the blanks after it. */
  ghost predicate DataOf(lines: seq<string>, data: seq<string>)
    decreases |lines|
  {
    if lines == [] then data == []
    else if "data:" <= lines[0] then
      data != [] && Trimmed(lines[0][5..], data[0]) && DataOf(lines[1..], data[1..])
    else DataOf(lines[1..], data)
  }

  lemma FirstLineIs(text: string, k: nat)
    requires k <= |text| && (k < |text| ==> text[k] == '\n') && forall i | 0 <= i < k :: text[i] != '\n'
    ensures FirstLine(text) == k
  {
    hide FirstLine;
  }

  lemma LineThenMore(line: string, rest: string)
    requires '\n' !in line
    ensures var text := line + ("\n" + rest);
            && |line| < |text| && text[|line|] == '\n' && text[..|line|] == line && text[|line| + 1..] == rest
            && forall i | 0 <= i < |line| :: text[i] != '\n'
  {
    assert forall i | 0 <= i < |line| :: line[i] in line;
  }

  lemma JoinOpens(lines: seq<string>)
    requires |lines| > 1 && '\n' !in lines[0]
    ensures var text := JoinLines(lines);
            && FirstLine(text) == |lines[0]| < |text| && text[..|lines[0]|] == lines[0]
            && text[|lines[0]| + 1..] == JoinLines(lines[1..])
  {
    hide FirstLine, JoinLines;
    JoinUnfolds(lines);
    LineThenMore(lines[0], JoinLines(lines[1..]));
    FirstLineIs(JoinLines(lines), |lines[0]|);
  }

  lemma JoinUnfolds(lines: seq<string>)
    requires |lines| > 1
    ensures JoinLines(lines) == lines[0] + ("\n" + JoinLines(lines[1..]))
  {
  }

  lemma JoinOne(lines: seq<string>)
    requires |lines| == 1 && '\n' !in lines[0]
    ensures JoinLines(lines) == lines[0] && FirstLine(lines[0]) == |lines[0]| && lines[0][..|lines[0]|] == lines[0]
  {
    assert forall i | 0 <= i < |lines[0]| :: lines[0][i] in lines[0];
    FirstLineIs(lines[0], |lines[0]|);
    hide FirstLine;
  }

  lemma DataUnfolds(frame: string, k: nat)
    requires k <= |frame| && FirstLine(frame) == k
    ensures DataLines(frame)
         == if k == |frame| then LineData(frame[..k]) else LineData(frame[..k]) + DataLines(frame[k + 1..])
  {
    hide FirstLine, LineData;
  }

  lemma LineDataMeans(lines: seq<string>, rest: seq<string>)
    requires lines != [] && DataOf(lines[1..], rest)
    ensures DataOf(lines, LineData(lines[0]) + rest)
  {
    hide Trimmed, TrimStart;
    var here := LineData(lines[0]);
    if "data:" <= lines[0] {
      TrimStartMeans(lines[0][5..]);
      assert (here + rest)[1..] == rest;
    } else {
      assert here + rest == rest;
    }
  }

  /**
   The data of a frame of any lines: those of its data field, trimmed, joined by line feeds, and trimmed again.  Lines
   of other fields, and comments, are passed over.
   */
  lemma {:induction false} FrameMeans(lines: seq<string>) returns (data: seq<string>)
    requires lines != [] && forall l | l in lines :: '\n' !in l
    ensures DataOf(lines, data) && DataLines(JoinLines(lines)) == data
    ensures TrimmedBoth(JoinLines(data), FrameData(JoinLines(lines)))
  {
    hide FirstLine, LineData, Trim, TrimmedBoth, JoinLines, DataLines, DataOf;
    if |lines| == 1 {
      JoinOne(lines);
      DataUnfolds(JoinLines(lines), |lines[0]|);
      data := LineData(lines[0]);
      NoLines(lines[1..]);
      LineDataMeans(lines, []);
      assert data + [] == data;
    } else {
      JoinOpens(lines);
      DataUnfolds(JoinLines(lines), |lines[0]|);
      var rest := FrameMeans(lines[1..]);
      data := LineData(lines[0]) + rest;
      LineDataMeans(lines, rest);
    }
    TrimMeans(JoinLines(data));
  }

  lemma NoLines(lines: seq<string>)
    requires lines == []
    ensures DataOf(lines, [])
  {
  }

  predicate Carries(data: string) {
    data != "" && data != "[DONE]"
  }

  function Datas(frames: seq<string>): seq<string> {
    seq(|frames|, i requires 0 <= i < |frames| => FrameData(frames[i]))
  }

  /** Payloads handed to the listener, up to the first one it rejects. */
  datatype Delivery = Delivery(payloads: seq<string>, failed: bool)

  /** Does parsing and handling a payload succeed, given the payloads handled before it? */
  type Listener = (seq<string>, string) -> bool

  /** Frame data taken in order by a listener that has handled `done`. */
  function Deliver(done: seq<string>, datas: seq<string>, accepts: Listener): Delivery
    decreases |datas|
  {
    if datas == [] then Delivery(done, false)
    else if !Carries(datas[0]) then Deliver(done, datas[1..], accepts)
    else if !accepts(done, datas[0]) then Delivery(done + [datas[0]], true)
    else Deliver(done + [datas[0]], datas[1..], accepts)
  }

  /** The frames of a whole response text: its leftmost cut, then the tail once if it is not blank. */
  function AllFrames(text: string): seq<string> {
    var c := Split(text);
    c.frames + (if Trim(c.rest) == "" then [] else [c.rest])
  }

  lemma {:induction false} DeliverAppend(done: seq<string>, a: seq<string>, b: seq<string>, accepts: Listener)
    ensures Deliver(done, a + b, accepts) ==
            if Deliver(done, a, accepts).failed then Deliver(done, a, accepts)
            else Deliver(Deliver(done, a, accepts).payloads, b, accepts)
    decreases |a|
  {
    if a == [] {
      assert a + b == b;
    } else {
      assert (a + b)[1..] == a[1..] + b;
      DeliverAppend(done, a[1..], b, accepts);
      DeliverAppend(done + [a[0]], a[1..], b, accepts);
    }
  }

  lemma DatasAppend(a: seq<string>, b: seq<string>)
    ensures Datas(a + b) == Datas(a) + Datas(b)
  {
  }

  function Concat(chunks: seq<string>): string {
    if chunks == [] then "" else Concat(chunks[..|chunks| - 1]) + chunks[|chunks| - 1]
  }

  /* ----- streamChat ----- */

  /** How the body ends: at its end, with a lost connection, or with an abort of the caller's signal. */
  datatype BodyEnd = Complete | Disconnected | CalledOff

  /** The frames taken from the text read: the tail only counts once the body is complete. */
  function FramesRead(text: string, end: BodyEnd): seq<string> {
    if end.Complete? then AllFrames(text) else Split(text).frames
  }

  function DeliverRead(text: string, end: BodyEnd, accepts: Listener): Delivery {
    Deliver([], Datas(FramesRead(text, end)), accepts)
  }

  /** One attempt to open the stream; the caller's signal may be aborted before or during it. */
  datatype Handshake = Opened | Refused(retryable: bool) | Aborted

  /** `told`: the caller's error handler is called. */
  datatype Outcome =
    | Finished(delivery: Delivery, told: bool)
    | NotOpened
    | Withdrawn

  /** Frames in order until one is rejected. */
  method DispatchFrames(frames: seq<string>, done: seq<string>, accepts: Listener) returns (d: Delivery)
    ensures d == Deliver(done, Datas(frames), accepts)
  {
    d := Delivery(done, false);
    ghost var all := Datas(frames);
    NothingDelivered(done, all[..0], accepts);
    assert all[..|frames|] == all;
    hide Deliver, FrameData, Carries;
    for i := 0 to |frames|
      invariant d == Deliver(done, all[..i], accepts) && !d.failed
    {
      var data := FrameData(frames[i]);
      OneMoreData(done, all, i, data, accepts);
      DeliverOne(d.payloads, data, accepts);
      if Carries(data) {
        d := Delivery(d.payloads + [data], !accepts(d.payloads, data));
        if d.failed {
          StopsEarly(done, all, i + 1, accepts);
          return;
        }
      }
    }
  }

  lemma OneMoreData(done: seq<string>, all: seq<string>, i: nat, data: string, accepts: Listener)
    requires i < |all| && all[i] == data
    ensures var before := Deliver(done, all[..i], accepts);
            Deliver(done, all[..i + 1], accepts)
            == if before.failed then before else Deliver(before.payloads, [data], accepts)
  {
    hide Deliver;
    assert all[..i + 1] == all[..i] + [data];
    DeliverAppend(done, all[..i], [data], accepts);
  }

  lemma StopsEarly(done: seq<string>, all: seq<string>, i: nat, accepts: Listener)
    requires i <= |all|
    ensures Deliver(done, all[..i], accepts).failed ==> Deliver(done, all, accepts) == Deliver(done, all[..i], accepts)
  {
    hide Deliver;
    assert all == all[..i] + all[i..];
    DeliverAppend(done, all[..i], all[i..], accepts);
  }

  lemma NothingDelivered(done: seq<string>, datas: seq<string>, accepts: Listener)
    requires datas == []
    ensures Deliver(done, datas, accepts) == Delivery(done, false)
  {
  }

  lemma DeliverOne(done: seq<string>, data: string, accepts: Listener)
    ensures Deliver(done, [data], accepts)
         == if data != "" && data != "[DONE]" then Delivery(done + [data], !accepts(done, data))
             else Delivery(done, false)
  {
    assert [data][1..] == [];
  }

  /**
   The read loop: one call per chunk, then the tail if the body is complete.  The result depends on the text read and on
   that alone.
   */
  method ReadLoop(chunks: seq<string>, end: BodyEnd, accepts: Listener) returns (d: Delivery)
    ensures d == DeliverRead(Concat(chunks), end, accepts)
  {
    var buffer := "";
    d := Delivery([], false);
    ghost var text := "";
    for i := 0 to |chunks|
      invariant text == Concat(chunks[..i])
      invariant buffer == Split(text).rest
      invariant d == Deliver([], Datas(Split(text).frames), accepts) && !d.failed
    {
      assert chunks[..i + 1][..i] == chunks[..i];
      FramesArrive(text, chunks[i], accepts);
      text := text + chunks[i];
      var c := Split(buffer + chunks[i]);
      buffer := c.rest;
      d := DispatchFrames(c.frames, d.payloads, accepts);
      if d.failed {
        RejectedEarly(chunks, i + 1, end, accepts);
        return;
      }
    }
    assert chunks[..|chunks|] == chunks;
    if !end.Complete? { return; }
    ghost var tail := if Trim(buffer) == "" then [] else [buffer];
    DatasAppend(Split(text).frames, tail);
    DeliverAppend([], Datas(Split(text).frames), Datas(tail), accepts);
    if Trim(buffer) != "" {
      d := DispatchFrames([buffer], d.payloads, accepts);
    }
  }

  /** One more chunk adds exactly the frames cut from the remainder and that chunk. */
  lemma FramesArrive(text: string, chunk: string, accepts: Listener)
    ensures var before := Deliver([], Datas(Split(text).frames), accepts);
            Deliver([], Datas(Split(text + chunk).frames), accepts) ==
            if before.failed then before
            else Deliver(before.payloads, Datas(Split(Split(text).rest + chunk).frames), accepts)
    ensures Split(text + chunk).rest == Split(Split(text).rest + chunk).rest
  {
    SplitAppend(text, chunk);
    DatasAppend(Split(text).frames, Split(Split(text).rest + chunk).frames);
    DeliverAppend([], Datas(Split(text).frames), Datas(Split(Split(text).rest + chunk).frames), accepts);
  }

  lemma {:induction false} ConcatSplit(a: seq<string>, b: seq<string>)
    ensures Concat(a + b) == Concat(a) + Concat(b)
  {
    if b == [] {
      assert a + b == a;
    } else {
      var n := |b| - 1;
      assert (a + b)[..|a + b| - 1] == a + b[..n];
      ConcatSplit(a, b[..n]);
    }
  }

  /** A payload rejected among the first i chunks is the one the whole text would stop at. */
  lemma RejectedEarly(chunks: seq<string>, i: nat, end: BodyEnd, accepts: Listener)
    requires i <= |chunks|
    ensures var d := Deliver([], Datas(Split(Concat(chunks[..i])).frames), accepts);
            d.failed ==> DeliverRead(Concat(chunks), end, accepts) == d
  {
    hide *;
    var a, b := Concat(chunks[..i]), Concat(chunks[i..]);
    assert chunks == chunks[..i] + chunks[i..];
    ConcatSplit(chunks[..i], chunks[i..]);
    SplitAppend(a, b);
    FirstFramesLead(a, b, end);
    PrefixDelivers(Split(a).frames, a + b, end, accepts);
  }

  lemma PrefixDelivers(first: seq<string>, text: string, end: BodyEnd, accepts: Listener)
    requires first <= FramesRead(text, end)
    ensures var d := Deliver([], Datas(first), accepts);
            && (d.failed ==> DeliverRead(text, end, accepts) == d)
            && d.payloads <= DeliverRead(text, end, accepts).payloads
  {
    hide FramesRead, Datas, Deliver;
    var later := FramesRead(text, end)[|first|..];
    assert FramesRead(text, end) == first + later;
    DatasAppend(first, later);
    DeliverAppend([], Datas(first), Datas(later), accepts);
    DeliverExtends(Deliver([], Datas(first), accepts).payloads, Datas(later), accepts);
  }

  lemma {:induction false} DeliverExtends(done: seq<string>, datas: seq<string>, accepts: Listener)
    ensures done <= Deliver(done, datas, accepts).payloads
    decreases |datas|
  {
    if datas != [] {
      DeliverExtends(done, datas[1..], accepts);
      DeliverExtends(done + [datas[0]], datas[1..], accepts);
    }
  }

  /** A body that breaks off hands on a first part of what the same body would have handed on had it gone on. */
  lemma BrokenBodyIsPrefix(text: string, more: string, end: BodyEnd, later: BodyEnd, accepts: Listener)
    requires !end.Complete?
    ensures DeliverRead(text, end, accepts).payloads <= DeliverRead(text + more, later, accepts).payloads
  {
    hide Split, Datas, Deliver;
    SplitAppend(text, more);
    FirstFramesLead(text, more, later);
    PrefixDelivers(Split(text).frames, text + more, later, accepts);
  }

  lemma FirstFramesLead(a: string, b: string, end: BodyEnd)
    requires Split(a + b).frames == Split(a).frames + Split(Split(a).rest + b).frames
    ensures Split(a).frames <= FramesRead(a + b, end)
  {
    hide Split, Trim;
  }

  /**
   Attempts are retried only after a transient refusal, and never after the stream opened or the signal was aborted.
   */
  method StreamChat(handshakes: seq<Handshake>, chunks: seq<string>, end: BodyEnd, accepts: Listener)
    returns (outcome: Outcome, attempts: nat)
    requires |handshakes| == HANDSHAKE_MAX_ATTEMPTS
    ensures 1 <= attempts <= 3 == HANDSHAKE_MAX_ATTEMPTS
    ensures forall k | 0 <= k < attempts - 1 :: handshakes[k] == Refused(true)
    ensures outcome.Finished? <==> handshakes[attempts - 1].Opened?
    ensures outcome.Withdrawn? <==> handshakes[attempts - 1].Aborted?
    ensures outcome.NotOpened? ==> handshakes[attempts - 1] == Refused(false) || attempts == HANDSHAKE_MAX_ATTEMPTS
    ensures outcome.Finished? ==> outcome.delivery == DeliverRead(Concat(chunks), end, accepts)
    ensures outcome.Finished? ==> (outcome.told <==> outcome.delivery.failed || end.Disconnected?)
  {
    hide DeliverRead, Concat;
    attempts := 0;
    while attempts < HANDSHAKE_MAX_ATTEMPTS
      invariant attempts <= HANDSHAKE_MAX_ATTEMPTS
      invariant forall k | 0 <= k < attempts :: handshakes[k] == Refused(true)
    {
      attempts := attempts + 1;
      match handshakes[attempts - 1] {
        case Aborted =>
          return Withdrawn, attempts;
        case Opened =>
          var d := ReadLoop(chunks, end, accepts);
          return Finished(d, d.failed || end.Disconnected?), attempts;
        case Refused(retryable) =>
          if !retryable {
            return NotOpened, attempts;
          }
      }
    }
    outcome := NotOpened;
  }

  /* ----- What the server writes is what the listener gets ----- */

  /** One event as the server frames it. */
  function Encode(payload: string): string {
    "data: " + payload + "\n\n"
  }

  function EncodeAll(payloads: seq<string>): string {
    if payloads == [] then "" else Encode(payloads[0]) + EncodeAll(payloads[1..])
  }

  /** One line of text that neither starts nor ends blank, such as a serialized JSON object. */
  predicate OneLine(p: string) {
    p != "" && !IsBlank(p[0]) && !IsBlank(p[|p| - 1]) && (forall i | 0 <= i < |p| :: p[i] != '\n') && Carries(p)
  }

  lemma FrameOfPayload(p: string, rest: string)
    requires OneLine(p)
    ensures Split(Encode(p) + rest) == Cut(["data: " + p] + Split(rest).frames, Split(rest).rest)
    ensures FrameData("data: " + p) == p
  {
    var line := "data: " + p;
    assert line[|line| - 1] == p[|p| - 1];
    assert forall i | 0 <= i < |line| :: line[i] != '\n';
    FirstFrameCut(line, Encode(p) + rest, rest);
    LineCarriesPayload(p, line);
    hide Split, FrameData, OneLine;
  }

  /** A line ended by two line feeds is the first frame of the text. */
  lemma FirstFrameCut(line: string, s: string, rest: string)
    requires line != "" && (forall i | 0 <= i < |line| :: line[i] != '\n') && line[|line| - 1] != '\r'
    requires s == line + "\n\n" + rest
    ensures Split(s) == Cut([line] + Split(rest).frames, Split(rest).rest)
  {
    var k := |line|;
    assert s[..k] == line && s[k] == '\n' && s[k + 1] == '\n' && s[k + 2..] == rest;
    forall j | 0 <= j < k
      ensures SeparatorAt(s, j) == 0
    {
      assert s[j] == line[j] && s[j] != '\n';
    }
    assert SeparatorAt(s, k) == 2;
    FirstSeparatorUnique(s, k);
    hide SeparatorAt;
  }

  lemma LineCarriesPayload(p: string, line: string)
    requires OneLine(p) && line == "data: " + p
    ensures FrameData(line) == p
  {
    assert FirstLine(line) == |line| by {
      assert forall i | 0 <= i < |line| :: line[i] != '\n';
    }
    assert line[..|line|] == line;
    assert line[5..] == " " + p && line[5..][1..] == p;
    assert "data:" <= line && TrimStart(line[5..]) == p;
    assert DataLines(line) == [p];
  }

  lemma {:induction false} FramesOfPayloads(payloads: seq<string>)
    requires forall p | p in payloads :: OneLine(p)
    ensures Datas(AllFrames(EncodeAll(payloads))) == payloads
    ensures Split(EncodeAll(payloads)).rest == ""
  {
    hide Split, FrameData;
    if payloads == [] {
      SplitFirst("", 0, 0);
    } else {
      var p, later := payloads[0], payloads[1..];
      FramesOfPayloads(later);
      FrameOfPayload(p, EncodeAll(later));
      var line := "data: " + p;
      assert AllFrames(EncodeAll(payloads)) == [line] + AllFrames(EncodeAll(later));
      DatasAppend([line], AllFrames(EncodeAll(later)));
      assert Datas([line]) == [p];
      assert payloads == [p] + later;
    }
  }

  lemma NoTailLeft(text: string, end: BodyEnd)
    requires Split(text).rest == ""
    ensures FramesRead(text, end) == AllFrames(text)
  {
    hide Split;
  }

  /**
   However the network cuts the response, the listener is given the server's events in order, up to the first it
   rejects.
   */
  lemma RoundTrip(payloads: seq<string>, end: BodyEnd, accepts: Listener)
    requires forall p | p in payloads :: OneLine(p)
    ensures DeliverRead(EncodeAll(payloads), end, accepts) == Deliver([], payloads, accepts)
    ensures Deliver([], payloads, accepts).payloads <= payloads
    ensures !Deliver([], payloads, accepts).failed ==> Deliver([], payloads, accepts).payloads == payloads
  {
    hide AllFrames, FramesRead, Datas, EncodeAll, Deliver, Split;
    FramesOfPayloads(payloads);
    NoTailLeft(EncodeAll(payloads), end);
    DeliversInOrder([], payloads, accepts);
  }

  lemma {:induction false} DeliversInOrder(done: seq<string>, payloads: seq<string>, accepts: Listener)
    requires forall p | p in payloads :: Carries(p)
    ensures var d := Deliver(done, payloads, accepts);
            d.payloads <= done + payloads && (!d.failed ==> d.payloads == done + payloads)
    decreases |payloads|
  {
    hide Carries;
    if payloads != [] {
      assert payloads[0] in payloads && done + [payloads[0]] + payloads[1..] == done + payloads;
      DeliversInOrder(done + [payloads[0]], payloads[1..], accepts);
    }
  }
}
