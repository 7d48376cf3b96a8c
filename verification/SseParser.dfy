/**
 The mobile client's incremental parser of the transaction stream: it appends each decoded chunk to a
 buffer and cuts complete blocks off its front. `Blocks` and `Transactions` say what the whole text
 means; the parser agrees with them for every way of cutting the text into chunks.
 */
module SseParser {
  import opened Option
  import opened Sequences

  /** The fields of a parsed payload the client looks at. */
  datatype Payload<+T> = Payload(eventType: Option<string>, transaction: Option<T>, data: Option<T>)

  // ---------- what a text means ----------

  /** Two newlines at position `i`. */
  predicate BlankAt(s: string, i: int) {
    0 <= i && i + 1 < |s| && s[i] == '\n' && s[i + 1] == '\n'
  }

  /** The leftmost blank line at or after `from`, or -1. */
  function IndexOf(s: string, from: nat): (b: int)
    ensures b == -1 || (from <= b && BlankAt(s, b))
    ensures forall i :: from <= i && (b == -1 || i < b) ==> !BlankAt(s, i)
    decreases |s| - from
  {
    if from + 1 >= |s| then -1 else if BlankAt(s, from) then from else IndexOf(s, from + 1)
  }

  /** The complete blocks of a text, each ended by the leftmost blank line after it. */
  function Blocks(s: string): seq<string>
    decreases |s|
  {
    var b := IndexOf(s, 0);
    if b == -1 then [] else [s[..b]] + Blocks(s[b + 2..])
  }

  /** What follows the last complete block. */
  function Tail(s: string): string
    decreases |s|
  {
    var b := IndexOf(s, 0);
    if b == -1 then s else Tail(s[b + 2..])
  }

  function NewlineFrom(s: string, from: nat): (n: nat)
    requires from <= |s|
    ensures from <= n <= |s|
    ensures n < |s| ==> s[n] == '\n'
    ensures forall i :: from <= i < n ==> s[i] != '\n'
    decreases |s| - from
  {
    if from == |s| || s[from] == '\n' then from else NewlineFrom(s, from + 1)
  }

  /** The lines of a block. */
  function Lines(s: string): seq<string>
    decreases |s|
  {
    var n := NewlineFrom(s, 0);
    if n == |s| then [s] else [s[..n]] + Lines(s[n + 1..])
  }

  const DATA := "data:"

  /** Only the first `data:` line of a block counts. */
  function FirstData(lines: seq<string>): (line: Option<string>)
    ensures line.Some? ==> DATA <= line.value && line.value in lines
    ensures line.None? ==> forall k :: 0 <= k < |lines| ==> !(DATA <= lines[k])
  {
    if lines == [] then None
    else if DATA <= lines[0] then Some(lines[0])
    else FirstData(lines[1..])
  }

  /** `parse` stands for `JSON.parse` of the trimmed text; `None` when it or reading the result throws. */
  function Transaction<T>(parse: string -> Option<Payload<T>>, block: string): seq<T> {
    var line := FirstData(Lines(block));
    if line.None? then []
    else
      var payload := parse(line.value[|DATA|..]);
      if payload.None? || payload.value.eventType == Some("heartbeat") || payload.value.eventType == Some("ping") then []
      else if payload.value.transaction.Some? then [payload.value.transaction.value]
      else if payload.value.data.Some? then [payload.value.data.value]
      else []
  }

  function TransactionsOf<T>(parse: string -> Option<Payload<T>>, blocks: seq<string>): seq<T> {
    if blocks == [] then [] else Transaction(parse, blocks[0]) + TransactionsOf(parse, blocks[1..])
  }

  /** The transactions a text delivers; the unterminated tail is dropped. */
  function Transactions<T>(parse: string -> Option<Payload<T>>, text: string): seq<T> {
    TransactionsOf(parse, Blocks(text))
  }

  // ---------- the meaning does not depend on how the text is cut ----------

  lemma IndexOfExtends(a: string, b: string)
    requires IndexOf(a, 0) != -1
    ensures IndexOf(a + b, 0) == IndexOf(a, 0)
  {
    var i := IndexOf(a, 0);
    assert BlankAt(a + b, i);
    forall j | 0 <= j < i ensures !BlankAt(a + b, j) {
      assert !BlankAt(a, j);
    }
  }

  lemma FirstBlock(s: string, b: nat)
    requires IndexOf(s, 0) == b
    ensures Blocks(s) == [s[..b]] + Blocks(s[b + 2..]) && Tail(s) == Tail(s[b + 2..])
  {
  }

  /** Parsing a text is parsing a prefix, then what the prefix left over together with the rest. */
  lemma {:induction false} BlocksAppend(a: string, b: string)
    ensures Blocks(a + b) == Blocks(a) + Blocks(Tail(a) + b)
    ensures Tail(a + b) == Tail(Tail(a) + b)
    decreases |a|
  {
    var i := IndexOf(a, 0);
    if i != -1 {
      var rest := a[i + 2..];
      IndexOfExtends(a, b);
      FirstBlock(a, i);
      FirstBlock(a + b, i);
      assert (a + b)[..i] == a[..i];
      assert (a + b)[i + 2..] == rest + b;
      BlocksAppend(rest, b);
      Joined([a[..i]], Blocks(rest), Blocks(Tail(rest) + b));
    }
  }

  lemma {:induction false} TransactionsAppend<T>(parse: string -> Option<Payload<T>>, a: seq<string>, b: seq<string>)
    ensures TransactionsOf(parse, a + b) == TransactionsOf(parse, a) + TransactionsOf(parse, b)
  {
    if a == [] {
      assert a + b == b;
    } else {
      assert (a + b)[1..] == a[1..] + b;
      TransactionsAppend(parse, a[1..], b);
    }
  }

  /** What one more chunk adds is what it completes together with the tail kept so far. */
  lemma NextChunk<T>(parse: string -> Option<Payload<T>>, a: string, b: string)
    ensures Transactions(parse, a + b) == Transactions(parse, a) + Transactions(parse, Tail(a) + b)
    ensures Tail(a + b) == Tail(Tail(a) + b)
  {
    BlocksAppend(a, b);
    TransactionsAppend(parse, Blocks(a), Blocks(Tail(a) + b));
  }

  /** A block is proper if the blank line after it is the first one in it. */
  predicate ProperBlock(b: string) {
    IndexOf(b + "\n\n", 0) == |b|
  }

  function Join(blocks: seq<string>, tail: string): string {
    if blocks == [] then tail else blocks[0] + "\n\n" + Join(blocks[1..], tail)
  }

  /** `Blocks` and `Tail` lose nothing: put together again they are the text. */
  lemma {:induction false} SplitThenJoin(s: string)
    ensures Join(Blocks(s), Tail(s)) == s
    ensures forall k :: 0 <= k < |Blocks(s)| ==> ProperBlock(Blocks(s)[k])
    ensures IndexOf(Tail(s), 0) == -1
    decreases |s|
  {
    var b := IndexOf(s, 0);
    if b != -1 {
      SplitThenJoin(s[b + 2..]);
      assert s == s[..b] + "\n\n" + s[b + 2..];
      assert BlankAt(s[..b] + "\n\n", b);
      forall j | 0 <= j < b ensures !BlankAt(s[..b] + "\n\n", j) {
        assert !BlankAt(s, j);
      }
    }
  }

  /** And they are the only way to take the text apart like that. */
  lemma {:induction false} JoinThenSplit(blocks: seq<string>, tail: string)
    requires forall k :: 0 <= k < |blocks| ==> ProperBlock(blocks[k])
    requires IndexOf(tail, 0) == -1
    ensures Blocks(Join(blocks, tail)) == blocks
    ensures Tail(Join(blocks, tail)) == tail
  {
    if blocks != [] {
      var head, rest := blocks[0] + "\n\n", Join(blocks[1..], tail);
      var s := Join(blocks, tail);
      IndexOfExtends(head, rest);
      assert s == head + rest;
      assert s[..|blocks[0]|] == blocks[0] && s[|blocks[0]| + 2..] == rest;
      JoinThenSplit(blocks[1..], tail);
    }
  }

  // ---------- lines ----------

  predicate IsLine(line: string) { '\n' !in line }

  function JoinLines(lines: seq<string>): string {
    if lines == [] then "" else if |lines| == 1 then lines[0] else lines[0] + "\n" + JoinLines(lines[1..])
  }

  lemma NewlineAfter(line: string, rest: string)
    requires IsLine(line)
    ensures NewlineFrom(line, 0) == |line| && NewlineFrom(line + "\n" + rest, 0) == |line|
  {
    var s := line + "\n" + rest;
    assert forall k :: 0 <= k < |line| ==> s[k] == line[k];
    assert s[|line|] == '\n';
  }

  /** `Lines` loses nothing: its lines hold no line break, and put together again they are the block. */
  lemma {:induction false} LinesThenJoin(s: string)
    ensures Lines(s) != [] && JoinLines(Lines(s)) == s
    ensures forall k :: 0 <= k < |Lines(s)| ==> IsLine(Lines(s)[k])
    decreases |s|
  {
    var n := NewlineFrom(s, 0);
    if n < |s| {
      LinesThenJoin(s[n + 1..]);
      assert Lines(s)[1..] == Lines(s[n + 1..]);
      assert s == s[..n] + "\n" + s[n + 1..];
    }
  }

  /** And they are the only way to take it apart like that. */
  lemma {:induction false} JoinThenLines(lines: seq<string>)
    requires lines != [] && forall k :: 0 <= k < |lines| ==> IsLine(lines[k])
    ensures Lines(JoinLines(lines)) == lines
  {
    if |lines| == 1 {
      NewlineAfter(lines[0], "");
    } else {
      var rest := JoinLines(lines[1..]);
      NewlineAfter(lines[0], rest);
      JoinThenLines(lines[1..]);
      assert JoinLines(lines)[..|lines[0]|] == lines[0] && JoinLines(lines)[|lines[0]| + 1..] == rest;
    }
  }

  // ---------- the first data line ----------

  /** A line that starts at position `i` starts with `data:`. */
  predicate DataAt(s: string, i: nat) {
    i <= |s| && (i == 0 || s[i - 1] == '\n') && DATA <= s[i..]
  }

  /** The text from `i` on has no line break before `j`, and then one or its end. */
  predicate EndsAt(s: string, i: nat, j: nat) {
    i <= j <= |s| && (j == |s| || s[j] == '\n') && forall k :: i <= k < j ==> s[k] != '\n'
  }

  ghost predicate NoDataBefore(s: string, i: nat) { forall k: nat :: k < i ==> !DataAt(s, k) }

  /** The first `data:` line goes from `i` to `j`. */
  ghost predicate DataLine(s: string, i: nat, j: nat) {
    DataAt(s, i) && NoDataBefore(s, i) && EndsAt(s, i, j)
  }

  lemma DataFits(s: string, i: nat, j: nat)
    requires DataAt(s, i) && EndsAt(s, i, j)
    ensures i + |DATA| <= j
  {
    forall k | i <= k < i + |DATA| ensures s[k] != '\n' {
      assert s[k] == s[i..][k - i] == DATA[k - i];
    }
  }

  lemma DataHead(s: string, n: nat)
    requires n == NewlineFrom(s, 0)
    ensures DATA <= s[..n] <==> DataAt(s, 0)
    ensures forall k: nat :: 0 < k <= n ==> !DataAt(s, k)
  {
    assert s[0..] == s;
    if DataAt(s, 0) {
      DataFits(s, 0, n);
      assert s[..n][..|DATA|] == s[..|DATA|];
    }
    if DATA <= s[..n] {
      assert s[..|DATA|] == s[..n][..|DATA|];
    }
  }

  lemma DataBehind(s: string, d: nat, k: nat)
    requires 0 < d <= |s| && s[d - 1] == '\n' && k <= |s| - d
    ensures DataAt(s, d + k) <==> DataAt(s[d..], k)
  {
    assert s[d..][k..] == s[d + k..];
  }

  lemma EndsBehind(s: string, d: nat, i: nat, j: nat)
    requires d <= |s| && EndsAt(s[d..], i, j)
    ensures EndsAt(s, d + i, d + j) && s[d + i..d + j] == s[d..][i..j]
  {
    forall k | d + i <= k < d + j ensures s[k] != '\n' {
      assert s[d..][k - d] != '\n';
    }
  }

  /** Without a `data:` line at its start, a block has those of the text after its first line. */
  lemma NoDataBehind(s: string, d: nat, i: nat)
    requires 0 < d <= |s| && d - 1 == NewlineFrom(s, 0) && !DataAt(s, 0) && NoDataBefore(s[d..], i)
    ensures NoDataBefore(s, d + i)
  {
    DataHead(s, d - 1);
    forall k: nat | k < d + i ensures !DataAt(s, k) {
      if d <= k <= |s| {
        DataBehind(s, d, k - d);
      }
    }
  }

  ghost predicate DataLineIs(s: string, line: string) {
    exists i: nat, j: nat :: DataLine(s, i, j) && s[i..j] == line
  }

  lemma DataLineBehind(s: string, d: nat, line: string)
    requires 0 < d <= |s| && d - 1 == NewlineFrom(s, 0) && !DataAt(s, 0) && DataLineIs(s[d..], line)
    ensures DataLineIs(s, line)
  {
    var i: nat, j: nat :| DataLine(s[d..], i, j) && s[d..][i..j] == line;
    DataBehind(s, d, i);
    NoDataBehind(s, d, i);
    EndsBehind(s, d, i, j);
    assert DataLine(s, d + i, d + j);
  }

  lemma FirstDataHere(s: string, n: nat)
    requires n == NewlineFrom(s, 0) && DATA <= s[..n]
    ensures FirstData(Lines(s)) == Some(s[..n])
  {
    assert Lines(s)[0] == s[..n];
  }

  lemma FirstDataLater(s: string, n: nat)
    requires n == NewlineFrom(s, 0) && !(DATA <= s[..n])
    ensures FirstData(Lines(s)) == if n == |s| then None else FirstData(Lines(s[n + 1..]))
  {
    assert Lines(s)[0] == s[..n];
    assert n < |s| ==> Lines(s)[1..] == Lines(s[n + 1..]);
  }

  /** `FirstData` finds that line, and nothing when there is none. */
  lemma {:induction false} FirstDataLine(s: string)
    ensures FirstData(Lines(s)).None? ==> NoDataBefore(s, |s| + 1)
    ensures FirstData(Lines(s)).Some? ==> DataLineIs(s, FirstData(Lines(s)).value)
    decreases |s|
  {
    var n := NewlineFrom(s, 0);
    DataHead(s, n);
    if DATA <= s[..n] {
      FirstDataHere(s, n);
      assert DataLine(s, 0, n);
    } else {
      FirstDataLater(s, n);
      if n < |s| {
        FirstDataLine(s[n + 1..]);
        if FirstData(Lines(s)).Some? {
          DataLineBehind(s, n + 1, FirstData(Lines(s)).value);
        } else {
          NoDataBehind(s, n + 1, |s| - n);
        }
      }
    }
  }

  lemma DataLineUnique(s: string, i: nat, j: nat, i': nat, j': nat)
    requires DataLine(s, i, j) && DataLine(s, i', j')
    ensures i == i' && j == j' && i + |DATA| <= j
  {
    assert !(i < i') && !(i' < i);
    assert !(j < j') && !(j' < j);
    DataFits(s, i, j);
  }

  // ---------- messages as the server frames them ----------

  /** A message on a `data:` line, with the lines before it, such as an id, and after it. */
  datatype Frame = Frame(before: seq<string>, message: string, after: seq<string>)
  {
    function Block(): string { JoinLines(before + [DATA + message] + after) }

    /** No line is empty, and the message is on the first `data:` line. */
    ghost predicate Sound() {
      && IsLine(message)
      && (forall k :: 0 <= k < |before| ==> before[k] != "" && IsLine(before[k]) && !(DATA <= before[k]))
      && (forall k :: 0 <= k < |after| ==> after[k] != "" && IsLine(after[k]))
    }
  }

  /** No blank line, and no line break at either end. */
  ghost predicate Compact(s: string) {
    s != "" && s[0] != '\n' && s[|s| - 1] != '\n' && forall i :: !BlankAt(s, i)
  }

  lemma JoinCompact(line: string, rest: string)
    requires line != "" && IsLine(line) && Compact(rest)
    ensures Compact(line + "\n" + rest)
  {
    var s := line + "\n" + rest;
    forall i ensures !BlankAt(s, i) {
      assert !BlankAt(rest, i - |line| - 1);
    }
  }

  lemma {:induction false} LinesCompact(lines: seq<string>)
    requires lines != [] && forall k :: 0 <= k < |lines| ==> lines[k] != "" && IsLine(lines[k])
    ensures Compact(JoinLines(lines))
  {
    if |lines| > 1 {
      LinesCompact(lines[1..]);
      JoinCompact(lines[0], JoinLines(lines[1..]));
    }
  }

  lemma CompactIsProper(b: string)
    requires Compact(b)
    ensures ProperBlock(b)
  {
    var s := b + "\n\n";
    assert BlankAt(s, |b|);
    forall i | 0 <= i < |b| ensures !BlankAt(s, i) {
      assert !BlankAt(b, i);
    }
  }

  lemma {:induction false} FirstDataAfter(before: seq<string>, line: string, after: seq<string>)
    requires DATA <= line && forall k :: 0 <= k < |before| ==> !(DATA <= before[k])
    ensures FirstData(before + [line] + after) == Some(line)
  {
    if before != [] {
      var lines := before + [line] + after;
      assert lines[0] == before[0];
      assert lines[1..] == before[1..] + [line] + after;
      FirstDataAfter(before[1..], line, after);
    }
  }

  lemma FrameIsRead(f: Frame)
    requires f.Sound()
    ensures ProperBlock(f.Block()) && FirstData(Lines(f.Block())) == Some(DATA + f.message)
  {
    var lines := f.before + [DATA + f.message] + f.after;
    LinesCompact(lines);
    CompactIsProper(f.Block());
    JoinThenLines(lines);
    FirstDataAfter(f.before, DATA + f.message, f.after);
  }

  /**
   Messages without line breaks, framed as the server frames them with any other lines before and after,
   arrive one for one and in order: block `k` is cut out as it was written, and hands on what message `k`
   holds and nothing else.
   */
  lemma FramedMessagesArrive<T>(parse: string -> Option<Payload<T>>, frames: seq<Frame>, tail: string)
    requires forall k :: 0 <= k < |frames| ==> frames[k].Sound()
    requires IndexOf(tail, 0) == -1
    ensures var blocks := seq(|frames|, (k: int) requires 0 <= k < |frames| => frames[k].Block());
            && Blocks(Join(blocks, tail)) == blocks && Tail(Join(blocks, tail)) == tail
            && forall k, x :: 0 <= k < |frames| ==>
                                (Transaction(parse, blocks[k]) == [x] <==> Holds(parse(frames[k].message), x))
  {
    var blocks := seq(|frames|, (k: int) requires 0 <= k < |frames| => frames[k].Block());
    forall k | 0 <= k < |frames|
      ensures ProperBlock(blocks[k]) && FirstData(Lines(blocks[k])) == Some(DATA + frames[k].message)
    {
      FrameIsRead(frames[k]);
    }
    JoinThenSplit(blocks, tail);
    forall k, x | 0 <= k < |frames| ensures Transaction(parse, blocks[k]) == [x] <==> Holds(parse(frames[k].message), x) {
      assert (DATA + frames[k].message)[|DATA|..] == frames[k].message;
    }
  }

  // ---------- the parser ----------

  /** What one `reader.read()` gives; `aborted` tells that `close` was called while it was pending. */
  datatype Read = Chunk(text: string) | Done | Fail(aborted: bool)

  /** How many chunks the parser consumes when `close` takes effect before loop check number `closeAt`. */
  function Consumed(inputs: seq<Read>, closeAt: nat): (n: nat)
    ensures n <= |inputs| && n <= closeAt
    ensures forall i :: 0 <= i < n ==> inputs[i].Chunk?
    ensures n == |inputs| || n == closeAt || !inputs[n].Chunk?
    decreases |inputs|
  {
    if inputs == [] || closeAt == 0 || !inputs[0].Chunk? then 0 else 1 + Consumed(inputs[1..], closeAt - 1)
  }

  function Text(inputs: seq<Read>, n: nat): string
    requires n <= |inputs| && forall i :: 0 <= i < n ==> inputs[i].Chunk?
  {
    if n == 0 then "" else Text(inputs, n - 1) + inputs[n - 1].text
  }

  lemma {:induction false} ConsumedIsUnique(inputs: seq<Read>, closeAt: nat, n: nat)
    requires n <= |inputs| && n <= closeAt
    requires forall i :: 0 <= i < n ==> inputs[i].Chunk?
    requires n == |inputs| || n == closeAt || !inputs[n].Chunk?
    ensures Consumed(inputs, closeAt) == n
  {
    if n > 0 {
      assert inputs[0].Chunk?;
      ConsumedIsUnique(inputs[1..], closeAt - 1, n - 1);
    }
  }

  lemma FrontBlock<T>(parse: string -> Option<Payload<T>>, s: string, b: nat)
    requires IndexOf(s, 0) == b
    ensures Tail(s) == Tail(s[b + 2..])
    ensures Transactions(parse, s) == Transaction(parse, s[..b]) + Transactions(parse, s[b + 2..])
  {
    FirstBlock(s, b);
    assert Blocks(s)[1..] == Blocks(s[b + 2..]);
  }

  /** The parsed payload is no keep-alive and holds `x`, as `transaction` or else as `data`. */
  ghost predicate Holds<T>(payload: Option<Payload<T>>, x: T) {
    && payload.Some?
    && payload.value.eventType !in {Some("heartbeat"), Some("ping")}
    && (payload.value.transaction == Some(x) || (payload.value.transaction.None? && payload.value.data == Some(x)))
  }

  /** What follows `data:` on the first line that starts so, wherever it is, holds `x`. */
  ghost predicate Bears<T>(parse: string -> Option<Payload<T>>, block: string, x: T) {
    exists i: nat, j: nat :: DataLine(block, i, j) && i + |DATA| <= j && Holds(parse(block[i..j][|DATA|..]), x)
  }

  lemma FirstDataBears<T>(parse: string -> Option<Payload<T>>, block: string, x: T)
    ensures Bears(parse, block, x) <==>
            FirstData(Lines(block)).Some? && Holds(parse(FirstData(Lines(block)).value[|DATA|..]), x)
  {
    var line := FirstData(Lines(block));
    FirstDataLine(block);
    if line.Some? {
      var i: nat, j: nat :| DataLine(block, i, j) && block[i..j] == line.value;
      if Bears(parse, block, x) {
        var i': nat, j': nat :| DataLine(block, i', j') && i' + |DATA| <= j' && Holds(parse(block[i'..j'][|DATA|..]), x);
        DataLineUnique(block, i, j, i', j');
      }
    }
  }

  /**
   What is done with one block: it hands on at most one transaction, and hands on `x` exactly when the
   first `data:` line of the block parses, is no heartbeat or ping, and holds `x`.
   */
  method Handle<T>(parse: string -> Option<Payload<T>>, rawEvent: string) returns (delivered: seq<T>)
    ensures |delivered| <= 1
    ensures forall x :: delivered == [x] <==> Bears(parse, rawEvent, x)
    ensures delivered == Transaction(parse, rawEvent)
  {
    forall x ensures Transaction(parse, rawEvent) == [x] <==> Bears(parse, rawEvent, x) {
      FirstDataBears(parse, rawEvent, x);
    }
    delivered := [];
    var dataLine := FirstData(Lines(rawEvent));
    if dataLine.Some? {
      var payload := parse(dataLine.value[|DATA|..]);
      if payload.Some? {
        if payload.value.eventType == Some("heartbeat") || payload.value.eventType == Some("ping") {
          return;
        }
        var tx := if payload.value.transaction.Some? then payload.value.transaction else payload.value.data;
        if tx.Some? {
          delivered := [tx.value];
        }
      }
    }
  }

  /** The inner loop: cuts every complete block off the front of the buffer and hands on what it carries. */
  method Drain<T>(parse: string -> Option<Payload<T>>, received: string) returns (buffer: string, delivered: seq<T>)
    ensures delivered == Transactions(parse, received)
    ensures buffer == Tail(received)
  {
    buffer, delivered := received, [];
    var boundary := IndexOf(buffer, 0);
    while boundary != -1
      invariant boundary == IndexOf(buffer, 0)
      invariant Tail(buffer) == Tail(received)
      invariant delivered + Transactions(parse, buffer) == Transactions(parse, received)
      decreases |buffer|
    {
      FrontBlock(parse, buffer, boundary);
      var rawEvent := buffer[..boundary];
      buffer := buffer[boundary + 2..];
      var handed := Handle(parse, rawEvent);
      Joined(delivered, handed, Transactions(parse, buffer));
      delivered := delivered + handed;
      boundary := IndexOf(buffer, 0);
    }
  }

  /**
   `subscribeToTransactionStream`: delivers exactly the transactions of the text read so far, however
   it was cut, and reports an error exactly when a read fails and `close` was not the reason.
   */
  method Subscribe<T>(parse: string -> Option<Payload<T>>, inputs: seq<Read>, closeAt: nat)
    returns (delivered: seq<T>, reported: bool)
    ensures delivered == Transactions(parse, Text(inputs, Consumed(inputs, closeAt)))
    ensures var n := Consumed(inputs, closeAt);
            reported <==> n < |inputs| && n < closeAt && inputs[n] == Fail(false)
  {
    delivered, reported := [], false;
    var buffer := "";
    ghost var text := "";
    var i := 0;
    while i < |inputs| && i < closeAt
      invariant i <= |inputs| && i <= closeAt && !reported
      invariant forall k :: 0 <= k < i ==> inputs[k].Chunk?
      invariant text == Text(inputs, i)
      invariant delivered == Transactions(parse, text) && buffer == Tail(text)
    {
      if inputs[i].Done? {
        break;
      }
      if inputs[i].Fail? {
        reported := !inputs[i].aborted;
        break;
      }
      buffer := buffer + inputs[i].text;
      NextChunk(parse, text, inputs[i].text);
      text := text + inputs[i].text;
      var more: seq<T>;
      buffer, more := Drain(parse, buffer);
      delivered := delivered + more;
      i := i + 1;
    }
    ConsumedIsUnique(inputs, closeAt, i);
  }
}
