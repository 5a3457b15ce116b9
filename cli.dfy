/**
 * What both revisions of the admin-port client share: the Python values a batch passes
 * around, the exceptions the client raises, the reply frame (`<status> <length>\n`,
 * `length` bytes of body, `\n`), the loops that collect a reply body, the command
 * builders whose text is the same in both revisions, the parsers that turn reply
 * bodies into tables, the expansion of a batch into handler calls, the per-server loop
 * of `VarnishManager.run` and the `host:port` address split.
 */
module Cli {
  import opened Wrappers
  import opened Text
  import opened Telnet

  /** The Python values a batch of commands is made of. */
  datatype Value = NoneV | Bool(b: bool) | Int(i: int) | Str(s: string) | Tup(items: seq<Value>)

  /** Python truthiness. */
  predicate Truthy(v: Value) {
    match v
    case NoneV => false
    case Bool(b) => b
    case Int(i) => i != 0
    case Str(s) => s != []
    case Tup(items) => items != []
  }

  /** `str(v)`; the text of a tuple (its `repr`) is not modelled. */
  function Show(v: Value): Option<string> {
    match v
    case NoneV => Some("None")
    case Bool(b) => Some(if b then "True" else "False")
    case Int(i) => Some(IntToString(i))
    case Str(s) => Some(s)
    case Tup(_) => None
  }

  /** `'%s' % v`: a tuple operand is the argument tuple itself and must hold one value. */
  function FormatOne(v: Value): Option<string> {
    match v
    case Tup(items) => if |items| == 1 then Show(items[0]) else None
    case _ => Show(v)
  }

  /** The exceptions that end a call, named after what raises them. */
  datatype Error =
    | EndOfStream                                             // EOFError from read_until
    | ConnectionClosed                                        // write after close
    | BadHeader(line: string)                                 // header is not two integers
    | BadStatus(status: int, detail: string, command: Option<string>)  // the status assertion
    | BadCommand(cmd: Value)                                  // batch entry of the wrong shape
    | UnknownCommand(name: string)                            // getattr finds no such verb
    | BadArguments(name: string)                              // wrong arity or argument type
    | BadReplyLine(line: string)                              // a body line a parser cannot take
    | BadAddress(addr: string)                                // a timeout part, or too many parts
    | NoServers                                               // a manager without servers
    | Unmodelled(name: string)                                // a verb that leaves the admin port

  datatype Result<+T> = Ok(value: T) | Err(error: Error) {
    predicate IsFailure() { Err? }

    function PropagateFailure<U>(): Result<U>
      requires Err?
    {
      Err(error)
    }

    function Extract(): T
      requires Ok?
    {
      value
    }
  }

  /** A call's result together with the connection it leaves behind. */
  datatype Outcome<+T> = Outcome(result: Result<T>, wire: Wire)

  /**
   * How a call may change a connection: reads only move forward through the peer's data
   * and writes only append to what was sent.
   */
  predicate Follows(w: Wire, w': Wire) {
    w'.Valid() && w'.peer == w.peer && w.pos <= w'.pos && w.sent <= w'.sent
  }

  /** `((status, length), content)` as `fetch` returns it. */
  datatype Reply = Reply(status: int, length: int, content: string)

  /** What a handler method hands back to its caller. */
  datatype Output =
    | Fetched(reply: Reply)                  // the whole `fetch` result
    | Body(text: string)                     // the reply body
    | Tokens(words: seq<string>)             // `ping`: the body tokens after the first
    | Vcls(vcls: map<string, seq<string>>)   // `vcl_list`
    | Stats(stats: map<string, int>)         // `stats`
    | Nothing                                // a method that returns None

  /** How a verb turns its reply into its result. */
  datatype Shape = AsReply | AsBody | AsTokens | AsVcls | AsStats | AsNothing

  // ---------------------------------------------------------------- reply frames

  /** `status, length = map(int, line.split())`. */
  function ParseHeader(line: string): Option<(int, int)> {
    var ws := Split(line);
    if |ws| == 2 && ParseInt(ws[0]).Some? && ParseInt(ws[1]).Some? then
      Some((ParseInt(ws[0]).value, ParseInt(ws[1]).value))
    else None
  }

  /** The header line the server sends, padded with spaces after the length. */
  function HeaderLine(status: int, length: int, pad: string): string {
    IntToString(status) + " " + IntToString(length) + pad + "\n"
  }

  /** A whole reply as the server frames it. */
  function Frame(status: int, body: string, pad: string): string {
    HeaderLine(status, |body|, pad) + body + "\n"
  }

  predicate Padding(pad: string) {
    forall i :: 0 <= i < |pad| ==> pad[i] == ' '
  }

  /** The header line's two numbers are read back, and stripping it leaves no blank line. */
  lemma HeaderRoundTrip(status: int, length: int, pad: string)
    requires Padding(pad)
    ensures ParseHeader(HeaderLine(status, length, pad)) == Some((status, length))
    ensures ParseHeader(Strip(HeaderLine(status, length, pad))) == Some((status, length))
    ensures Strip(HeaderLine(status, length, pad)) != []
  {
    var a := IntToString(status);
    var b := IntToString(length);
    ParseIntToString(status);
    ParseIntToString(length);
    var ws := [a, b];
    assert Join(" ", ws[1..]) == b;
    assert Join(" ", ws) == a + " " + b;
    var tail := pad + "\n";
    assert IsBlank(tail) by {
      forall k | 0 <= k < |tail| ensures IsSpace(tail[k]) {
        if k < |pad| { assert tail[k] == pad[k]; }
      }
    }
    assert HeaderLine(status, length, pad) == Join(" ", ws) + tail;
    SplitJoinWords(ws, tail);
    StripWordsLine(ws, tail);
    SplitJoinWords(ws, []);
    assert Join(" ", ws) + [] == Join(" ", ws);
  }

  // ---------------------------------------------------------------- body loops

  /**
   * Where `while len(content) < length: content += read_until('\n')` stops when it starts
   * at `p` with `need` characters still wanted; `None` when the data runs out first.
   */
  function BodyEnd(data: string, p: nat, need: int): (r: Option<nat>)
    requires p <= |data|
    ensures r.None? <==> need > |data| - p
    ensures r.Some? ==> p <= r.value <= |data| && r.value - p >= need
    ensures r.Some? ==> r.value == p || r.value == |data| || data[r.value - 1] == '\n'
    decreases |data| - p
  {
    if need <= 0 then Some(p)
    else if p == |data| then None
    else
      var e := LineEnd(data, p);
      BodyEnd(data, e, need - (e - p))
  }

  /**
   * One pass of the body loop that started at `start` reads one line: where it stops does not
   * change when counted from the end of that line.
   */
  lemma BodyEndStep(data: string, start: nat, p: nat, q: nat, length: int)
    requires start <= p < |data| && q == LineEnd(data, p) && length - (p - start) > 0
    ensures BodyEnd(data, p, length - (p - start)) == BodyEnd(data, q, length - (q - start))
  {
  }

  /**
   * Reading the body of a frame: when `need` characters are followed by a newline, the
   * loop ends at that newline, or just before it when the body already ends a line.
   */
  lemma {:induction false} BodyEndFrame(data: string, p: nat, need: nat)
    requires p + need < |data| && data[p + need] == '\n'
    ensures BodyEnd(data, p, need)
      == Some(if need == 0 || data[p + need - 1] == '\n' then p + need else p + need + 1)
    decreases need
  {
    if need > 0 {
      var e := LineEnd(data, p);
      LineEndFirst(data, p, p + need);
      if data[p + need - 1] == '\n' {
        LineEndFirst(data, p, p + need - 1);
      }
      if e < p + need {
        BodyEndFrame(data, e, p + need - e);
      }
    }
  }

  /** `while len(content) < length: content += self.read_until('\n')` on the handler's connection. */
  method ReadBody(conn: Channel, length: int) returns (body: Option<string>)
    requires conn.State().Valid()
    modifies conn
    ensures conn.sent == old(conn.sent) && conn.open == old(conn.open)
    ensures old(conn.pos) <= conn.pos <= |conn.data|
    ensures body.None? ==> BodyEnd(conn.data, old(conn.pos), length) == None && conn.pos == |conn.data|
    ensures body.Some? ==>
      (&& BodyEnd(conn.data, old(conn.pos), length) == Some(conn.pos)
       && body.value == conn.data[old(conn.pos)..conn.pos])
  {
    var start := conn.pos;
    var content := [];
    while |content| < length
      invariant conn.sent == old(conn.sent) && conn.open == old(conn.open)
      invariant start <= conn.pos <= |conn.data| && content == conn.data[start..conn.pos]
      invariant BodyEnd(conn.data, start, length) == BodyEnd(conn.data, conn.pos, length - (conn.pos - start))
      decreases |conn.data| - conn.pos
    {
      if conn.pos == |conn.data| {
        return None;
      }
      var piece := ReadBodyLine(conn, start, length);
      content := content + piece;
    }
    body := Some(content);
  }

  /** One pass of the body loop that started at `start`: read one line and keep counting. */
  method ReadBodyLine(conn: Channel, start: nat, length: int) returns (piece: string)
    requires conn.State().Valid() && start <= conn.pos < |conn.data| && length - (conn.pos - start) > 0
    modifies conn
    ensures conn.sent == old(conn.sent) && conn.open == old(conn.open)
    ensures old(conn.pos) < conn.pos <= |conn.data|
    ensures conn.data[start..conn.pos] == conn.data[start..old(conn.pos)] + piece
    ensures BodyEnd(conn.data, old(conn.pos), length - (old(conn.pos) - start))
      == BodyEnd(conn.data, conn.pos, length - (conn.pos - start))
  {
    var p := conn.pos;
    var line := conn.ReadUntilNewline();
    piece := line.value;
    BodyEndStep(conn.data, start, p, conn.pos, length);
    SliceSplit(conn.data, start, p, conn.pos);
  }

  /**
   * Where `while len(content) < length: content += read_some()` stops; `None` when the
   * data runs out first (the source then loops for ever on empty reads).
   */
  function ChunkEnd(data: string, cuts: set<nat>, p: nat, need: int): (r: Option<nat>)
    requires p <= |data|
    ensures r.None? <==> need > |data| - p
    ensures r.Some? ==> p <= r.value <= |data| && r.value - p >= need
    ensures r.Some? ==> r.value == p || r.value == |data| || r.value in cuts
    decreases |data| - p
  {
    if need <= 0 then Some(p)
    else if p == |data| then None
    else
      var c := NextCut(data, cuts, p);
      ChunkEnd(data, cuts, c, need - (c - p))
  }

  /** One pass of the packet loop that started at `start` reads one packet. */
  lemma ChunkEndStep(data: string, cuts: set<nat>, start: nat, p: nat, q: nat, length: int)
    requires start <= p < |data| && q == NextCut(data, cuts, p) && length - (p - start) > 0
    ensures ChunkEnd(data, cuts, p, length - (p - start)) == ChunkEnd(data, cuts, q, length - (q - start))
  {
  }

  /**
   * The chunk loop stops at the first packet end that holds `need` characters: when
   * `target` ends a packet and every earlier packet end holds fewer, it stops at `target`.
   */
  lemma {:induction false} ChunkEndAt(data: string, cuts: set<nat>, p: nat, need: int, target: nat)
    requires p < target <= |data| && (target == |data| || target in cuts)
    requires 0 < need <= target - p
    requires forall k :: p < k < target && k in cuts ==> k - p < need
    ensures ChunkEnd(data, cuts, p, need) == Some(target)
    decreases target - p
  {
    var c := NextCut(data, cuts, p);
    if c < target {
      ChunkEndAt(data, cuts, c, need - (c - p), target);
    }
  }

  /** A line without an inner newline is read whole. */
  lemma LineEndOfLine(data: string, p: nat, line: string)
    requires p + |line| <= |data| && data[p..p + |line|] == line
    requires OneLine(line)
    ensures LineEnd(data, p) == p + |line| && data[p..LineEnd(data, p)] == line
  {
    var k := p + |line| - 1;
    assert forall j :: p <= j < k ==> data[j] == line[j - p];
    LineEndSkip(data, p, k);
    assert data[k] == line[|line| - 1];
  }

  /** The header line holds a newline only at its end. */
  lemma HeaderLineShape(status: int, length: int, pad: string)
    requires Padding(pad)
    ensures OneLine(HeaderLine(status, length, pad))
  {
    var a := IntToString(status);
    var b := IntToString(length);
    NumeralNoNewline(status);
    NumeralNoNewline(length);
    var h := HeaderLine(status, length, pad);
    assert h == a + " " + b + pad + "\n";
    forall k | 0 <= k < |h| - 1 ensures h[k] != '\n' {
      if k < |a| { assert h[k] == a[k]; }
      else if k == |a| { assert h[k] == ' '; }
      else if k < |a| + 1 + |b| { assert h[k] == b[k - |a| - 1]; }
      else { assert h[k] == pad[k - |a| - 1 - |b|]; }
    }
  }

  lemma NumeralNoNewline(i: int)
    ensures forall k :: 0 <= k < |IntToString(i)| ==> IntToString(i)[k] != '\n'
  {
    if i < 0 {
      var s := NatToString(-i);
      assert forall k :: 0 <= k < |s| ==> IsDigit(s[k]);
      assert forall k :: 1 <= k < |IntToString(i)| ==> IntToString(i)[k] == s[k - 1];
    } else {
      var s := NatToString(i);
      assert forall k :: 0 <= k < |s| ==> IsDigit(s[k]);
    }
  }

  /** `h` is one header line that, once stripped, carries `status` and `length`. */
  predicate HeaderOk(h: string, status: int, length: int) {
    OneLine(h) && Strip(h) != [] && ParseHeader(Strip(h)) == Some((status, length))
  }

  lemma HeaderLineOk(status: int, length: int, pad: string)
    requires Padding(pad)
    ensures HeaderOk(HeaderLine(status, length, pad), status, length)
  {
    HeaderLineShape(status, length, pad);
    HeaderRoundTrip(status, length, pad);
  }

  /**
   * A body that ends a line (or is empty), followed by the frame's newline: the body loop
   * collects exactly the body and leaves the frame's newline unread.
   */
  lemma BodyOfLines(data: string, p: nat, e: nat, body: string)
    requires body == [] || body[|body| - 1] == '\n'
    requires p + |body| == e && e < |data| && data[p..e + 1] == body + "\n"
    ensures BodyEnd(data, p, |body|) == Some(e) && data[p..e] == body
    ensures data[e] == '\n'
  {
    assert data[e] == (body + "\n")[|body|];
    BodyEndFrame(data, p, |body|);
    if |body| > 0 {
      assert data[e - 1] == body[|body| - 1];
    }
    assert data[p..e] == data[p..e + 1][..|body|];
  }

  /**
   * A body whose last line is open: the body loop reads on through the frame's newline, so
   * it collects the body and that newline.
   */
  lemma BodyOfOpenLine(data: string, p: nat, f: nat, body: string)
    requires body != [] && body[|body| - 1] != '\n'
    requires p + |body| + 1 == f && f <= |data| && data[p..f] == body + "\n"
    ensures BodyEnd(data, p, |body|) == Some(f)
  {
    assert data[f - 1] == (body + "\n")[|body|];
    BodyEndFrame(data, p, |body|);
    assert data[f - 2] == body[|body| - 1];
  }

  // ---------------------------------------------------------------- tables

  /**
   * `d = {}; for line in lines: d[key(line)] = value(line)`: the first line `row` cannot
   * take raises, and a later line overwrites an earlier one with the same key.
   */
  function Tabulate<V>(row: string -> Option<(string, V)>, lines: seq<string>): Result<map<string, V>> {
    if lines == [] then Ok(map[])
    else
      var last := lines[|lines| - 1];
      match Tabulate(row, lines[..|lines| - 1])
      case Err(e) => Err(e)
      case Ok(m) =>
        match row(last)
        case None => Err(BadReplyLine(last))
        case Some(kv) => Ok(m[kv.0 := kv.1])
  }

  /** The value of the last line whose key is `k`. */
  function LastValue<V>(row: string -> Option<(string, V)>, lines: seq<string>, k: string): Option<V> {
    if lines == [] then None
    else
      var r := row(lines[|lines| - 1]);
      if r.Some? && r.value.0 == k then Some(r.value.1)
      else LastValue(row, lines[..|lines| - 1], k)
  }

  /** The table is built exactly when every line is a row, and the first bad line is reported. */
  lemma {:induction false} TabulateOk<V>(row: string -> Option<(string, V)>, lines: seq<string>)
    ensures Tabulate(row, lines).Ok? <==> forall i :: 0 <= i < |lines| ==> row(lines[i]).Some?
    ensures Tabulate(row, lines).Err? ==>
      exists i :: 0 <= i < |lines| && row(lines[i]).None?
        && Tabulate(row, lines).error == BadReplyLine(lines[i])
        && forall j :: 0 <= j < i ==> row(lines[j]).Some?
  {
    if lines != [] {
      var init := lines[..|lines| - 1];
      TabulateOk(row, init);
      assert forall i :: 0 <= i < |init| ==> init[i] == lines[i];
    }
  }

  /** The loop stops at the first line that is not a row. */
  lemma {:induction false} TabulateFirstBad<V>(row: string -> Option<(string, V)>, lines: seq<string>, i: nat)
    requires i < |lines| && Tabulate(row, lines[..i]).Ok? && row(lines[i]).None?
    ensures Tabulate(row, lines) == Err(BadReplyLine(lines[i]))
  {
    var init := lines[..|lines| - 1];
    if |lines| == i + 1 {
      assert init == lines[..i];
    } else {
      assert init[..i] == lines[..i];
      TabulateFirstBad(row, init, i);
    }
  }

  /** Each key of the table holds the value of the last line with that key, and no other key is present. */
  lemma {:induction false} TabulateLastWins<V>(row: string -> Option<(string, V)>, lines: seq<string>, k: string)
    requires Tabulate(row, lines).Ok?
    ensures k in Tabulate(row, lines).value <==> LastValue(row, lines, k).Some?
    ensures k in Tabulate(row, lines).value ==> Tabulate(row, lines).value[k] == LastValue(row, lines, k).value
  {
    if lines != [] {
      TabulateLastWins(row, lines[..|lines| - 1], k);
    }
  }

  /** `a = line.split(); vcls[a[2]] = tuple(a[:-1])`. */
  function VclRow(line: string): Option<(string, seq<string>)> {
    var a := Split(line);
    if |a| < 3 then None else Some((a[2], a[..|a| - 1]))
  }

  /** A `vcl.list` line is keyed by its third field and holds every field but the last. */
  lemma VclRowOfFields(ws: seq<string>, tail: string)
    requires |ws| >= 3 && forall i :: 0 <= i < |ws| ==> IsWord(ws[i])
    requires IsBlank(tail)
    ensures VclRow(Join(" ", ws) + tail) == Some((ws[2], ws[..|ws| - 1]))
  {
    SplitJoinWords(ws, tail);
    VclRowOfSplit(Join(" ", ws) + tail, ws);
  }

  lemma VclRowOfSplit(line: string, ws: seq<string>)
    requires Split(line) == ws && |ws| >= 3
    ensures VclRow(line) == Some((ws[2], ws[..|ws| - 1]))
  {
  }

  /** A line with fewer than three fields makes `vcl_list` fail. */
  lemma VclRowShort(ws: seq<string>)
    requires |ws| < 3 && forall i :: 0 <= i < |ws| ==> IsWord(ws[i])
    ensures VclRow(Join(" ", ws)) == None
  {
    SplitJoinWords(ws, []);
    assert Join(" ", ws) + [] == Join(" ", ws);
  }

  /** The loop of `vcl_list` over the lines of the reply body. */
  method ParseVcls(body: string) returns (r: Result<map<string, seq<string>>>)
    ensures r == Tabulate(VclRow, SplitLines(body))
  {
    var lines := SplitLines(body);
    var vcls := map[];
    var i := 0;
    while i < |lines|
      invariant 0 <= i <= |lines|
      invariant Tabulate(VclRow, lines[..i]) == Ok(vcls)
    {
      assert lines[..i + 1][..i] == lines[..i];
      var a := Split(lines[i]);
      if |a| < 3 {
        TabulateFirstBad(VclRow, lines, i);
        return Err(BadReplyLine(lines[i]));
      }
      vcls := vcls[a[2] := a[..|a| - 1]];
      i := i + 1;
    }
    assert lines[..i] == lines;
    r := Ok(vcls);
  }

  // ---------------------------------------------------------------- replies and commands

  /** `ping`'s `content.split()[1:]`. */
  function PingTokens(body: string): seq<string> {
    var ws := Split(body);
    if ws == [] then [] else ws[1..]
  }

  /** The `PONG <time> <version>` reply yields the tokens after `PONG`. */
  lemma PingTokensOfWords(ws: seq<string>, tail: string)
    requires |ws| > 0 && forall i :: 0 <= i < |ws| ==> IsWord(ws[i])
    requires IsBlank(tail)
    ensures PingTokens(Join(" ", ws) + tail) == ws[1..]
  {
    SplitJoinWords(ws, tail);
  }

  /** How the reply becomes the method's result. */
  function Shaped(shape: Shape, reply: Reply): Result<Output> {
    match shape
    case AsReply => Ok(Fetched(reply))
    case AsBody => Ok(Body(reply.content))
    case AsTokens => Ok(Tokens(PingTokens(reply.content)))
    case AsVcls =>
      (match Tabulate(VclRow, SplitLines(reply.content))
       case Ok(m) => Ok(Vcls(m))
       case Err(e) => Err(e))
    case AsStats =>
      (match Tabulate(StatRow, SplitLines(reply.content))
       case Ok(m) => Ok(Stats(m))
       case Err(e) => Err(e))
    case AsNothing => Ok(Nothing)
  }

  /** `a = line.split(); stat['_'.join(a[1:]).lower()] = int(a[0])`. */
  function StatRow(line: string): Option<(string, int)> {
    var a := Split(line);
    if |a| == 0 || ParseInt(a[0]).None? then None
    else Some((Lower(Join("_", a[1..])), ParseInt(a[0]).value))
  }

  /** A `stats` line `<value> <words...>` is keyed by its words joined with `_`, lower-cased. */
  lemma StatRowOfFields(value: int, ws: seq<string>, lead: string, tail: string)
    requires forall i :: 0 <= i < |ws| ==> IsWord(ws[i])
    requires IsBlank(lead) && IsBlank(tail)
    ensures StatRow(lead + Join(" ", [IntToString(value)] + ws) + tail)
      == Some((Lower(Join("_", ws)), value))
  {
    ParseIntToString(value);
    StatRowOfNumeral(IntToString(value), value, ws, lead, tail);
  }

  lemma StatRowOfNumeral(numeral: string, value: int, ws: seq<string>, lead: string, tail: string)
    requires IsWord(numeral) && ParseInt(numeral) == Some(value)
    requires forall i :: 0 <= i < |ws| ==> IsWord(ws[i])
    requires IsBlank(lead) && IsBlank(tail)
    ensures StatRow(lead + Join(" ", [numeral] + ws) + tail) == Some((Lower(Join("_", ws)), value))
  {
    var all := [numeral] + ws;
    SplitPaddedWords(all, lead, tail);
    assert all[0] == numeral && all[1..] == ws;
  }

  /** Whitespace around words joined by single spaces does not change how the line splits. */
  lemma SplitPaddedWords(ws: seq<string>, lead: string, tail: string)
    requires forall i :: 0 <= i < |ws| ==> IsWord(ws[i])
    requires IsBlank(lead) && IsBlank(tail)
    ensures Split(lead + Join(" ", ws) + tail) == ws
  {
    var words := Join(" ", ws);
    SplitJoinWords(ws, tail);
    SplitBlankPrefix(lead, words + tail);
    Regroup(lead, words, tail);
  }

  lemma Regroup(a: string, b: string, c: string)
    ensures a + b + c == a + (b + c)
  {
  }

  /** The loop of `stats` over the lines of the reply body. */
  method ParseStats(body: string) returns (r: Result<map<string, int>>)
    ensures r == Tabulate(StatRow, SplitLines(body))
  {
    var lines := SplitLines(body);
    var stats := map[];
    var i := 0;
    while i < |lines|
      invariant 0 <= i <= |lines|
      invariant Tabulate(StatRow, lines[..i]) == Ok(stats)
    {
      assert lines[..i + 1][..i] == lines[..i];
      var a := Split(lines[i]);
      if |a| == 0 || ParseInt(a[0]).None? {
        TabulateFirstBad(StatRow, lines, i);
        return Err(BadReplyLine(lines[i]));
      }
      var key, value := Lower(Join("_", a[1..])), ParseInt(a[0]).value;
      assert StatRow(lines[i]) == Some((key, value));
      stats := stats[key := value];
      i := i + 1;
    }
    assert lines[..i] == lines;
    r := Ok(stats);
  }

  /** A method taking no argument sends its verb alone. */
  function Bare(word: string, name: string, args: seq<Value>): Result<string> {
    if args == [] then Ok(word) else Err(BadArguments(name))
  }

  /** `cmd = word; if arg: cmd += ' %s' % arg`, for a method with one optional argument. */
  function Optional(word: string, name: string, args: seq<Value>): Result<string> {
    if |args| > 1 then Err(BadArguments(name))
    else if |args| == 0 || !Truthy(args[0]) then Ok(word)
    else
      match FormatOne(args[0])
      case Some(t) => Ok(word + " " + t)
      case None => Err(BadArguments(name))
  }

  /** `'word %s' % arg`. */
  function Positional1(word: string, name: string, args: seq<Value>): Result<string> {
    if |args| != 1 then Err(BadArguments(name))
    else
      match FormatOne(args[0])
      case Some(t) => Ok(word + " " + t)
      case None => Err(BadArguments(name))
  }

  /** `fetch(command)`: the one argument, written as it is (`'%s\n' % command`). */
  function Verbatim(name: string, args: seq<Value>): Result<string> {
    if |args| != 1 then Err(BadArguments(name))
    else
      match FormatOne(args[0])
      case Some(t) => Ok(t)
      case None => Err(BadArguments(name))
  }

  /** `'word %s %s' % (a, b)`. */
  function Positional2(word: string, name: string, args: seq<Value>): Result<string> {
    if |args| != 2 || Show(args[0]).None? || Show(args[1]).None? then Err(BadArguments(name))
    else Ok(word + " " + Show(args[0]).value + " " + Show(args[1]).value)
  }

  /**
   * `'vcl.show' % configname`: the format has no placeholder, so only an empty argument
   * tuple gets through.
   */
  function VclShowText(args: seq<Value>): Result<string> {
    if args == [Tup([])] then Ok("vcl.show") else Err(BadArguments("vcl_show"))
  }

  /** `cmd = 'param.show '; if l: cmd += '-l '; cmd + param`. */
  function ParamShowText(name: string, args: seq<Value>): Result<string> {
    if |args| < 1 || |args| > 2 || !args[0].Str? then Err(BadArguments(name))
    else if |args| == 2 && Truthy(args[1]) then Ok("param.show -l " + args[0].s)
    else Ok("param.show " + args[0].s)
  }

  /** The words a command is made of, as the server splits it. */
  lemma WordsOfCommand(ws: seq<string>)
    requires forall i :: 0 <= i < |ws| ==> IsWord(ws[i])
    ensures Split(Join(" ", ws)) == ws
  {
    SplitJoinWords(ws, []);
    assert Join(" ", ws) + [] == Join(" ", ws);
  }

  /** The optional argument is sent exactly when it is truthy. */
  lemma OptionalWords(word: string, name: string, v: Value)
    requires IsWord(word)
    requires FormatOne(v).Some? && IsWord(FormatOne(v).value)
    ensures Optional(word, name, []) == Ok(word) && Split(word) == [word]
    ensures Optional(word, name, [v]).Ok?
    ensures Split(Optional(word, name, [v]).value)
      == if Truthy(v) then [word, FormatOne(v).value] else [word]
  {
    WordsOfCommand([word]);
    WordsOfCommand([word, FormatOne(v).value]);
    assert Join(" ", [word, FormatOne(v).value]) == word + " " + FormatOne(v).value;
  }

  /** Two arguments are sent as the verb's second and third words. */
  lemma Positional2Words(word: string, name: string, a: string, b: string)
    requires IsWord(word) && IsWord(a) && IsWord(b)
    ensures Positional2(word, name, [Str(a), Str(b)]) == Ok(Join(" ", [word, a, b]))
    ensures Split(Positional2(word, name, [Str(a), Str(b)]).value) == [word, a, b]
  {
    var ws := [word, a, b];
    assert Join(" ", ws[2..]) == b;
    assert Join(" ", ws[1..]) == a + " " + b;
    assert Join(" ", ws) == word + " " + a + " " + b;
    WordsOfCommand(ws);
  }

  /** One argument is sent as the verb's second word. */
  lemma Positional1Words(word: string, name: string, a: string)
    requires IsWord(word) && IsWord(a)
    ensures Positional1(word, name, [Str(a)]) == Ok(Join(" ", [word, a]))
    ensures Split(Positional1(word, name, [Str(a)]).value) == [word, a]
  {
    assert Join(" ", [word, a]) == word + " " + a;
    WordsOfCommand([word, a]);
  }

  /** `param.show` gets the `-l` flag exactly when `l` is truthy. */
  lemma ParamShowWords(name: string, param: string, l: Value)
    requires IsWord(param)
    ensures ParamShowText(name, [Str(param)]) == Ok("param.show " + param)
    ensures ParamShowText(name, [Str(param), l]).Ok?
    ensures Split(ParamShowText(name, [Str(param), l]).value)
      == if Truthy(l) then ["param.show", "-l", param] else ["param.show", param]
  {
    assert IsWord("param.show");
    assert IsWord("-l");
    WordsOfCommand(["param.show", param]);
    WordsOfCommand(["param.show", "-l", param]);
    assert Join(" ", ["param.show", param]) == "param.show " + param;
    assert Join(" ", ["param.show", "-l", param]) == "param.show -l " + param;
  }

  // ---------------------------------------------------------------- batches

  /** One call of a batch, or the exception its entry raises before any call is made. */
  datatype Step = Invoke(name: string, args: seq<Value>) | Reject(error: Error)

  /** A tuple command with more than one entry, which `run` expands. */
  predicate Multiple(c: Value) {
    c.Tup? && |c.items| > 1
  }

  /** `getattr(handler, c[0].replace('.', '_'))(*c[1:])` for an entry `c` of a tuple command. */
  function EntryStep(c: Value): Step {
    match c
    case Tup(items) =>
      if items == [] then Reject(BadCommand(c))
      else if items[0].Str? then Invoke(Replace(items[0].s, '.', '_'), items[1..])
      else Reject(BadCommand(c))
    case Str(s) =>
      if s == [] then Reject(BadCommand(c))
      else Invoke(Replace(s[..1], '.', '_'), seq(|s| - 1, i requires 0 <= i < |s| - 1 => Str([s[i + 1]])))
    case _ => Reject(BadCommand(c))
  }

  function Entries(c: Value): seq<Step>
    requires Multiple(c)
  {
    seq(|c.items|, j requires 0 <= j < |c.items| => EntryStep(c.items[j]))
  }

  /** `getattr(handler, cmd.replace('.', '_'))(*args)` for a command that is not expanded. */
  function PlainStep(c: Value, args: seq<Value>): Step {
    if c.Str? then Invoke(Replace(c.s, '.', '_'), args) else Reject(BadCommand(c))
  }

  /** The entries of commands that are all expanded, in order. */
  function Flatten(cs: seq<Value>): seq<Step>
    requires forall i :: 0 <= i < |cs| ==> Multiple(cs[i])
  {
    if cs == [] then [] else Entries(cs[0]) + Flatten(cs[1..])
  }

  /** `results` followed by what the rest of the batch yields. */
  function Then(results: seq<Output>, o: Outcome<seq<Output>>): Outcome<seq<Output>> {
    match o.result
    case Ok(rs) => Outcome(Ok(results + rs), o.wire)
    case Err(e) => Outcome(Err(e), o.wire)
  }

  /** `results` followed by the results of the rest of a loop, unless the rest fails. */
  function Prefixed<T>(results: seq<T>, rest: Result<seq<T>>): Result<seq<T>> {
    match rest
    case Ok(more) => Ok(results + more)
    case Err(e) => Err(e)
  }

  /** A loop over `xs` starts with nothing collected and nothing consumed. */
  lemma PrefixedStart<T, U>(xs: seq<U>, r: Result<seq<T>>)
    ensures xs[0..] == xs && Prefixed([], r) == r
  {
    if r.Ok? {
      assert [] + r.value == r.value;
    }
  }

  /** A loop that has consumed all of `xs` yields what it collected. */
  lemma PrefixedDone<T, U>(xs: seq<U>, results: seq<T>, r: Result<seq<T>>)
    requires r == Ok([])
    ensures xs[|xs|..] == [] && Prefixed(results, r) == Ok(results)
  {
    assert results + [] == results;
  }

  lemma PrefixedPrefixed<T>(a: seq<T>, b: seq<T>, rest: Result<seq<T>>)
    ensures Prefixed(a, Prefixed(b, rest)) == Prefixed(a + b, rest)
  {
    if rest.Ok? {
      assert a + (b + rest.value) == (a + b) + rest.value;
    }
  }

  /** `[run(server, *commands) for server in servers]`: the first failing server raises. */
  function EachServer<T>(servers: seq<string>, batch: string -> Result<T>): Result<seq<T>> {
    if servers == [] then Ok([])
    else
      match batch(servers[0])
      case Err(e) => Err(e)
      case Ok(r) =>
        match EachServer(servers[1..], batch)
        case Err(e) => Err(e)
        case Ok(rs) => Ok([r] + rs)
  }

  /** The servers from the `i`-th on: that server's batch, then the rest if it succeeds. */
  lemma EachServerStep<T>(servers: seq<string>, i: nat, batch: string -> Result<T>)
    requires i < |servers|
    ensures EachServer(servers[i..], batch)
      == if batch(servers[i]).Err? then Err(batch(servers[i]).error)
         else Prefixed([batch(servers[i]).value], EachServer(servers[i + 1..], batch))
  {
    assert servers[i..][0] == servers[i] && servers[i..][1..] == servers[i + 1..];
  }

  /**
   * The manager's results are aligned with its servers: one batch result per server, in
   * server order; it fails exactly when some server's batch fails, with the first such error.
   */
  lemma {:induction false} EachServerAligned<T>(servers: seq<string>, batch: string -> Result<T>)
    ensures EachServer(servers, batch).Ok? <==> forall i :: 0 <= i < |servers| ==> batch(servers[i]).Ok?
    ensures var r := EachServer(servers, batch);
      r.Ok? ==>
        (&& |r.value| == |servers|
         && forall i :: 0 <= i < |servers| ==> batch(servers[i]) == Ok(r.value[i]))
    ensures var r := EachServer(servers, batch);
      r.Err? ==> exists i :: 0 <= i < |servers| && batch(servers[i]) == Err(r.error)
                   && forall j :: 0 <= j < i ==> batch(servers[j]).Ok?
  {
    if servers != [] {
      EachServerAligned(servers[1..], batch);
      assert forall i :: 1 <= i < |servers| ==> servers[i] == servers[1..][i - 1];
      var r := EachServer(servers, batch);
      if r.Err? && batch(servers[0]).Ok? {
        var k :| 0 <= k < |servers[1..]| && batch(servers[1..][k]) == Err(r.error)
                 && forall j :: 0 <= j < k ==> batch(servers[1..][j]).Ok?;
        assert batch(servers[k + 1]) == Err(r.error);
        assert forall j :: 0 <= j < k + 1 ==> batch(servers[j]).Ok?;
      }
    }
  }

  // ---------------------------------------------------------------- addresses

  /**
   * `host_port_timeout.split(':')`, passed on to `Telnet.__init__`. More than three parts is
   * too many arguments; a third part reaches `socket.settimeout` as a string, which Python 2
   * refuses, so only `host` and `host:port` connect.
   */
  function Endpoint(addr: string): Result<seq<string>> {
    var parts := SplitOn(':', addr);
    if |parts| > 2 then Err(BadAddress(addr)) else Ok(parts)
  }

  /**
   * An accepted address is exactly its parts joined with ':', a join of one or two parts is
   * accepted, and an address with two or more ':' is refused.
   */
  lemma EndpointParts(addr: string, parts: seq<string>)
    ensures Endpoint(addr).Ok? ==> Join(":", Endpoint(addr).value) == addr
    ensures 1 <= |parts| <= 2 && (forall i :: 0 <= i < |parts| ==> ':' !in parts[i])
      ==> Endpoint(Join(":", parts)) == Ok(parts)
    ensures 3 <= |parts| && (forall i :: 0 <= i < |parts| ==> ':' !in parts[i])
      ==> Endpoint(Join(":", parts)) == Err(BadAddress(Join(":", parts)))
  {
    JoinSplitOn(':', addr);
    if 1 <= |parts| && (forall i :: 0 <= i < |parts| ==> ':' !in parts[i]) {
      SplitOnJoin(':', parts);
    }
  }
}
