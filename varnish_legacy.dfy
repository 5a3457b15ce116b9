/**
 * `varnish/__init__.py`, the older revision of the client: no greeting is read and no
 * authentication is made; `fetch` parses the very first line it reads as the header and
 * leaves whatever follows the body unread; the verbs include `stats` and the `purge`
 * family; `run` calls every command with no arguments and never stops early; and
 * `VarnishManager` refuses an empty server list.
 */
module VarnishLegacy {
  import opened Wrappers
  import opened Text
  import opened Telnet
  import opened Cli

  // ---------------------------------------------------------------- fetch

  /**
   * `fetch(command)`: write the command and a newline, parse the next line as
   * `status length`, fail unless the status is 200 (naming the status and the next line with
   * its trailing whitespace removed), then collect whole lines until `length` characters
   * are held.
   */
  function Exchange(w: Wire, command: string): (o: Outcome<Reply>)
    requires w.Valid()
    ensures Follows(w, o.wire) && o.wire.open == w.open
    ensures o.wire.sent == if w.open then w.sent + Escape(command + "\n") else w.sent
    ensures !w.open ==> o.result == Err(ConnectionClosed)
  {
    var (written, w1) := Written(w, command + "\n");
    if !written then Outcome(Err(ConnectionClosed), w1)
    else
      var (line, w2) := LineRead(w1);
      if line.None? then Outcome(Err(EndOfStream), w2)
      else
        match ParseHeader(line.value)
        case None => Outcome(Err(BadHeader(line.value)), w2)
        case Some((status, length)) =>
          if status != 200 then
            var (next, w3) := LineRead(w2);
            Outcome(if next.None? then Err(EndOfStream) else Err(BadStatus(status, RStrip(next.value), None)), w3)
          else
            match BodyEnd(w2.peer.data, w2.pos, length)
            case None => Outcome(Err(EndOfStream), w2.(pos := |w2.peer.data|))
            case Some(e) => Outcome(Ok(Reply(status, length, w2.peer.data[w2.pos..e])), w2.(pos := e))
  }

  /**
   * The success path: when the first line reads `200 length` and the body loop from its end
   * stops at `e`, the reply holds the lines in between and nothing after them is read.
   */
  lemma ExchangeOk(w: Wire, command: string, h: nat, length: int, e: nat)
    requires w.Valid() && w.open && w.pos < |w.peer.data| && h == LineEnd(w.peer.data, w.pos)
    requires ParseHeader(w.peer.data[w.pos..h]) == Some((200, length))
    requires BodyEnd(w.peer.data, h, length) == Some(e)
    ensures h <= e <= |w.peer.data|
    ensures var o := Exchange(w, command);
      o.result == Ok(Reply(200, length, w.peer.data[h..e])) && o.wire.pos == e
  {
  }

  /** Any other status fails, naming it and the right-stripped next line, but not the command. */
  lemma ExchangeRefused(w: Wire, command: string, status: int, length: int)
    requires w.Valid() && w.open
    requires var h := LineEnd(w.peer.data, w.pos);
      && h < |w.peer.data|
      && ParseHeader(w.peer.data[w.pos..h]) == Some((status, length)) && status != 200
    ensures var h := LineEnd(w.peer.data, w.pos); var e := LineEnd(w.peer.data, h);
      var o := Exchange(w, command);
      o.result == Err(BadStatus(status, RStrip(w.peer.data[h..e]), None)) && o.wire.pos == e
  {
  }

  /** A blank line where the header is expected is not skipped: it is a bad header. */
  lemma ExchangeBlank(w: Wire, command: string, line: string)
    requires w.Valid() && w.open && IsBlank(line) && OneLine(line)
    requires w.pos + |line| <= |w.peer.data| && w.peer.data[w.pos..w.pos + |line|] == line
    ensures Exchange(w, command).result == Err(BadHeader(line))
  {
    LineEndOfLine(w.peer.data, w.pos, line);
    SplitBlank(line);
  }

  /**
   * A reply whose header line `h` ends at `p` and whose body, empty or ending a line, runs
   * from `p` to `e`, is returned as sent, and reading stops in front of the frame's closing
   * newline.
   */
  lemma ExchangeFrame(w: Wire, command: string, p: nat, e: nat, h: string, body: string)
    requires w.Valid() && w.open && OneLine(h) && ParseHeader(h) == Some((200, |body|))
    requires body == [] || body[|body| - 1] == '\n'
    requires w.pos + |h| == p && p + |body| == e && e < |w.peer.data|
    requires w.peer.data[w.pos..p] == h && w.peer.data[p..e + 1] == body + "\n"
    ensures var o := Exchange(w, command);
      o.result == Ok(Reply(200, |body|, body)) && o.wire.pos == e
  {
    FrameAt(w.peer.data, w.pos, p, e, h, body);
    ExchangeExact(w, command, p, |body|, e, body);
  }

  /**
   * A body that does not end a line is completed by the frame's closing newline, which the
   * reply then carries: the body and that newline run from `p` to `f`, one character more
   * than the announced length.
   */
  lemma ExchangeOpenFrame(w: Wire, command: string, p: nat, f: nat, h: string, body: string)
    requires w.Valid() && w.open && OneLine(h) && ParseHeader(h) == Some((200, |body|))
    requires body != [] && body[|body| - 1] != '\n'
    requires w.pos + |h| == p && p + |body| + 1 == f && f <= |w.peer.data|
    requires w.peer.data[w.pos..p] == h && w.peer.data[p..f] == body + "\n"
    ensures var o := Exchange(w, command);
      o.result == Ok(Reply(200, |body|, body + "\n")) && o.wire.pos == f
  {
    OpenFrameAt(w.peer.data, w.pos, p, f, h, body);
    ExchangeExact(w, command, p, |body|, f, body + "\n");
  }

  /** Where `fetch` finds the header and the end of a body that ends a line. */
  lemma FrameAt(data: string, start: nat, p: nat, e: nat, h: string, body: string)
    requires body == [] || body[|body| - 1] == '\n'
    requires start + |h| == p && p + |body| == e && e < |data|
    requires OneLine(h) && data[start..p] == h && data[p..e + 1] == body + "\n"
    ensures LineEnd(data, start) == p
    ensures BodyEnd(data, p, |body|) == Some(e) && data[p..e] == body && data[e] == '\n'
  {
    LineEndOfLine(data, start, h);
    BodyOfLines(data, p, e, body);
  }

  /** Where `fetch` finds the header and the end of a body whose last line is open. */
  lemma OpenFrameAt(data: string, start: nat, p: nat, f: nat, h: string, body: string)
    requires body != [] && body[|body| - 1] != '\n'
    requires start + |h| == p && p + |body| + 1 == f && f <= |data|
    requires OneLine(h) && data[start..p] == h && data[p..f] == body + "\n"
    ensures LineEnd(data, start) == p
    ensures BodyEnd(data, p, |body|) == Some(f)
  {
    LineEndOfLine(data, start, h);
    BodyOfOpenLine(data, p, f, body);
  }

  /** A header ending at `p` whose body loop stops at `e` with `content`: that is the reply. */
  lemma ExchangeExact(w: Wire, command: string, p: nat, length: int, e: nat, content: string)
    requires w.Valid() && w.open && w.pos < p <= e <= |w.peer.data|
    requires LineEnd(w.peer.data, w.pos) == p && ParseHeader(w.peer.data[w.pos..p]) == Some((200, length))
    requires BodyEnd(w.peer.data, p, length) == Some(e) && w.peer.data[p..e] == content
    ensures var o := Exchange(w, command);
      o.result == Ok(Reply(200, length, content)) && o.wire.pos == e
  {
    ExchangeOk(w, command, p, length, e);
  }

  /**
   * Two replies in a row whose first body is empty or ends a line: the first `fetch` succeeds
   * and the second reads the leftover newline as its header and fails.
   */
  lemma LeftoverNewline(w: Wire, first: string, second: string, p: nat, e: nat, h: string, body: string)
    requires w.Valid() && w.open && OneLine(h) && ParseHeader(h) == Some((200, |body|))
    requires body == [] || body[|body| - 1] == '\n'
    requires w.pos + |h| == p && p + |body| == e && e < |w.peer.data|
    requires w.peer.data[w.pos..p] == h && w.peer.data[p..e + 1] == body + "\n"
    ensures var o := Exchange(w, first);
      && o.result == Ok(Reply(200, |body|, body))
      && Exchange(o.wire, second).result == Err(BadHeader("\n"))
  {
    FrameAt(w.peer.data, w.pos, p, e, h, body);
    LeftoverAfter(w, first, second, p, e, body);
  }

  /** The second `fetch` after a reply that stopped in front of a newline. */
  lemma LeftoverAfter(w: Wire, first: string, second: string, p: nat, e: nat, body: string)
    requires w.Valid() && w.open && w.pos < p <= e < |w.peer.data|
    requires LineEnd(w.peer.data, w.pos) == p && ParseHeader(w.peer.data[w.pos..p]) == Some((200, |body|))
    requires BodyEnd(w.peer.data, p, |body|) == Some(e) && w.peer.data[p..e] == body
    requires w.peer.data[e] == '\n'
    ensures var o := Exchange(w, first);
      && o.result == Ok(Reply(200, |body|, body))
      && Exchange(o.wire, second).result == Err(BadHeader("\n"))
  {
    ExchangeExact(w, first, p, |body|, e, body);
    LeftoverBlank(Exchange(w, first).wire, second);
  }

  /** A newline where the header is expected: `fetch` fails on it. */
  lemma LeftoverBlank(w: Wire, command: string)
    requires w.Valid() && w.open && w.pos < |w.peer.data| && w.peer.data[w.pos] == '\n'
    ensures Exchange(w, command).result == Err(BadHeader("\n"))
  {
    assert w.peer.data[w.pos..w.pos + 1] == "\n";
    assert IsBlank("\n") && OneLine("\n");
    ExchangeBlank(w, command, "\n");
  }

  // ---------------------------------------------------------------- verbs

  /** The handler methods a batch can name. */
  datatype Verb =
    | Quit | Close | Start | Stop | Ping | Stats | Help
    | VclLoad | VclInline | VclShow | VclUse | VclDiscard | VclList
    | ParamShow | ParamSet | PurgeUrl | PurgeHash | PurgeList | Purge | Fetch

  /** The Python name of each method. */
  function Name(v: Verb): string {
    match v
    case Quit => "quit"
    case Close => "close"
    case Start => "start"
    case Stop => "stop"
    case Ping => "ping"
    case Stats => "stats"
    case Help => "help"
    case VclLoad => "vcl_load"
    case VclInline => "vcl_inline"
    case VclShow => "vcl_show"
    case VclUse => "vcl_use"
    case VclDiscard => "vcl_discard"
    case VclList => "vcl_list"
    case ParamShow => "param_show"
    case ParamSet => "param_set"
    case PurgeUrl => "purge_url"
    case PurgeHash => "purge_hash"
    case PurgeList => "purge_list"
    case Purge => "purge"
    case Fetch => "fetch"
  }

  /** `getattr(handler, name)` for the names of the handler's methods. */
  function Lookup(name: string): Option<Verb> {
    match name
    case "quit" => Some(Quit)
    case "close" => Some(Close)
    case "start" => Some(Start)
    case "stop" => Some(Stop)
    case "ping" => Some(Ping)
    case "stats" => Some(Verb.Stats)
    case "help" => Some(Help)
    case "vcl_load" => Some(VclLoad)
    case "vcl_inline" => Some(VclInline)
    case "vcl_show" => Some(VclShow)
    case "vcl_use" => Some(VclUse)
    case "vcl_discard" => Some(VclDiscard)
    case "vcl_list" => Some(VclList)
    case "param_show" => Some(ParamShow)
    case "param_set" => Some(ParamSet)
    case "purge_url" => Some(PurgeUrl)
    case "purge_hash" => Some(PurgeHash)
    case "purge_list" => Some(PurgeList)
    case "purge" => Some(Purge)
    case "fetch" => Some(Fetch)
    case _ => None
  }

  /** `getattr` finds every method under its own name. */
  lemma LookupName(v: Verb)
    ensures Lookup(Name(v)) == Some(v)
  {
  }

  /** `getattr` finds a method only under its own name. */
  lemma LookupOnlyName(name: string)
    ensures Lookup(name).Some? ==> name == Name(Lookup(name).value)
  {
  }

  /** One `(field, operator, arg)` of `purge`, unpacked from a tuple or a three-character string. */
  function Triple(v: Value): Option<(string, string, string)> {
    match v
    case Tup(items) =>
      if |items| == 3 && Show(items[0]).Some? && Show(items[1]).Some? && Show(items[2]).Some? then
        Some((Show(items[0]).value, Show(items[1]).value, Show(items[2]).value))
      else None
    case Str(s) => if |s| == 3 then Some(([s[0]], [s[1]], [s[2]])) else None
    case _ => None
  }

  /** `'purge %s %s %s\n' % (field, operator, arg)`. */
  function PurgeCommand(t: (string, string, string)): string {
    "purge " + t.0 + " " + t.1 + " " + t.2 + "\n"
  }

  /** What calling a method does on the connection. */
  datatype Action = Send(command: string, shape: Shape) | Hangup | Purging(triples: seq<Value>)

  function Sending(text: Result<string>, shape: Shape): Result<Action> {
    match text
    case Ok(t) => Ok(Send(t, shape))
    case Err(e) => Err(e)
  }

  /** The command each method sends for its arguments, and what it makes of the reply. */
  function Act(v: Verb, args: seq<Value>): Result<Action> {
    match v
    case Quit => if args == [] then Ok(Hangup) else Err(BadArguments("quit"))
    case Close => if args == [] then Ok(Hangup) else Err(BadArguments("close"))
    case Start => Sending(Bare("start", "start", args), AsReply)
    case Stop => Sending(Bare("stop", "stop", args), AsReply)
    case Ping => Sending(Optional("ping", "ping", args), AsTokens)
    case Stats => Sending(Bare("stats", "stats", args), AsStats)
    case Help => Sending(Optional("help", "help", args), AsBody)
    case VclLoad => Sending(Positional2("vcl.load", "vcl_load", args), AsReply)
    case VclInline => Sending(Positional2("vcl.inline", "vcl_inline", args), AsReply)
    case VclShow => Sending(VclShowText(args), AsReply)
    case VclUse => Sending(Positional1("vcl.use", "vcl_use", args), AsReply)
    case VclDiscard => Sending(Positional1("vcl.discard", "vcl_discard", args), AsReply)
    case VclList => Sending(Bare("vcl.list", "vcl_list", args), AsVcls)
    case ParamShow => Sending(ParamShowText("param_show", args), AsReply)
    case ParamSet => Sending(Positional2("param.set", "param_set", args), AsNothing)
    case PurgeUrl => Sending(Positional1("purge.url", "purge_url", args), AsBody)
    case PurgeHash => Sending(Positional1("purge.hash", "purge_hash", args), AsBody)
    case PurgeList => Sending(Bare("purge.list", "purge_list", args), AsBody)
    case Purge => Ok(Purging(args))
    case Fetch => Sending(Verbatim("fetch", args), AsReply)
  }

  /**
   * `purge(*args)`: one `fetch` per triple, in order; a value that does not unpack into
   * three printable parts raises when the loop reaches it, after the earlier purges were sent.
   */
  function PurgeRun(w: Wire, args: seq<Value>): (o: Outcome<Output>)
    requires w.Valid()
    ensures Follows(w, o.wire)
    decreases |args|
  {
    if args == [] then Outcome(Ok(Nothing), w)
    else
      match Triple(args[0])
      case None => Outcome(Err(BadArguments("purge")), w)
      case Some(t) =>
        var f := Exchange(w, PurgeCommand(t));
        if f.result.Err? then Outcome(Err(f.result.error), f.wire)
        else PurgeRun(f.wire, args[1..])
  }

  /** The triples of a `purge` call, when every argument unpacks. */
  function Triples(args: seq<Value>): Option<seq<(string, string, string)>> {
    if args == [] then Some([])
    else
      match (Triple(args[0]), Triples(args[1..]))
      case (Some(t), Some(ts)) => Some([t] + ts)
      case _ => None
  }

  /** The bytes a whole `purge` call writes: each command, then the newline `fetch` adds. */
  function PurgeText(ts: seq<(string, string, string)>): string {
    if ts == [] then [] else PurgeCommand(ts[0]) + "\n" + PurgeText(ts[1..])
  }

  /**
   * A `purge` call that succeeds unpacked every argument and wrote one command per triple,
   * in argument order, each ending in two newlines.
   */
  lemma {:induction false} PurgeSends(w: Wire, args: seq<Value>)
    requires w.Valid() && w.open && PurgeRun(w, args).result.Ok?
    ensures Triples(args).Some?
    ensures PurgeRun(w, args).wire.sent == w.sent + Escape(PurgeText(Triples(args).value))
    decreases |args|
  {
    if args == [] {
      assert w.sent + Escape([]) == w.sent;
    } else {
      var t, next := PurgeStep(w, args);
      PurgeSends(next, args[1..]);
      var rest := Triples(args[1..]).value;
      TriplesStep(args, t, rest);
      PurgeTextSent(w.sent, next.sent, t, rest);
    }
  }

  /** The text of a `purge` call, one triple at a time, as it reaches the wire. */
  lemma PurgeTextSent(before: string, after: string, t: (string, string, string), rest: seq<(string, string, string)>)
    requires after == before + Escape(PurgeCommand(t) + "\n")
    ensures after + Escape(PurgeText(rest)) == before + Escape(PurgeText([t] + rest))
  {
    assert ([t] + rest)[1..] == rest;
    EscapeAppend(PurgeCommand(t) + "\n", PurgeText(rest));
  }

  /** The triples of a `purge` call, one argument at a time. */
  lemma TriplesStep(args: seq<Value>, t: (string, string, string), rest: seq<(string, string, string)>)
    requires args != [] && Triple(args[0]) == Some(t) && Triples(args[1..]) == Some(rest)
    ensures Triples(args) == Some([t] + rest)
  {
  }

  /** The first purge of a `purge` call that succeeds, and the connection it leaves. */
  lemma PurgeStep(w: Wire, args: seq<Value>) returns (t: (string, string, string), next: Wire)
    requires w.Valid() && w.open && args != [] && PurgeRun(w, args).result.Ok?
    ensures Triple(args[0]) == Some(t) && next.Valid() && next.open
    ensures next.sent == w.sent + Escape(PurgeCommand(t) + "\n")
    ensures PurgeRun(w, args) == PurgeRun(next, args[1..])
  {
    t := Triple(args[0]).value;
    var f := Exchange(w, PurgeCommand(t));
    next := f.wire;
  }

  /** Each purge command ends in a newline of its own, so `fetch` puts two on the wire. */
  lemma PurgeTextEnds(t: (string, string, string))
    ensures var text := PurgeText([t]);
      && text == "purge " + t.0 + " " + t.1 + " " + t.2 + "\n\n"
      && text[|text| - 2..] == "\n\n"
  {
    var c := PurgeCommand(t);
    assert PurgeText([t]) == c + "\n" + PurgeText([]);
    assert c[|c| - 1] == '\n';
  }

  /** Calling handler method `v` with `args`. */
  function Call(w: Wire, v: Verb, args: seq<Value>): (o: Outcome<Output>)
    requires w.Valid()
    ensures Follows(w, o.wire)
  {
    match Act(v, args)
    case Err(e) => Outcome(Err(e), w)
    case Ok(Hangup) => Outcome(Ok(Nothing), Closed(w))
    case Ok(Purging(triples)) => PurgeRun(w, triples)
    case Ok(Send(command, shape)) =>
      var f := Exchange(w, command);
      match f.result
      case Err(e) => Outcome(Err(e), f.wire)
      case Ok(reply) => Outcome(Shaped(shape, reply), f.wire)
  }

  /** `stats` sends `stats` and tabulates the lines of the reply body. */
  lemma StatsCall(w: Wire)
    requires w.Valid()
    ensures var f := Exchange(w, "stats");
      Call(w, Verb.Stats, []) == Outcome(
        match f.result
        case Err(e) => Err(e)
        case Ok(reply) =>
          (match Tabulate(StatRow, SplitLines(reply.content))
           case Ok(m) => Ok(Output.Stats(m))
           case Err(e) => Err(e)),
        f.wire)
  {
  }

  /** `fetch(command)` called from a batch writes the command as it is and returns the whole reply. */
  lemma FetchCall(w: Wire, command: Value)
    requires w.Valid() && FormatOne(command).Some?
    ensures var f := Exchange(w, FormatOne(command).value);
      Call(w, Fetch, [command])
        == Outcome(if f.result.Err? then Err(f.result.error) else Ok(Fetched(f.result.value)), f.wire)
  {
    assert Act(Fetch, [command]) == Ok(Send(FormatOne(command).value, AsReply));
  }

  // ---------------------------------------------------------------- batches

  /** The calls one command of `run` makes: a tuple's entries, or the command with no arguments. */
  function Expanded(c: Value): seq<Step> {
    if Multiple(c) then Entries(c) else [PlainStep(c, [])]
  }

  /** The calls `run(addr, *commands)` makes, for every command in order. */
  function Plan(commands: seq<Value>): seq<Step> {
    if commands == [] then [] else Expanded(commands[0]) + Plan(commands[1..])
  }

  /** Nothing in `run` stops early: a batch is its parts run one after the other. */
  lemma {:induction false} PlanAppend(cs: seq<Value>, ds: seq<Value>)
    ensures Plan(cs + ds) == Plan(cs) + Plan(ds)
  {
    if cs == [] {
      assert cs + ds == ds;
    } else {
      assert (cs + ds)[0] == cs[0] && (cs + ds)[1..] == cs[1..] + ds;
      PlanAppend(cs[1..], ds);
    }
  }

  /** Every command that is not expanded is called without arguments. */
  lemma {:induction false} PlanNoArguments(commands: seq<Value>, k: nat)
    requires k < |Plan(commands)| && Plan(commands)[k].Invoke?
    ensures Plan(commands)[k].args != [] ==>
      exists i, j :: 0 <= i < |commands| && Multiple(commands[i]) && 0 <= j < |commands[i].items|
        && Plan(commands)[k] == EntryStep(commands[i].items[j])
  {
    var e := Expanded(commands[0]);
    assert Plan(commands) == e + Plan(commands[1..]);
    if k < |e| {
      if Plan(commands)[k].args != [] {
        assert Plan(commands)[k] == e[k];
        assert Multiple(commands[0]) && Plan(commands)[k] == EntryStep(commands[0].items[k]);
      }
    } else {
      PlanNoArguments(commands[1..], k - |e|);
      if Plan(commands)[k].args != [] {
        var i, j :| 0 <= i < |commands[1..]| && Multiple(commands[1..][i]) && 0 <= j < |commands[1..][i].items|
          && Plan(commands[1..])[k - |e|] == EntryStep(commands[1..][i].items[j]);
        assert commands[1..][i] == commands[i + 1];
      }
    }
  }

  /** `run(addr, (('ping', None), ('ping', None)))` pings twice with `None`. */
  lemma PlanPingTwice()
    ensures Plan([Tup([Tup([Str("ping"), NoneV]), Tup([Str("ping"), NoneV])])])
      == [Invoke("ping", [NoneV]), Invoke("ping", [NoneV])]
  {
    var entry := Tup([Str("ping"), NoneV]);
    assert '.' !in "ping";
    assert Replace("ping", '.', '_') == "ping";
    assert EntryStep(entry) == Invoke("ping", [NoneV]);
    var c := Tup([entry, entry]);
    assert Multiple(c);
    assert Entries(c) == [Invoke("ping", [NoneV]), Invoke("ping", [NoneV])];
    assert [c][1..] == [];
    assert Plan([c]) == Entries(c) + Plan([]);
  }

  /** One step of a batch. */
  function StepRun(w: Wire, s: Step): (o: Outcome<Output>)
    requires w.Valid()
    ensures Follows(w, o.wire)
  {
    match s
    case Reject(e) => Outcome(Err(e), w)
    case Invoke(name, args) =>
      match Lookup(name)
      case None => Outcome(Err(UnknownCommand(name)), w)
      case Some(v) => Call(w, v, args)
  }

  /** The calls of a batch in order: each result is collected and the first exception ends the batch. */
  function Perform(w: Wire, steps: seq<Step>): (o: Outcome<seq<Output>>)
    requires w.Valid()
    ensures Follows(w, o.wire)
    ensures o.result.Ok? ==> |o.result.value| == |steps|
    decreases |steps|
  {
    if steps == [] then Outcome(Ok([]), w)
    else
      var first := StepRun(w, steps[0]);
      match first.result
      case Err(e) => Outcome(Err(e), first.wire)
      case Ok(r) => Then([r], Perform(first.wire, steps[1..]))
  }

  /** The calls of a batch from the `i`-th on: that call, then the rest if it succeeds. */
  lemma PerformStep(w: Wire, steps: seq<Step>, i: nat)
    requires w.Valid() && i < |steps|
    ensures var first := StepRun(w, steps[i]);
      Perform(w, steps[i..]).result
        == if first.result.Err? then Err(first.result.error)
           else Prefixed([first.result.value], Perform(first.wire, steps[i + 1..]).result)
  {
    assert steps[i..][0] == steps[i] && steps[i..][1..] == steps[i + 1..];
  }

  /**
   * A batch runs as its first part followed by the rest: the results of the rest are
   * appended after those of the first part, on the connection the first part leaves.
   */
  lemma {:induction false} PerformAppend(w: Wire, a: seq<Step>, b: seq<Step>)
    requires w.Valid()
    ensures var pa := Perform(w, a);
      Perform(w, a + b) == if pa.result.Err? then pa else Then(pa.result.value, Perform(pa.wire, b))
    decreases |a|
  {
    if a == [] {
      assert a + b == b;
      var pb := Perform(w, b);
      if pb.result.Ok? {
        assert [] + pb.result.value == pb.result.value;
      }
    } else {
      assert (a + b)[0] == a[0];
      assert (a + b)[1..] == a[1..] + b;
      var first := StepRun(w, a[0]);
      if first.result.Ok? {
        PerformAppend(first.wire, a[1..], b);
        var rest := Perform(first.wire, a[1..]);
        if rest.result.Ok? {
          var tail := Perform(rest.wire, b);
          if tail.result.Ok? {
            assert [first.result.value] + (rest.result.value + tail.result.value)
              == ([first.result.value] + rest.result.value) + tail.result.value;
          }
        }
      }
    }
  }

  /** `run(addr, *commands)`: connect, run the batch, close; no greeting is read first. */
  function RunBatch(addr: string, peer: Peer, commands: seq<Value>): (r: Result<seq<Output>>)
    ensures r.Ok? ==> |r.value| == |Plan(commands)|
  {
    match Endpoint(addr)
    case Err(e) => Err(e)
    case Ok(_) => Perform(Connect(peer), Plan(commands)).result
  }

  /**
   * Without a greeting to consume, the first call reads whatever the server sent on connect:
   * the first line of the stream is the header its `fetch` parses.
   */
  lemma FirstFetchReadsBanner(peer: Peer, command: string, length: int, e: nat)
    requires 0 < |peer.data|
    requires var h := LineEnd(peer.data, 0);
      ParseHeader(peer.data[..h]) == Some((200, length)) && BodyEnd(peer.data, h, length) == Some(e)
    ensures Exchange(Connect(peer), command).result
      == Ok(Reply(200, length, peer.data[LineEnd(peer.data, 0)..e]))
  {
    assert peer.data[0..LineEnd(peer.data, 0)] == peer.data[..LineEnd(peer.data, 0)];
    ExchangeOk(Connect(peer), command, LineEnd(peer.data, 0), length, e);
  }

  /** `run(server, *commands)` as a function of the server's address. */
  function Batch(commands: seq<Value>, net: string -> Peer): string -> Result<seq<Output>> {
    addr => RunBatch(addr, net(addr), commands)
  }

  // ---------------------------------------------------------------- the handler object

  /** `VarnishHandler` of the package revision: a telnet connection to one admin port. */
  class Handler {
    const conn: Channel

    /** `Telnet.__init__`: the connection is open and nothing has been read or written. */
    constructor (peer: Peer)
      ensures fresh(conn) && conn.State() == Connect(peer)
    {
      conn := new Channel(peer);
    }

    /** `fetch(command)`. */
    method Fetch(command: string) returns (r: Result<Reply>)
      requires conn.State().Valid()
      modifies conn
      ensures Outcome(r, conn.State()) == Exchange(old(conn.State()), command)
    {
      var written := conn.Write(command + "\n");
      if !written {
        return Err(ConnectionClosed);
      }
      var line := conn.ReadUntilNewline();
      if line.None? {
        return Err(EndOfStream);
      }
      var header := ParseHeader(line.value);
      if header.None? {
        return Err(BadHeader(line.value));
      }
      var (status, length) := header.value;
      if status != 200 {
        var next := conn.ReadUntilNewline();
        if next.None? {
          return Err(EndOfStream);
        }
        return Err(BadStatus(status, RStrip(next.value), None));
      }
      var body := ReadBody(conn, length);
      if body.None? {
        return Err(EndOfStream);
      }
      r := Ok(Reply(status, length, body.value));
    }

    /** `purge(*args)`: `for field, operator, arg in args: self.fetch(...)`. */
    method Purge(args: seq<Value>) returns (r: Result<Output>)
      requires conn.State().Valid()
      modifies conn
      ensures Outcome(r, conn.State()) == PurgeRun(old(conn.State()), args)
    {
      var i := 0;
      while i < |args|
        invariant 0 <= i <= |args| && conn.State().Valid()
        invariant PurgeRun(old(conn.State()), args) == PurgeRun(conn.State(), args[i..])
      {
        assert args[i..][0] == args[i] && args[i..][1..] == args[i + 1..];
        var t := Triple(args[i]);
        if t.None? {
          return Err(BadArguments("purge"));
        }
        var reply := Fetch(PurgeCommand(t.value));
        if reply.Err? {
          return Err(reply.error);
        }
        i := i + 1;
      }
      r := Ok(Nothing);
    }

    /** Calling handler method `v` with `args`. */
    method Invoke(v: Verb, args: seq<Value>) returns (r: Result<Output>)
      requires conn.State().Valid()
      modifies conn
      ensures Outcome(r, conn.State()) == Call(old(conn.State()), v, args)
    {
      var action := Act(v, args);
      if action.Err? {
        return Err(action.error);
      }
      match action.value
      case Hangup =>
        conn.Close();
        r := Ok(Nothing);
      case Purging(triples) =>
        r := Purge(triples);
      case Send(command, shape) =>
        var reply := Fetch(command);
        if reply.Err? {
          return Err(reply.error);
        }
        if shape == AsVcls {
          var vcls := ParseVcls(reply.value.content);
          r := if vcls.Ok? then Ok(Vcls(vcls.value)) else Err(vcls.error);
        } else if shape == AsStats {
          var stats := ParseStats(reply.value.content);
          r := if stats.Ok? then Ok(Output.Stats(stats.value)) else Err(stats.error);
        } else {
          r := Shaped(shape, reply.value);
        }
    }

    /** One step of a batch: `getattr` the method, then call it. */
    method RunStep(s: Step) returns (r: Result<Output>)
      requires conn.State().Valid()
      modifies conn
      ensures Outcome(r, conn.State()) == StepRun(old(conn.State()), s)
    {
      if s.Reject? {
        return Err(s.error);
      }
      var v := Lookup(s.name);
      if v.None? {
        return Err(UnknownCommand(s.name));
      }
      r := Invoke(v.value, s.args);
    }
  }

  /** `run(addr, *commands)`: connect, run each call of the batch, close. */
  method Run(addr: string, peer: Peer, commands: seq<Value>) returns (r: Result<seq<Output>>)
    ensures r == RunBatch(addr, peer, commands)
  {
    var parts := Endpoint(addr);
    if parts.Err? {
      return Err(parts.error);
    }
    var handler := new Handler(peer);
    var steps := Plan(commands);
    ghost var start := handler.conn.State();
    var results := [];
    var i := 0;
    PrefixedStart(steps, Perform(start, steps).result);
    while i < |steps|
      invariant 0 <= i <= |steps| && handler.conn.State().Valid()
      invariant Perform(start, steps).result == Prefixed(results, Perform(handler.conn.State(), steps[i..]).result)
    {
      PerformStep(handler.conn.State(), steps, i);
      var out := handler.RunStep(steps[i]);
      if out.Err? {
        return Err(out.error);
      }
      PrefixedPrefixed(results, [out.value], Perform(handler.conn.State(), steps[i + 1..]).result);
      results := results + [out.value];
      i := i + 1;
    }
    PrefixedDone(steps, results, Perform(handler.conn.State(), []).result);
    handler.conn.Close();
    r := Ok(results);
  }

  // ---------------------------------------------------------------- the manager

  /** `VarnishManager` of the package revision. */
  class Manager {
    var servers: seq<string>

    constructor (servers: seq<string>)
      requires servers != []
      ensures this.servers == servers
    {
      this.servers := servers;
    }

    /** `run(*commands)` without threads: one batch per server, in order. */
    method RunAll(commands: seq<Value>, net: string -> Peer) returns (r: Result<seq<seq<Output>>>)
      ensures r == EachServer(servers, Batch(commands, net))
    {
      var batch := Batch(commands, net);
      var all := [];
      var i := 0;
      PrefixedStart(servers, EachServer(servers, batch));
      while i < |servers|
        invariant 0 <= i <= |servers|
        invariant EachServer(servers, batch) == Prefixed(all, EachServer(servers[i..], batch))
      {
        EachServerStep(servers, i, batch);
        var one := Run(servers[i], net(servers[i]), commands);
        if one.Err? {
          return Err(one.error);
        }
        PrefixedPrefixed(all, [one.value], EachServer(servers[i + 1..], batch));
        all := all + [one.value];
        i := i + 1;
      }
      PrefixedDone(servers, all, EachServer([], batch));
      r := Ok(all);
    }

    /** `close()`: the closing batches run in threads; the manager forgets its servers. */
    method Close()
      modifies this
      ensures servers == []
    {
      servers := [];
    }
  }

  /** `VarnishManager(servers)`: the assertion refuses an empty server list. */
  method NewManager(servers: seq<string>) returns (r: Result<Manager>)
    ensures r.Err? <==> servers == []
    ensures r.Err? ==> r.error == NoServers
    ensures r.Ok? ==> fresh(r.value) && r.value.servers == servers
  {
    if servers == [] {
      return Err(NoServers);
    }
    var m := new Manager(servers);
    r := Ok(m);
  }
}
