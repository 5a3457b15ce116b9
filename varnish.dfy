/**
 * `varnish.py`: the handler that reads the server's greeting, answers its authentication
 * challenge, sends one command per `fetch` and collects the framed reply; the verbs built
 * on `fetch`; the batch runner `run`; and `VarnishManager`, which runs a batch on every
 * server in turn.
 */
module Varnish {
  import opened Wrappers
  import opened Text
  import opened Telnet
  import opened Cli

  // ---------------------------------------------------------------- fetch

  /**
   * The blank lines `fetch` skips before the header: the first line that is not blank
   * once stripped, and the position after it; `None` when the data runs out first.
   */
  function HeaderFrom(data: string, p: nat): (r: Option<(string, nat)>)
    requires p <= |data|
    ensures r.Some? ==> p < r.value.1 <= |data| && r.value.0 != []
    decreases |data| - p
  {
    if p == |data| then None
    else
      var e := LineEnd(data, p);
      var line := Strip(data[p..e]);
      if line == [] then HeaderFrom(data, e) else Some((line, e))
  }

  /**
   * `fetch(command)`: write the command and a newline, skip blank lines, read the header,
   * fail unless the status is 200 (naming the status, the next line and the command),
   * collect whole lines until `length` characters are held, then drain what is buffered.
   */
  function Exchange(w: Wire, command: string): (o: Outcome<Reply>)
    requires w.Valid()
    ensures Follows(w, o.wire) && o.wire.open == w.open
    ensures o.wire.sent == if w.open then w.sent + Escape(command + "\n") else w.sent
    ensures !w.open ==> o.result == Err(ConnectionClosed)
  {
    var (written, w1) := Written(w, command + "\n");
    if !written then Outcome(Err(ConnectionClosed), w1)
    else
      match HeaderFrom(w1.peer.data, w1.pos)
      case None => Outcome(Err(EndOfStream), w1.(pos := |w1.peer.data|))
      case Some((line, p)) =>
        var w2 := w1.(pos := p);
        match ParseHeader(line)
        case None => Outcome(Err(BadHeader(line)), w2)
        case Some((status, length)) =>
          if status != 200 then
            var (next, w3) := LineRead(w2);
            Outcome(if next.None? then Err(EndOfStream)
                    else Err(BadStatus(status, Strip(next.value), Some(command))), w3)
          else
            match BodyEnd(w2.peer.data, p, length)
            case None => Outcome(Err(EndOfStream), w2.(pos := |w2.peer.data|))
            case Some(e) =>
              var (_, w4) := EagerRead(w2.(pos := e));
              Outcome(Ok(Reply(status, length, w2.peer.data[p..e])), w4)
  }

  /** Blank lines before the header are skipped. */
  lemma {:induction false} HeaderFromSkips(data: string, p: nat, q: nat)
    requires p <= q <= |data| && IsBlank(data[p..q]) && (q == p || data[q - 1] == '\n')
    ensures HeaderFrom(data, p) == HeaderFrom(data, q)
    decreases q - p
  {
    if p < q {
      var e := LineEnd(data, p);
      LineEndFirst(data, p, q - 1);
      assert IsBlank(data[p..e]) by {
        forall k | 0 <= k < e - p ensures IsSpace(data[p..e][k]) {
          assert data[p..e][k] == data[p..q][k];
        }
      }
      assert IsBlank(data[e..q]) by {
        forall k | 0 <= k < q - e ensures IsSpace(data[e..q][k]) {
          assert data[e..q][k] == data[p..q][k + e - p];
        }
      }
      HeaderFromSkips(data, e, q);
    }
  }

  /** A header line at `q` is the first non-blank line from `q`. */
  lemma HeaderAt(data: string, q: nat, p: nat, h: string)
    requires OneLine(h) && Strip(h) != [] && q + |h| == p && p <= |data| && data[q..p] == h
    ensures HeaderFrom(data, q) == Some((Strip(h), p))
  {
    LineEndOfLine(data, q, h);
  }

  /**
   * The success path of `fetch`: when the first non-blank line reads `200 length` and the
   * body loop from there stops at `e`, the reply holds the lines in between, and the
   * connection is left past whatever arrived with them.
   */
  lemma ExchangeOk(w: Wire, command: string, line: string, p: nat, length: int, e: nat)
    requires w.Valid() && w.open
    requires HeaderFrom(w.peer.data, w.pos) == Some((line, p)) && ParseHeader(line) == Some((200, length))
    requires BodyEnd(w.peer.data, p, length) == Some(e)
    ensures e <= |w.peer.data|
    ensures var o := Exchange(w, command);
      o.result == Ok(Reply(200, length, w.peer.data[p..e])) && o.wire.pos == Received(w.(pos := e))
  {
    var w2 := w.(sent := w.sent + Escape(command + "\n")).(pos := p);
    assert Written(w, command + "\n") == (true, w2.(pos := w.pos));
    assert EagerRead(w2.(pos := e)).1.pos == Received(w.(pos := e));
  }

  /**
   * Any other status fails the call, naming the status, the stripped line after the header
   * and the command; nothing past that line is read.
   */
  lemma ExchangeRefused(w: Wire, command: string, line: string, p: nat, status: int, length: int)
    requires w.Valid() && w.open
    requires HeaderFrom(w.peer.data, w.pos) == Some((line, p)) && ParseHeader(line) == Some((status, length))
    requires status != 200 && p < |w.peer.data|
    ensures var e := LineEnd(w.peer.data, p); var o := Exchange(w, command);
      o.result == Err(BadStatus(status, Strip(w.peer.data[p..e]), Some(command))) && o.wire.pos == e
  {
  }

  /**
   * A whole reply whose header line `h` runs from `q` to `p`, after nothing but blank lines,
   * and whose body, empty or ending a line, runs from `p` to `e`: `fetch` returns the body
   * as sent, and the body loop stops in front of the frame's closing newline, which
   * `read_eager` then drains if it arrived with the body.
   */
  lemma ExchangeFrame(w: Wire, command: string, q: nat, p: nat, e: nat, h: string, body: string)
    requires w.Valid() && w.open && HeaderOk(h, 200, |body|)
    requires w.pos <= q && q + |h| == p && p + |body| == e && e < |w.peer.data|
    requires IsBlank(w.peer.data[w.pos..q]) && (q == w.pos || w.peer.data[q - 1] == '\n')
    requires body == [] || body[|body| - 1] == '\n'
    requires w.peer.data[q..p] == h && w.peer.data[p..e + 1] == body + "\n"
    ensures var o := Exchange(w, command);
      o.result == Ok(Reply(200, |body|, body)) && o.wire.pos == Received(w.(pos := e))
  {
    FrameAt(w.peer.data, w.pos, q, p, e, h, body);
    ExchangeExact(w, command, Strip(h), p, |body|, e, body);
  }

  /**
   * The same with a last body line left open, so that the body and the frame's newline run
   * from `p` to `f`: the body loop reads on through that newline, and the content is one
   * character longer than announced.
   */
  lemma ExchangeOpenFrame(w: Wire, command: string, q: nat, p: nat, f: nat, h: string, body: string)
    requires w.Valid() && w.open && HeaderOk(h, 200, |body|)
    requires w.pos <= q && q + |h| == p && p + |body| + 1 == f && f <= |w.peer.data|
    requires IsBlank(w.peer.data[w.pos..q]) && (q == w.pos || w.peer.data[q - 1] == '\n')
    requires body != [] && body[|body| - 1] != '\n'
    requires w.peer.data[q..p] == h && w.peer.data[p..f] == body + "\n"
    ensures var o := Exchange(w, command);
      o.result == Ok(Reply(200, |body|, body + "\n")) && o.wire.pos == Received(w.(pos := f))
  {
    OpenFrameAt(w.peer.data, w.pos, q, p, f, h, body);
    ExchangeExact(w, command, Strip(h), p, |body|, f, body + "\n");
  }

  /** Where `fetch` finds the header and the end of a body that ends a line. */
  lemma FrameAt(data: string, start: nat, q: nat, p: nat, e: nat, h: string, body: string)
    requires OneLine(h) && Strip(h) != []
    requires start <= q && q + |h| == p && p + |body| == e && e < |data|
    requires IsBlank(data[start..q]) && (q == start || data[q - 1] == '\n')
    requires body == [] || body[|body| - 1] == '\n'
    requires data[q..p] == h && data[p..e + 1] == body + "\n"
    ensures HeaderFrom(data, start) == Some((Strip(h), p))
    ensures BodyEnd(data, p, |body|) == Some(e) && data[p..e] == body
  {
    HeaderAfterBlanks(data, start, q, p, h);
    BodyOfLines(data, p, e, body);
  }

  /** Where `fetch` finds the header and the end of a body whose last line is open. */
  lemma OpenFrameAt(data: string, start: nat, q: nat, p: nat, f: nat, h: string, body: string)
    requires OneLine(h) && Strip(h) != []
    requires start <= q && q + |h| == p && p + |body| + 1 == f && f <= |data|
    requires IsBlank(data[start..q]) && (q == start || data[q - 1] == '\n')
    requires body != [] && body[|body| - 1] != '\n'
    requires data[q..p] == h && data[p..f] == body + "\n"
    ensures HeaderFrom(data, start) == Some((Strip(h), p))
    ensures BodyEnd(data, p, |body|) == Some(f)
  {
    HeaderAfterBlanks(data, start, q, p, h);
    BodyOfOpenLine(data, p, f, body);
  }

  /** The first line after a run of blank lines is the header. */
  lemma HeaderAfterBlanks(data: string, start: nat, q: nat, p: nat, h: string)
    requires start <= q && q + |h| == p && p <= |data|
    requires IsBlank(data[start..q]) && (q == start || data[q - 1] == '\n')
    requires OneLine(h) && Strip(h) != [] && data[q..p] == h
    ensures HeaderFrom(data, start) == Some((Strip(h), p))
  {
    HeaderAt(data, q, p, h);
    HeaderFromSkips(data, start, q);
  }

  /** A header found ending at `p` whose body loop stops at `e` with `content`: that is the reply. */
  lemma ExchangeExact(w: Wire, command: string, line: string, p: nat, length: int, e: nat, content: string)
    requires w.Valid() && w.open && p <= e <= |w.peer.data|
    requires HeaderFrom(w.peer.data, w.pos) == Some((line, p)) && ParseHeader(line) == Some((200, length))
    requires BodyEnd(w.peer.data, p, length) == Some(e) && w.peer.data[p..e] == content
    ensures var o := Exchange(w, command);
      o.result == Ok(Reply(200, length, content)) && o.wire.pos == Received(w.(pos := e))
  {
    ExchangeOk(w, command, line, p, length, e);
  }

  /**
   * Two replies in a row, the first with a body that ends a line, and the first reply's
   * packet ending with its frame: whether or not `read_eager` drained the frame's newline,
   * the blank-line loop of the second `fetch` passes over it, and both replies come back
   * whole (the older revision fails on the second, see `VarnishLegacy.LeftoverNewline`).
   */
  lemma SecondReply(w: Wire, first: string, second: string, p: nat, e: nat, p2: nat, e2: nat,
                    h: string, body: string, h2: string, body2: string)
    requires w.Valid() && w.open && HeaderOk(h, 200, |body|) && HeaderOk(h2, 200, |body2|)
    requires body == [] || body[|body| - 1] == '\n'
    requires body2 == [] || body2[|body2| - 1] == '\n'
    requires w.pos + |h| == p && p + |body| == e && e + 1 + |h2| == p2 && p2 + |body2| == e2
    requires e2 < |w.peer.data| && e + 1 in w.peer.cuts
    requires w.peer.data[w.pos..p] == h && w.peer.data[p..e + 1] == body + "\n"
    requires w.peer.data[e + 1..p2] == h2 && w.peer.data[p2..e2 + 1] == body2 + "\n"
    ensures var o := Exchange(w, first);
      && o.result == Ok(Reply(200, |body|, body))
      && Exchange(o.wire, second).result == Ok(Reply(200, |body2|, body2))
  {
    BodyOfLines(w.peer.data, p, e, body);
    DrainToCut(w, e);
    assert IsBlank(w.peer.data[w.pos..w.pos]);
    ExchangeFrame(w, first, w.pos, p, e, h, body);
    AfterFrame(Exchange(w, first).wire, second, e, p2, e2, h2, body2);
  }

  /**
   * A reply that follows the newline closing an earlier frame, at `n`, comes back whole,
   * whether the connection was left in front of that newline or past it.
   */
  lemma AfterFrame(v: Wire, command: string, n: nat, p: nat, e: nat, h: string, body: string)
    requires v.Valid() && v.open && HeaderOk(h, 200, |body|)
    requires body == [] || body[|body| - 1] == '\n'
    requires v.pos == n || v.pos == n + 1
    requires n + 1 + |h| == p && p + |body| == e && e < |v.peer.data|
    requires v.peer.data[n] == '\n'
    requires v.peer.data[n + 1..p] == h && v.peer.data[p..e + 1] == body + "\n"
    ensures Exchange(v, command).result == Ok(Reply(200, |body|, body))
  {
    BlankThrough(v.peer.data, v.pos, n);
    ExchangeFrame(v, command, n + 1, p, e, h, body);
  }

  /** From just before or just after a newline, the rest of its line is blank. */
  lemma BlankThrough(data: string, pos: nat, n: nat)
    requires n < |data| && data[n] == '\n' && (pos == n || pos == n + 1)
    ensures IsBlank(data[pos..n + 1])
  {
    if pos == n {
      assert data[pos..n + 1] == "\n";
    }
  }

  /** `read_eager` in front of the last character of a packet stops before or after it. */
  lemma DrainToCut(w: Wire, n: nat)
    requires w.Valid() && n < |w.peer.data| && n + 1 in w.peer.cuts
    ensures Received(w.(pos := n)) == n || Received(w.(pos := n)) == n + 1
  {
  }

  // ---------------------------------------------------------------- connecting

  /** `content[:-1]`. */
  function DropLast(s: string): string {
    if s == [] then [] else s[..|s| - 1]
  }

  /**
   * `_read()`: parse the first line as `status length`, then collect packets until `length`
   * characters are held, and return them without the last one.
   */
  function Greeting(w: Wire): (o: Outcome<Reply>)
    requires w.Valid()
    ensures Follows(w, o.wire) && o.wire.sent == w.sent && o.wire.open == w.open
  {
    var (line, w1) := LineRead(w);
    if line.None? then Outcome(Err(EndOfStream), w1)
    else
      match ParseHeader(line.value)
      case None => Outcome(Err(BadHeader(line.value)), w1)
      case Some((status, length)) =>
        match ChunkEnd(w1.peer.data, w1.peer.cuts, w1.pos, length)
        case None => Outcome(Err(EndOfStream), w1.(pos := |w1.peer.data|))
        case Some(e) => Outcome(Ok(Reply(status, length, DropLast(w1.peer.data[w1.pos..e]))), w1.(pos := e))
  }

  /** A line without an inner newline is what `read_until('\n')` returns. */
  lemma LineReadAt(w: Wire, h: string)
    requires w.Valid() && OneLine(h)
    requires w.pos + |h| <= |w.peer.data| && w.peer.data[w.pos..w.pos + |h|] == h
    ensures LineRead(w) == (Some(h), w.(pos := w.pos + |h|))
  {
    LineEndOfLine(w.peer.data, w.pos, h);
  }

  /** The greeting read in stages: header line, then packets up to the announced length. */
  lemma GreetingOk(w: Wire, line: string, p: nat, status: int, length: int, e: nat)
    requires w.Valid() && p <= |w.peer.data| && LineRead(w) == (Some(line), w.(pos := p))
    requires ParseHeader(line) == Some((status, length)) && ChunkEnd(w.peer.data, w.peer.cuts, p, length) == Some(e)
    ensures e <= |w.peer.data|
    ensures Greeting(w) == Outcome(Ok(Reply(status, length, DropLast(w.peer.data[p..e]))), w.(pos := e))
  {
  }

  /**
   * The greeting's body is returned whole when the packet that completes it also carries the
   * frame's closing newline; the `[:-1]` then removes exactly that newline.
   */
  lemma GreetingFrame(w: Wire, h: string, status: int, body: string)
    requires w.Valid() && OneLine(h) && ParseHeader(h) == Some((status, |body|)) && |body| > 0
    requires var p := w.pos + |h|;
      && p + |body| < |w.peer.data| && w.peer.data[w.pos..p] == h && w.peer.data[p..p + |body| + 1] == body + "\n"
    requires var end := w.pos + |h| + |body| + 1;
      (end == |w.peer.data| || end in w.peer.cuts) && end - 1 !in w.peer.cuts
    ensures Greeting(w).result == Ok(Reply(status, |body|, body))
    ensures Greeting(w).wire.pos == w.pos + |h| + |body| + 1
  {
    var p := w.pos + |h|;
    var end := p + |body| + 1;
    LineReadAt(w, h);
    ChunkEndAt(w.peer.data, w.peer.cuts, p, |body|, end);
    GreetingOk(w, h, p, status, |body|, end);
    assert DropLast(body + "\n") == body;
  }

  /** The first 32 characters of the greeting body. */
  function Challenge(content: string): (c: string)
    ensures |c| == if |content| < 32 then |content| else 32
    ensures c <= content
  {
    if |content| < 32 then content else content[..32]
  }

  /** `'%s\n%s\n%s\n' % (challenge, secret, challenge)`, the text whose SHA-256 is sent. */
  function AuthPreimage(challenge: string, secret: string): string {
    challenge + "\n" + secret + "\n" + challenge + "\n"
  }

  /** `'auth %s' % sha256(...).hexdigest()`, the digest being a parameter of the model. */
  function AuthCommand(digest: string -> string, content: string, secret: string): string {
    "auth " + digest(AuthPreimage(Challenge(content), secret))
  }

  /** The preimage is the challenge, the secret and the challenge again, one per line. */
  lemma AuthPreimageLines(challenge: string, secret: string)
    requires forall k :: 0 <= k < |challenge| ==> !IsLineBreak(challenge[k])
    requires forall k :: 0 <= k < |secret| ==> !IsLineBreak(secret[k])
    ensures SplitLines(AuthPreimage(challenge, secret)) == [challenge, secret, challenge]
  {
    var lines := [challenge, secret, challenge];
    assert Terminated(lines[3..]) == [];
    assert Terminated(lines[2..]) == challenge + "\n";
    assert Terminated(lines[1..]) == secret + "\n" + challenge + "\n";
    assert Terminated(lines) == AuthPreimage(challenge, secret);
    SplitLinesTerminated(lines);
  }

  /** The server reads `auth` and the hex digest as the two words of the command. */
  lemma AuthCommandWords(digest: string -> string, content: string, secret: string)
    requires IsWord(digest(AuthPreimage(Challenge(content), secret)))
    ensures Split(AuthCommand(digest, content, secret)) == ["auth", digest(AuthPreimage(Challenge(content), secret))]
  {
    var x := digest(AuthPreimage(Challenge(content), secret));
    assert IsWord("auth");
    WordsOfCommand(["auth", x]);
    assert Join(" ", ["auth", x]) == "auth " + x;
  }

  /**
   * `VarnishHandler.__init__` after the connection is made: read the greeting; when its
   * status is 107 and a secret was given, authenticate; any other status is only logged.
   */
  function Handshake(w: Wire, secret: Option<string>, digest: string -> string): (o: Outcome<Reply>)
    requires w.Valid()
    ensures Follows(w, o.wire)
  {
    var g := Greeting(w);
    if g.result.Err? then g
    else if g.result.value.status == 107 && secret.Some? then
      var a := Exchange(g.wire, AuthCommand(digest, g.result.value.content, secret.value));
      Outcome(if a.result.Err? then Err(a.result.error) else g.result, a.wire)
    else g
  }

  /**
   * The handshake writes something exactly when the greeting asks for authentication and a
   * secret was given, and then it writes the `auth` command and one newline. Its result is
   * the greeting's: a status other than 107 (200 or not) is only logged, and with 107 and a
   * secret the constructor fails exactly when the `auth` fetch fails, with that error.
   */
  lemma HandshakeWrites(w: Wire, secret: Option<string>, digest: string -> string)
    requires w.Valid() && w.open && Greeting(w).result.Ok?
    ensures var g := Greeting(w).result.value;
      Handshake(w, secret, digest).wire.sent
        == if g.status == 107 && secret.Some? then w.sent + Escape(AuthCommand(digest, g.content, secret.value) + "\n")
           else w.sent
    ensures Greeting(w).result.value.status != 107 ==> Handshake(w, secret, digest) == Greeting(w)
    ensures var g := Greeting(w).result.value;
      Handshake(w, secret, digest).result
        == if g.status == 107 && secret.Some? then
             var a := Exchange(Greeting(w).wire, AuthCommand(digest, g.content, secret.value));
             if a.result.Err? then Err(a.result.error) else Greeting(w).result
           else Greeting(w).result
  {
  }

  /** A greeting that cannot be read fails the constructor with the same error, before anything is written. */
  lemma HandshakeNoGreeting(w: Wire, secret: Option<string>, digest: string -> string)
    requires w.Valid() && Greeting(w).result.Err?
    ensures Handshake(w, secret, digest) == Greeting(w)
    ensures Handshake(w, secret, digest).wire.sent == w.sent
  {
  }

  // ---------------------------------------------------------------- verbs

  /** The handler methods a batch can name. */
  datatype Verb =
    | Start | Stop | Quit | Close | Auth | Ping | Status | Help
    | VclLoad | VclInline | VclShow | VclUse | VclDiscard | VclList
    | ParamShow | ParamSet | Ban | BanUrl | BanList | PurgeUrl | Fetch | ReadReply

  /** The Python name of each method. */
  function Name(v: Verb): string {
    match v
    case Start => "start"
    case Stop => "stop"
    case Quit => "quit"
    case Close => "close"
    case Auth => "auth"
    case Ping => "ping"
    case Status => "status"
    case Help => "help"
    case VclLoad => "vcl_load"
    case VclInline => "vcl_inline"
    case VclShow => "vcl_show"
    case VclUse => "vcl_use"
    case VclDiscard => "vcl_discard"
    case VclList => "vcl_list"
    case ParamShow => "param_show"
    case ParamSet => "param_set"
    case Ban => "ban"
    case BanUrl => "ban_url"
    case BanList => "ban_list"
    case PurgeUrl => "purge_url"
    case Fetch => "fetch"
    case ReadReply => "_read"
  }

  /** `getattr(handler, name)` for the names of the handler's methods. */
  function Lookup(name: string): Option<Verb> {
    match name
    case "start" => Some(Start)
    case "stop" => Some(Stop)
    case "quit" => Some(Quit)
    case "close" => Some(Close)
    case "auth" => Some(Auth)
    case "ping" => Some(Ping)
    case "status" => Some(Status)
    case "help" => Some(Help)
    case "vcl_load" => Some(VclLoad)
    case "vcl_inline" => Some(VclInline)
    case "vcl_show" => Some(VclShow)
    case "vcl_use" => Some(VclUse)
    case "vcl_discard" => Some(VclDiscard)
    case "vcl_list" => Some(VclList)
    case "param_show" => Some(ParamShow)
    case "param_set" => Some(ParamSet)
    case "ban" => Some(Ban)
    case "ban_url" => Some(BanUrl)
    case "ban_list" => Some(BanList)
    case "purge_url" => Some(PurgeUrl)
    case "fetch" => Some(Fetch)
    case "_read" => Some(ReadReply)
    case _ => None
  }

  /** `getattr` finds every method under its own name. */
  lemma LookupName(v: Verb)
    ensures Lookup(Name(v)) == Some(v)
  {
  }

  /** `getattr` finds a method only under its own name. */
  lemma LookupOnlyName(name: string)
    ensures Lookup(name).Some? ==> name == Name(Lookup(name).value)
  {
  }

  /** What calling a method does on the connection. */
  datatype Action = Send(command: string, shape: Shape) | Hangup | Receive

  function Sending(text: Result<string>, shape: Shape): Result<Action> {
    match text
    case Ok(t) => Ok(Send(t, shape))
    case Err(e) => Err(e)
  }

  /** `auth(secret, content)` called from a batch: the content must be a string to slice. */
  function AuthText(args: seq<Value>, digest: string -> string): Result<string> {
    if |args| != 2 || Show(args[0]).None? || !args[1].Str? then Err(BadArguments("auth"))
    else Ok(AuthCommand(digest, args[1].s, Show(args[0]).value))
  }

  /** The command each method sends for its arguments, and what it makes of the reply. */
  function Act(v: Verb, args: seq<Value>, digest: string -> string): Result<Action> {
    match v
    case Start => Sending(Bare("start", "start", args), AsReply)
    case Stop => Sending(Bare("stop", "stop", args), AsReply)
    case Quit => if args == [] then Ok(Hangup) else Err(BadArguments("quit"))
    case Close => if args == [] then Ok(Hangup) else Err(BadArguments("close"))
    case Auth => Sending(AuthText(args, digest), AsNothing)
    case Ping => Sending(Optional("ping", "ping", args), AsTokens)
    case Status => Sending(Bare("status", "status", args), AsBody)
    case Help => Sending(Optional("help", "help", args), AsBody)
    case VclLoad => Sending(Positional2("vcl.load", "vcl_load", args), AsReply)
    case VclInline => Sending(Positional2("vcl.inline", "vcl_inline", args), AsReply)
    case VclShow => Sending(VclShowText(args), AsReply)
    case VclUse => Sending(Positional1("vcl.use", "vcl_use", args), AsReply)
    case VclDiscard => Sending(Positional1("vcl.discard", "vcl_discard", args), AsReply)
    case VclList => Sending(Bare("vcl.list", "vcl_list", args), AsVcls)
    case ParamShow => Sending(ParamShowText("param_show", args), AsReply)
    case ParamSet => Sending(Positional2("param.set", "param_set", args), AsNothing)
    case Ban => Sending(Positional1("ban", "ban", args), AsBody)
    case BanUrl => Sending(Positional1("ban.url", "ban_url", args), AsBody)
    case BanList => Sending(Bare("ban.list", "ban_list", args), AsBody)
    case PurgeUrl => Err(Unmodelled("purge_url"))
    case Fetch => Sending(Verbatim("fetch", args), AsReply)
    case ReadReply => if args == [] then Ok(Receive) else Err(BadArguments("_read"))
  }

  /** Calling handler method `v` with `args`. */
  function Call(w: Wire, v: Verb, args: seq<Value>, digest: string -> string): (o: Outcome<Output>)
    requires w.Valid()
    ensures Follows(w, o.wire)
  {
    match Act(v, args, digest)
    case Err(e) => Outcome(Err(e), w)
    case Ok(a) => Effect(w, a)
  }

  /** What an action does on the connection once the arguments are accepted. */
  function Effect(w: Wire, a: Action): (o: Outcome<Output>)
    requires w.Valid()
    ensures Follows(w, o.wire)
  {
    match a
    case Hangup => Outcome(Ok(Nothing), Closed(w))
    case Receive =>
      var g := Greeting(w);
      Outcome(if g.result.Err? then Err(g.result.error) else Ok(Fetched(g.result.value)), g.wire)
    case Send(command, shape) =>
      var f := Exchange(w, command);
      match f.result
      case Err(e) => Outcome(Err(e), f.wire)
      case Ok(reply) => Outcome(Shaped(shape, reply), f.wire)
  }

  /**
   * `ping` sends `ping`, followed by the timestamp only when it is truthy, and returns the
   * tokens of the reply after the first (`PONG`); `PingTokensOfWords` gives them for a
   * `PONG <time> <version>` body.
   */
  lemma PingCall(w: Wire, stamp: Value, digest: string -> string)
    requires w.Valid() && FormatOne(stamp).Some?
    ensures var f := Exchange(w, if Truthy(stamp) then "ping " + FormatOne(stamp).value else "ping");
      Call(w, Ping, [stamp], digest)
        == Outcome(if f.result.Err? then Err(f.result.error) else Ok(Tokens(PingTokens(f.result.value.content))), f.wire)
    ensures var f := Exchange(w, "ping");
      Call(w, Ping, [], digest)
        == Outcome(if f.result.Err? then Err(f.result.error) else Ok(Tokens(PingTokens(f.result.value.content))), f.wire)
  {
    assert Act(Ping, [], digest) == Ok(Send("ping", AsTokens));
    var command := if Truthy(stamp) then "ping " + FormatOne(stamp).value else "ping";
    assert "ping" + " " == "ping ";
    assert Optional("ping", "ping", [stamp]) == Ok(command);
    assert Act(Ping, [stamp], digest) == Ok(Send(command, AsTokens));
  }

  /**
   * `fetch(command)` called from a batch writes the command as it is and returns the whole
   * reply; it is the one method through which a batch reaches commands without a wrapper.
   */
  lemma FetchCall(w: Wire, command: Value, digest: string -> string)
    requires w.Valid() && FormatOne(command).Some?
    ensures var f := Exchange(w, FormatOne(command).value);
      Call(w, Fetch, [command], digest)
        == Outcome(if f.result.Err? then Err(f.result.error) else Ok(Fetched(f.result.value)), f.wire)
  {
    assert Act(Fetch, [command], digest) == Ok(Send(FormatOne(command).value, AsReply));
  }

  /**
   * `_read()` called from a batch writes nothing and reads one reply the way the greeting
   * is read, its last character dropped.
   */
  lemma ReadCall(w: Wire, digest: string -> string)
    requires w.Valid()
    ensures var g := Greeting(w);
      Call(w, ReadReply, [], digest)
        == Outcome(if g.result.Err? then Err(g.result.error) else Ok(Fetched(g.result.value)), g.wire)
    ensures Call(w, ReadReply, [], digest).wire.sent == w.sent
  {
    assert Act(ReadReply, [], digest) == Ok(Receive);
  }

  // ---------------------------------------------------------------- batches

  /** The calls of `for cmd in cs`, where the first command not expanded ends the loop. */
  function Expand(cs: seq<Value>, args: seq<Value>): seq<Step> {
    if cs == [] then []
    else if Multiple(cs[0]) then Entries(cs[0]) + Expand(cs[1..], args)
    else [PlainStep(cs[0], args)]
  }

  /** The calls `run(addr, *commands)` makes: the plain command gets `commands[1:]` as its arguments. */
  function Plan(commands: seq<Value>): seq<Step> {
    Expand(commands, if commands == [] then [] else commands[1..])
  }

  lemma {:induction false} ExpandPrefix(cs: seq<Value>, args: seq<Value>, i: nat)
    requires i <= |cs| && forall j :: 0 <= j < i ==> Multiple(cs[j])
    ensures Expand(cs, args) == Flatten(cs[..i]) + Expand(cs[i..], args)
  {
    if i > 0 {
      ExpandPrefix(cs[1..], args, i - 1);
      assert cs[1..][..i - 1] == cs[..i][1..];
      assert cs[1..][i - 1..] == cs[i..];
    } else {
      assert cs[..0] == [] && cs[0..] == cs;
    }
  }

  /**
   * `run` expands every leading tuple command entry by entry, then calls the first other
   * command with all commands after the first as its arguments, and stops there.
   */
  lemma PlanStops(commands: seq<Value>, i: nat)
    requires i < |commands| && !Multiple(commands[i])
    requires forall j :: 0 <= j < i ==> Multiple(commands[j])
    ensures Plan(commands) == Flatten(commands[..i]) + [PlainStep(commands[i], commands[1..])]
  {
    ExpandPrefix(commands, commands[1..], i);
  }

  /** A batch of tuple commands only is expanded whole. */
  lemma PlanExpandsAll(commands: seq<Value>)
    requires forall j :: 0 <= j < |commands| ==> Multiple(commands[j])
    ensures Plan(commands) == Flatten(commands)
  {
    ExpandPrefix(commands, if commands == [] then [] else commands[1..], |commands|);
    assert commands[..|commands|] == commands;
  }

  /** `run(addr, 'ban.url', regex)` calls `ban_url(regex)` and nothing else. */
  lemma PlanBanUrl(regex: string)
    ensures Plan([Str("ban.url"), Str(regex)]) == [Invoke("ban_url", [Str(regex)])]
  {
    var r := Replace("ban.url", '.', '_');
    assert |r| == 7;
    assert forall i :: 0 <= i < 7 ==> r[i] == "ban_url"[i];
    assert r == "ban_url";
    var cs := [Str("ban.url"), Str(regex)];
    assert cs[1..] == [Str(regex)];
    assert !Multiple(cs[0]);
    assert Expand(cs, [Str(regex)]) == [PlainStep(cs[0], [Str(regex)])];
  }

  /** `run(addr, (('ping', None), ('ping', None)))` pings twice with `None`. */
  lemma PlanPingTwice()
    ensures Plan([Tup([Tup([Str("ping"), NoneV]), Tup([Str("ping"), NoneV])])])
      == [Invoke("ping", [NoneV]), Invoke("ping", [NoneV])]
  {
    var entry := Tup([Str("ping"), NoneV]);
    assert '.' !in "ping";
    assert Replace("ping", '.', '_') == "ping";
    assert EntryStep(entry) == Invoke("ping", [NoneV]);
    var c := Tup([entry, entry]);
    assert Multiple(c);
    assert Entries(c) == [Invoke("ping", [NoneV]), Invoke("ping", [NoneV])];
    assert [c][1..] == [];
    assert Expand([c][1..], []) == [];
    assert Expand([c], []) == Entries(c) + [];
  }

  /** One step of a batch. */
  function StepRun(w: Wire, s: Step, digest: string -> string): (o: Outcome<Output>)
    requires w.Valid()
    ensures Follows(w, o.wire)
  {
    match s
    case Reject(e) => Outcome(Err(e), w)
    case Invoke(name, args) =>
      match Lookup(name)
      case None => Outcome(Err(UnknownCommand(name)), w)
      case Some(v) => Call(w, v, args, digest)
  }

  /** The calls of a batch in order: each result is collected and the first exception ends the batch. */
  function Perform(w: Wire, steps: seq<Step>, digest: string -> string): (o: Outcome<seq<Output>>)
    requires w.Valid()
    ensures Follows(w, o.wire)
    ensures o.result.Ok? ==> |o.result.value| == |steps|
    decreases |steps|
  {
    if steps == [] then Outcome(Ok([]), w)
    else
      var first := StepRun(w, steps[0], digest);
      match first.result
      case Err(e) => Outcome(Err(e), first.wire)
      case Ok(r) => Then([r], Perform(first.wire, steps[1..], digest))
  }

  /**
   * A batch runs as its first part followed by the rest: the results of the rest are
   * appended after those of the first part, on the connection the first part leaves.
   */
  lemma {:induction false} PerformAppend(w: Wire, a: seq<Step>, b: seq<Step>, digest: string -> string)
    requires w.Valid()
    ensures var pa := Perform(w, a, digest);
      Perform(w, a + b, digest)
        == if pa.result.Err? then pa else Then(pa.result.value, Perform(pa.wire, b, digest))
    decreases |a|
  {
    if a == [] {
      assert a + b == b;
      var pb := Perform(w, b, digest);
      if pb.result.Ok? {
        assert [] + pb.result.value == pb.result.value;
      }
    } else {
      assert (a + b)[0] == a[0];
      assert (a + b)[1..] == a[1..] + b;
      var first := StepRun(w, a[0], digest);
      if first.result.Ok? {
        PerformAppend(first.wire, a[1..], b, digest);
        var rest := Perform(first.wire, a[1..], digest);
        if rest.result.Ok? {
          var tail := Perform(rest.wire, b, digest);
          if tail.result.Ok? {
            assert [first.result.value] + (rest.result.value + tail.result.value)
              == ([first.result.value] + rest.result.value) + tail.result.value;
          }
        }
      }
    }
  }

  /** `run(addr, *commands, secret=...)`: connect, run the batch, close. */
  function RunBatch(addr: string, peer: Peer, commands: seq<Value>, secret: Option<string>,
                    digest: string -> string): (r: Result<seq<Output>>)
    ensures r.Ok? ==> |r.value| == |Plan(commands)|
  {
    match Endpoint(addr)
    case Err(e) => Err(e)
    case Ok(_) =>
      var h := Handshake(Connect(peer), secret, digest);
      if h.result.Err? then Err(h.result.error)
      else Perform(h.wire, Plan(commands), digest).result
  }

  /** `run(addr, 'help', *args)` makes one call, `help(*args)`. */
  lemma PlanHelp(args: seq<Value>)
    ensures Plan([Str("help")] + args) == [Invoke("help", args)]
  {
    var cs := [Str("help")] + args;
    assert '.' !in "help";
    assert Replace("help", '.', '_') == "help";
    assert cs[0] == Str("help") && cs[1..] == args;
    assert !Multiple(cs[0]);
  }

  // ---------------------------------------------------------------- the manager

  /**
   * `VarnishManager.help(*args)`: the result of `help(*args)` on the first server, run
   * without a secret since no keyword arguments are passed on; with no servers,
   * `servers[0]` raises.
   */
  function ManagerHelp(servers: seq<string>, args: seq<Value>,
                       net: string -> Peer, digest: string -> string): Result<Output>
  {
    if servers == [] then Err(NoServers)
    else
      match RunBatch(servers[0], net(servers[0]), [Str("help")] + args, None, digest)
      case Err(e) => Err(e)
      case Ok(rs) => PlanHelp(args); Ok(rs[0])
  }

  /** What `VarnishManager.run` returns: nothing without servers, else one result list per server. */
  datatype Broadcast = Silent | Collected(results: seq<seq<Output>>)

  /** `run(server, *commands, **kwargs)` as a function of the server's address. */
  function Batch(commands: seq<Value>, secret: Option<string>, net: string -> Peer,
                 digest: string -> string): string -> Result<seq<Output>>
  {
    addr => RunBatch(addr, net(addr), commands, secret, digest)
  }

  /** `VarnishManager.run` without threads: the loop returns from its first iteration. */
  function Broadcasted(servers: seq<string>, commands: seq<Value>, secret: Option<string>,
                       net: string -> Peer, digest: string -> string): Result<Broadcast>
  {
    if servers == [] then Ok(Silent)
    else
      match EachServer(servers, Batch(commands, secret, net, digest))
      case Err(e) => Err(e)
      case Ok(rs) => Ok(Collected(rs))
  }


  // ---------------------------------------------------------------- the handler object

  /** `VarnishHandler`: a telnet connection to one admin port, and the digest used by `auth`. */
  class Handler {
    const conn: Channel
    const digest: string -> string

    /** `Telnet.__init__`: the connection is open and nothing has been read or written. */
    constructor (peer: Peer, digest: string -> string)
      ensures fresh(conn) && conn.State() == Connect(peer) && this.digest == digest
    {
      conn := new Channel(peer);
      this.digest := digest;
    }

    /** `_read()`: the header line, then the packets of the greeting's body. */
    method Read() returns (r: Result<Reply>)
      requires conn.State().Valid()
      modifies conn
      ensures Outcome(r, conn.State()) == Greeting(old(conn.State()))
    {
      var line := conn.ReadUntilNewline();
      if line.None? {
        return Err(EndOfStream);
      }
      var header := ParseHeader(line.value);
      if header.None? {
        return Err(BadHeader(line.value));
      }
      var (status, length) := header.value;
      var content := ReadPackets(length);
      if content.None? {
        return Err(EndOfStream);
      }
      r := Ok(Reply(status, length, DropLast(content.value)));
    }

    /** `while len(content) < length: content += self.read_some()`. */
    method ReadPackets(length: int) returns (content: Option<string>)
      requires conn.State().Valid()
      modifies conn
      ensures conn.sent == old(conn.sent) && conn.open == old(conn.open)
      ensures old(conn.pos) <= conn.pos <= |conn.data|
      ensures content.None? ==> ChunkEnd(conn.data, conn.cuts, old(conn.pos), length) == None && conn.pos == |conn.data|
      ensures content.Some? ==>
        (&& ChunkEnd(conn.data, conn.cuts, old(conn.pos), length) == Some(conn.pos)
         && content.value == conn.data[old(conn.pos)..conn.pos])
    {
      var start := conn.pos;
      var held := [];
      while |held| < length
        invariant conn.sent == old(conn.sent) && conn.open == old(conn.open)
        invariant start <= conn.pos <= |conn.data| && held == conn.data[start..conn.pos]
        invariant ChunkEnd(conn.data, conn.cuts, start, length)
          == ChunkEnd(conn.data, conn.cuts, conn.pos, length - (conn.pos - start))
        decreases |conn.data| - conn.pos
      {
        if conn.pos == |conn.data| {
          return None;
        }
        var p := conn.pos;
        var chunk := conn.ReadSome();
        ChunkEndStep(conn.data, conn.cuts, start, p, conn.pos, length);
        SliceSplit(conn.data, start, p, conn.pos);
        held := held + chunk;
      }
      content := Some(held);
    }

    /** `while 1: buffer = read_until('\n').strip(); if len(buffer): break`. */
    method ReadHeader() returns (line: Option<string>)
      requires conn.State().Valid()
      modifies conn
      ensures conn.State() == old(conn.State()).(pos := conn.pos)
      ensures conn.State().Valid()
      ensures match HeaderFrom(conn.data, old(conn.pos))
        case None => line == None && conn.pos == |conn.data|
        case Some((h, p)) => line == Some(h) && conn.pos == p
    {
      var start := conn.pos;
      while true
        invariant conn.State() == old(conn.State()).(pos := conn.pos) && conn.State().Valid()
        invariant HeaderFrom(conn.data, start) == HeaderFrom(conn.data, conn.pos)
        decreases |conn.data| - conn.pos
      {
        var raw := conn.ReadUntilNewline();
        if raw.None? {
          return None;
        }
        var stripped := Strip(raw.value);
        if stripped != [] {
          return Some(stripped);
        }
      }
    }

    /** `fetch(command)`. */
    method Fetch(command: string) returns (r: Result<Reply>)
      requires conn.State().Valid()
      modifies conn
      ensures Outcome(r, conn.State()) == Exchange(old(conn.State()), command)
    {
      var written := conn.Write(command + "\n");
      if !written {
        return Err(ConnectionClosed);
      }
      var line := ReadHeader();
      if line.None? {
        return Err(EndOfStream);
      }
      var header := ParseHeader(line.value);
      if header.None? {
        return Err(BadHeader(line.value));
      }
      var (status, length) := header.value;
      if status != 200 {
        var next := conn.ReadUntilNewline();
        if next.None? {
          return Err(EndOfStream);
        }
        return Err(BadStatus(status, Strip(next.value), Some(command)));
      }
      var body := ReadBody(conn, length);
      if body.None? {
        return Err(EndOfStream);
      }
      var _ := conn.ReadEager();
      r := Ok(Reply(status, length, body.value));
    }

    /** `auth(secret, content)` as `__init__` calls it. */
    method Authenticate(secret: string, content: string) returns (r: Result<Reply>)
      requires conn.State().Valid()
      modifies conn
      ensures Outcome(r, conn.State()) == Exchange(old(conn.State()), AuthCommand(digest, content, secret))
    {
      r := Fetch(AuthCommand(digest, content, secret));
    }

    /** The rest of `__init__`: read the greeting and answer a challenge when a secret is given. */
    method Greet(secret: Option<string>) returns (r: Result<Reply>)
      requires conn.State().Valid()
      modifies conn
      ensures Outcome(r, conn.State()) == Handshake(old(conn.State()), secret, digest)
    {
      r := Read();
      if r.Ok? && r.value.status == 107 && secret.Some? {
        var a := Authenticate(secret.value, r.value.content);
        if a.Err? {
          r := Err(a.error);
        }
      }
    }

    /** Calling handler method `v` with `args`. */
    method Invoke(v: Verb, args: seq<Value>) returns (r: Result<Output>)
      requires conn.State().Valid()
      modifies conn
      ensures Outcome(r, conn.State()) == Call(old(conn.State()), v, args, digest)
    {
      var action := Act(v, args, digest);
      if action.Err? {
        return Err(action.error);
      }
      r := Carry(action.value);
    }

    /** The body of the method called, once its arguments are accepted. */
    method Carry(a: Action) returns (r: Result<Output>)
      requires conn.State().Valid()
      modifies conn
      ensures Outcome(r, conn.State()) == Effect(old(conn.State()), a)
    {
      if a.Hangup? {
        conn.Close();
        return Ok(Nothing);
      }
      if a.Receive? {
        var reply := Read();
        return if reply.Err? then Err(reply.error) else Ok(Fetched(reply.value));
      }
      var reply := Fetch(a.command);
      if reply.Err? {
        return Err(reply.error);
      }
      if a.shape == AsVcls {
        var vcls := ParseVcls(reply.value.content);
        r := if vcls.Ok? then Ok(Vcls(vcls.value)) else Err(vcls.error);
      } else {
        r := Shaped(a.shape, reply.value);
      }
    }

    /** One step of a batch: `getattr` the method, then call it. */
    method RunStep(s: Step) returns (r: Result<Output>)
      requires conn.State().Valid()
      modifies conn
      ensures Outcome(r, conn.State()) == StepRun(old(conn.State()), s, digest)
    {
      if s.Reject? {
        return Err(s.error);
      }
      var v := Lookup(s.name);
      if v.None? {
        return Err(UnknownCommand(s.name));
      }
      r := Invoke(v.value, s.args);
    }
  }

  /** The calls of a batch from the `i`-th on: that call, then the rest if it succeeds. */
  lemma PerformStep(w: Wire, steps: seq<Step>, i: nat, digest: string -> string)
    requires w.Valid() && i < |steps|
    ensures var first := StepRun(w, steps[i], digest);
      Perform(w, steps[i..], digest).result
        == if first.result.Err? then Err(first.result.error)
           else Prefixed([first.result.value], Perform(first.wire, steps[i + 1..], digest).result)
  {
    assert steps[i..][0] == steps[i] && steps[i..][1..] == steps[i + 1..];
  }

  /** `run(addr, *commands, secret=...)`: connect, run each call of the batch, close. */
  method Run(addr: string, peer: Peer, commands: seq<Value>, secret: Option<string>,
             digest: string -> string) returns (r: Result<seq<Output>>)
    ensures r == RunBatch(addr, peer, commands, secret, digest)
  {
    var parts := Endpoint(addr);
    if parts.Err? {
      return Err(parts.error);
    }
    var handler := new Handler(peer, digest);
    var greeting := handler.Greet(secret);
    if greeting.Err? {
      return Err(greeting.error);
    }
    var steps := Plan(commands);
    ghost var start := handler.conn.State();
    var results := [];
    var i := 0;
    PrefixedStart(steps, Perform(start, steps, digest).result);
    while i < |steps|
      invariant 0 <= i <= |steps| && handler.conn.State().Valid()
      invariant Perform(start, steps, digest).result
        == Prefixed(results, Perform(handler.conn.State(), steps[i..], digest).result)
    {
      PerformStep(handler.conn.State(), steps, i, digest);
      var out := handler.RunStep(steps[i]);
      if out.Err? {
        return Err(out.error);
      }
      PrefixedPrefixed(results, [out.value], Perform(handler.conn.State(), steps[i + 1..], digest).result);
      results := results + [out.value];
      i := i + 1;
    }
    PrefixedDone(steps, results, Perform(handler.conn.State(), [], digest).result);
    handler.conn.Close();
    r := Ok(results);
  }

  /** `VarnishManager`: the admin ports of the servers a batch is run on. */
  class Manager {
    var servers: seq<string>

    constructor (servers: seq<string>)
      ensures this.servers == servers
    {
      this.servers := servers;
    }

    /** `run(*commands, **kwargs)` without threads: one batch per server, in order. */
    method RunAll(commands: seq<Value>, secret: Option<string>, net: string -> Peer,
                  digest: string -> string) returns (r: Result<Broadcast>)
      ensures r == Broadcasted(servers, commands, secret, net, digest)
    {
      if servers == [] {
        return Ok(Silent);
      }
      var batch := Batch(commands, secret, net, digest);
      var all := [];
      var i := 0;
      PrefixedStart(servers, EachServer(servers, batch));
      while i < |servers|
        invariant 0 <= i <= |servers|
        invariant EachServer(servers, batch) == Prefixed(all, EachServer(servers[i..], batch))
      {
        EachServerStep(servers, i, batch);
        var one := Run(servers[i], net(servers[i]), commands, secret, digest);
        if one.Err? {
          return Err(one.error);
        }
        PrefixedPrefixed(all, [one.value], EachServer(servers[i + 1..], batch));
        all := all + [one.value];
        i := i + 1;
      }
      PrefixedDone(servers, all, EachServer([], batch));
      r := Ok(Collected(all));
    }

    /** `help(*args)`: the first result of `run(servers[0], 'help', *args)`. */
    method Help(args: seq<Value>, net: string -> Peer, digest: string -> string)
      returns (r: Result<Output>)
      ensures r == ManagerHelp(servers, args, net, digest)
    {
      if servers == [] {
        return Err(NoServers);
      }
      var results := Run(servers[0], net(servers[0]), [Str("help")] + args, None, digest);
      if results.Err? {
        return Err(results.error);
      }
      PlanHelp(args);
      r := Ok(results.value[0]);
    }

    /** `close()`: the closing batches run in threads; the manager forgets its servers. */
    method Close()
      modifies this
      ensures servers == []
    {
      servers := [];
    }
  }
}
