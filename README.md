# python-varnish admin-port client, modelled in Dafny

python-varnish drives a Varnish cache through its management (admin) port. It opens a
telnet connection, writes one command per line, and reads framed replies. Each reply is a
header line `<status> <length>`, then `length` characters of body, then a newline. The
repository holds two revisions of the client, and each is modelled as its own module:

- `varnish.py` (module `Varnish`). On connect, `VarnishHandler` reads the server's
  greeting with `_read`. When the greeting has status 107 and a secret was given, the
  handler answers the challenge with `auth` and a SHA-256 digest. `fetch` skips blank
  lines before the header. When the status is not 200 it fails with the status, the next
  line and the command. Otherwise it collects whole lines until `length` characters are
  held, then drains what is buffered. The verbs include `ban`, `ban.url` and `ban.list`.
  Module-level `run` expands leading tuple commands entry by entry. It calls the first
  other command with `commands[1:]` as its arguments and stops there.
  `VarnishManager.run` returns one result list per server.
- `varnish/__init__.py` (module `VarnishLegacy`). There is no greeting and no
  authentication. `fetch` parses the very first line it reads as the header and does not
  drain after the body. The verbs include `stats` and the `purge` family. `run` calls
  every non-tuple command with no arguments and never stops early. `VarnishManager`
  refuses an empty server list.

What the two revisions share is in module `Cli`. This covers:

- the Python values a batch is made of;
- the exceptions, as an `Error` datatype;
- the header parser and the two body loops, as the functions `BodyEnd` (lines) and
  `ChunkEnd` (packets);
- the command builders, and the `vcl.list` and `stats` table parsers;
- the expansion of tuple commands;
- the per-server loop `EachServer` of the manager.

`Text` models the Python string operations the client relies on: `split`, `strip`,
`rstrip`, `splitlines`, `lower`, `replace`, `int` and `str` of an integer.

`Telnet` models the connection:

- the peer is the text the server sends, together with the positions where its packets
  end;
- a `Wire` value is that peer, a read cursor, the text written so far and whether the
  connection is open;
- the `Channel` class keeps the same state in fields that its methods (`read_until`,
  `read_some`, `read_eager`, `write`, `close`) update in place.

Each operation that loops or mutates in the source is a method proved equal to a pure
function of the old state (`Exchange`, `Greeting`, `Call`, `Perform`, `RunBatch`,
`EachServer`, `Tabulate`). The telnet reads and writes are methods on `Channel`. `fetch`,
`_read`, `auth`, `purge` and the verb calls are methods on `Handler`. The manager's
`run`, `help` and `close` are methods on `Manager`. The module-level `run` is the method
`Run`. The loops inside handler methods that keep no state of their own are module-level
methods in `Cli`: the body loops `ReadBody` and `ReadBodyLine`, and the table loops
`ParseVcls` and `ParseStats`. The lemmas state what the source promises about the pure
functions.

## Model

| member | source | states |
|---|---|---|
| Varnish.Exchange | varnish.py:84 | `fetch` on an open connection appends exactly the command and one newline to what was sent; on a closed one it fails and writes nothing |
| Varnish.HeaderFromSkips | varnish.py:85-88 | lines that are blank once stripped are skipped before the header: the header found from the start of a blank run is the one found after it |
| Varnish.HeaderAt | varnish.py:85-88 | a non-blank line at the cursor is the header, stripped, and the cursor moves just past it |
| Varnish.ExchangeOk | varnish.py:89-96 | with a `200 length` header, the reply is `((200, length), content)` where content is the stream from the header's end to where the line loop stops, and the cursor ends past the drained buffer |
| Varnish.ExchangeRefused | varnish.py:91 | any other status fails with the status, the stripped next line and the command, and reads nothing past that line |
| Varnish.ExchangeFrame | varnish.py:84-96 | after any blank lines, a `200` frame whose body is empty or ends a line is returned exactly as sent, and the cursor ends past what was buffered with it |
| Varnish.ExchangeOpenFrame | varnish.py:92-93 | a body whose last line is open comes back one character longer than announced, carrying the frame's newline |
| Varnish.SecondReply | varnish.py:85-95 | after a reply whose body ends a line, the next `fetch` skips the frame's leftover newline as a blank line and reads the next reply whole, unlike the legacy client |
| Varnish.AfterFrame | varnish.py:85-88 | a reply that follows the previous frame's closing newline is read whole, whether `read_eager` drained that newline or not |
| Cli.ReadBody | varnish.py:92-93 | the line loop returns the stream text from the old cursor to where `BodyEnd` stops, or fails at the end of the data; sent text and open flag are unchanged |
| Cli.BodyEndFrame | varnish.py:92-93 | when a newline follows `need` body characters, the loop stops at that newline, or just past it when the body does not already end a line |
| Cli.BodyOfLines | varnish/__init__.py:23-24 | a body that is empty or ends a line is collected exactly, and the frame's closing newline stays unread |
| Cli.BodyOfOpenLine | varnish/__init__.py:23-24 | a body whose last line is open is collected together with the frame's closing newline |
| Varnish.Handler.Fetch | varnish.py:78-96 | the imperative `fetch` (write, blank-skipping header loop, body loop, `read_eager`) returns the result and leaves the connection in the state `Exchange` gives |
| Varnish.Handler.ReadHeader | varnish.py:85-88 | the header loop returns the first non-blank stripped line, or fails at the end of the data, and only moves the cursor |
| Varnish.Greeting | varnish.py:72-76 | `_read` only reads: it writes nothing and leaves the connection open or closed as it was |
| Varnish.GreetingOk | varnish.py:72-76 | `_read` parses the first line, collects packets until `length` characters are held, and returns them without their last character |
| Varnish.GreetingFrame | varnish.py:72-76 | when the packet that completes the greeting body also carries the frame's newline, `[:-1]` removes exactly that newline and the body is returned whole |
| Cli.ChunkEndAt | varnish.py:74-75 | the packet loop stops at the first packet end that holds the announced length |
| Varnish.Handler.Read | varnish.py:72-76 | the imperative `_read` gives the result and state of `Greeting` |
| Varnish.Handler.ReadPackets | varnish.py:74-75 | the `read_some` loop returns the stream text up to where `ChunkEnd` stops, or fails at the end of the data |
| Varnish.Challenge | varnish.py:112 | the challenge is the first 32 characters of the greeting body, or all of it when shorter |
| Varnish.AuthPreimageLines | varnish.py:113 | the digest input is three lines: the challenge, the secret, the challenge |
| Varnish.AuthCommandWords | varnish.py:114 | the server reads the auth command as the two words `auth` and the hex digest |
| Varnish.HandshakeWrites | varnish.py:66-70 | the constructor writes something only when the greeting status is 107 and a secret was given, and then writes exactly the `auth` command and a newline; its result is the greeting's, so any status other than 107 is only logged, and with 107 and a secret it fails exactly when the `auth` fetch fails, with that error |
| Varnish.HandshakeNoGreeting | varnish.py:66 | a greeting that cannot be read fails the constructor with the same error, and nothing is written |
| Varnish.Handler.Authenticate | varnish.py:111-115 | `auth` sends the command built from the challenge and secret, with the result and state of `Exchange` |
| Varnish.Handler.Greet | varnish.py:66-70 | the constructor's greeting-and-auth sequence gives the result and state of `Handshake` |
| Varnish.LookupName | varnish.py:292-294 | `getattr` finds every handler method under its own name, `fetch` and `_read` included |
| Varnish.LookupOnlyName | varnish.py:292-294 | a name `getattr` resolves is exactly that method's name |
| Varnish.FetchCall | varnish.py:78-96 | `fetch(command)` called from a batch writes the command as given and returns the whole `((status, length), content)` reply, or the error of `fetch` |
| Varnish.ReadCall | varnish.py:72-76 | `_read()` called from a batch writes nothing and returns the reply as the greeting is read, or its error |
| Varnish.PingCall | varnish.py:118-125 | `ping` sends `ping`, plus the timestamp only when it is truthy, and returns the reply's tokens after the first; called with no argument, as `run(addr, 'ping')` does, it sends the bare `ping` |
| Cli.PingTokensOfWords | varnish.py:125 | for a `PONG <time> <version>` body, the result is the tokens after `PONG` |
| Cli.OptionalWords | varnish.py:137-139 | `help` sends its argument as a second word exactly when the argument is truthy |
| Cli.Positional2Words | varnish.py:147 | `vcl.load`, `vcl.inline` and `param.set` send the verb and both arguments as three single-space-separated words |
| Cli.Positional1Words | varnish.py:170 | `vcl.use`, `vcl.discard`, `ban` and `ban.url` send the verb and the argument as two words |
| Cli.ParamShowWords | varnish.py:200-202 | `param.show` sends the `-l` flag exactly when `l` is truthy, followed by the parameter |
| Cli.TabulateOk | varnish.py:186-190 | the table is built exactly when every body line is a row; otherwise the first line that is not a row is reported |
| Cli.TabulateFirstBad | varnish.py:187-189 | the loop stops at the first line that is not a row, whatever follows |
| Cli.TabulateLastWins | varnish.py:187-189 | each key holds the value of the last line with that key, and no other key is present |
| Cli.VclRowOfFields | varnish.py:188-189 | a `vcl.list` line is keyed by its third field and holds every field but the last |
| Cli.VclRowShort | varnish.py:188-189 | a line with fewer than three fields makes `vcl_list` fail |
| Cli.ParseVcls | varnish.py:186-190 | the imperative `vcl_list` loop computes `Tabulate(VclRow, lines)` |
| Varnish.PlanStops | varnish.py:290-297 | `run` expands the leading tuple commands, calls the first other command with `commands[1:]`, and stops |
| Varnish.PlanExpandsAll | varnish.py:290-292 | a batch made only of tuple commands is expanded whole |
| Varnish.PlanBanUrl | runtests.py:30-33 | `run(addr, 'ban.url', regex)` makes the single call `ban_url(regex)` |
| Varnish.PlanPingTwice | runtests.py:35-37 | `run(addr, (('ping', None), ('ping', None)))` makes two `ping(None)` calls |
| Varnish.PerformAppend | varnish.py:290-296 | the results of a batch are those of its first part followed by those of the rest, run on the connection the first part leaves |
| Varnish.RunBatch | varnish.py:284-297 | a successful `run` returns one result per planned call |
| Varnish.Run | varnish.py:284-297 | the imperative `run` (connect, call each step, collect, close) returns `RunBatch` |
| Varnish.Handler.Invoke | varnish.py:98-256 | calling a verb gives the result and state of `Call` |
| Varnish.Handler.Carry | varnish.py:72-256 | the body of the method called, once its arguments are accepted, gives the result and state of `Effect`: `close` closes, `_read` reads a reply, every other verb runs `fetch` and shapes its reply |
| Varnish.Handler.RunStep | varnish.py:292-294 | one step of a batch, `getattr` then call, gives the result and state of `StepRun` |
| Cli.EachServerAligned | varnish.py:312-313 | the manager's list has one entry per server, in server order, each that server's batch result; on a failure, the error is that of the first failing server |
| Varnish.Manager.RunAll | varnish.py:305-313 | the imperative non-threaded `run` returns nothing without servers, and otherwise `EachServer` |
| Varnish.PlanHelp | varnish.py:315-316 | `run(server, 'help', *args)` makes exactly the one call `help(*args)` |
| Varnish.Manager.Help | varnish.py:315-316 | `help` returns the first result of `run` on the first server, run without a secret, and fails without servers |
| Varnish.Manager.Close | varnish.py:318-320 | `close` leaves the server list empty |
| Cli.HeaderRoundTrip | varnish.py:89 | a header line `<status> <length>` padded with spaces parses back to the two numbers, also once stripped |
| Cli.EndpointParts | varnish.py:63-65 | an address string is split on `:`; only `host` and `host:port` are accepted, and they join back into the address; a third part (the timeout) fails, since it reaches `socket.settimeout` as a string |
| VarnishLegacy.Exchange | varnish/__init__.py:20 | `fetch` appends exactly the command and one newline to what was sent |
| VarnishLegacy.ExchangeOk | varnish/__init__.py:21-25 | when the first line reads `200 length`, the content is the stream from that line's end to where the line loop stops, and nothing after it is read |
| VarnishLegacy.ExchangeRefused | varnish/__init__.py:22 | any other status fails with the status and the right-stripped next line, and no command |
| VarnishLegacy.ExchangeBlank | varnish/__init__.py:21 | a blank first line is not skipped: it is a bad header |
| VarnishLegacy.ExchangeFrame | varnish/__init__.py:23-25 | a body that is empty or ends a line is returned as sent, and reading stops in front of the frame's closing newline |
| VarnishLegacy.ExchangeOpenFrame | varnish/__init__.py:23-25 | a body whose last line is open comes back one character longer than announced, carrying the frame's newline |
| VarnishLegacy.LeftoverNewline | varnish/__init__.py:20-25 | after a reply whose body ends a line, the next `fetch` reads the leftover newline as its header and fails |
| VarnishLegacy.FirstFetchReadsBanner | varnish/__init__.py:8-21 | with no greeting read on connect, the first call's `fetch` parses the server's first line as its header |
| VarnishLegacy.Handler.Fetch | varnish/__init__.py:15-25 | the imperative `fetch` gives the result and state of `Exchange` |
| VarnishLegacy.LookupName | varnish/__init__.py:121-123 | `getattr` finds every handler method under its own name, `fetch` included |
| VarnishLegacy.LookupOnlyName | varnish/__init__.py:121-123 | a name `getattr` resolves is exactly that method's name |
| VarnishLegacy.FetchCall | varnish/__init__.py:15-25 | `fetch(command)` called from a batch writes the command as given and returns the whole reply, or the error of `fetch` |
| VarnishLegacy.PurgeSends | varnish/__init__.py:91-93 | a successful `purge` unpacked every argument and wrote one command per triple, in argument order |
| VarnishLegacy.PurgeTextEnds | varnish/__init__.py:93 | each purge command is `purge field operator arg`, ending in two newlines on the wire |
| VarnishLegacy.Handler.Purge | varnish/__init__.py:91-93 | the imperative `purge` loop gives the result and state of `PurgeRun` |
| Cli.StatRowOfFields | varnish/__init__.py:40-41 | a `stats` line `<value> <words...>` is keyed by its words joined with `_` and lower-cased, with the integer value |
| Cli.ParseStats | varnish/__init__.py:38-42 | the imperative `stats` loop computes `Tabulate(StatRow, lines)`: later duplicate keys overwrite, and a bad line fails |
| VarnishLegacy.StatsCall | varnish/__init__.py:37-42 | `stats` sends `stats` and returns the table of the reply body, or the error of either step |
| VarnishLegacy.Handler.Invoke | varnish/__init__.py:13-93 | calling a verb gives the result and state of `Call` |
| VarnishLegacy.PlanAppend | varnish/__init__.py:119-123 | nothing in `run` stops early: the calls of a batch are those of its parts, in order |
| VarnishLegacy.PlanNoArguments | varnish/__init__.py:120-123 | every call made with arguments comes from an entry of a tuple command; every other command is called with none |
| VarnishLegacy.PlanPingTwice | varnish/tests.py:21-23 | `run(addr, (('ping', None), ('ping', None)))` makes two `ping(None)` calls |
| VarnishLegacy.PerformAppend | varnish/__init__.py:119-124 | the results of a batch are those of its first part followed by those of the rest, run on the connection the first part leaves |
| VarnishLegacy.RunBatch | varnish/__init__.py:113-125 | a successful `run` returns one result per planned call |
| VarnishLegacy.Run | varnish/__init__.py:113-125 | the imperative `run` returns `RunBatch` |
| VarnishLegacy.Handler.RunStep | varnish/__init__.py:121-123 | one step of a batch gives the result and state of `StepRun` |
| VarnishLegacy.NewManager | varnish/__init__.py:128-130 | constructing a manager fails exactly when the server list is empty, and otherwise keeps the list |
| VarnishLegacy.Manager.RunAll | varnish/__init__.py:132-136 | the non-threaded `run` returns `EachServer`: one batch result per server, in order |
| VarnishLegacy.Manager.Close | varnish/__init__.py:140-142 | `close` leaves the server list empty |

## Left out

- Sockets. Opening the telnet connection, the timeout and the network are not modelled. A peer is given per address by the parameter `net`, and its data is fixed in advance.
- Threads. `ThreadedRunner`, the `threaded=True` branches of `VarnishManager.run` and the threaded close batches are concurrency and are not modelled. `close` keeps only its effect of emptying the server list.
- HTTP purges. `http_purge_url` and `purge_url` in `varnish.py` go through HTTP, not the admin port. Calling `purge_url` there yields the error `Unmodelled`.
- `logging` calls are not modelled.
- SHA-256 is the parameter `digest`. Only its input text and the `auth` command text are modelled.
- `ping`'s conversion of the tokens to `float` is not modelled. The result is the token sequence.
- Telnet processing on input is not modelled. `telnetlib`'s `process_rawq` drops NUL and `\021` characters and consumes IAC command sequences before the client sees the text; the model hands the peer's text over unchanged. Writes double IAC characters, as `telnetlib` does.
- `str()` of a tuple argument (its `repr`) is not modelled. Such an argument is a `BadArguments` error.
- In `varnish.py`, `_read` spins for ever on empty reads at the end of the stream. The model reports `EndOfStream` instead.
- `read_eager` may raise once the connection is closed by the peer. The model drains what is buffered and never raises.
- `getattr` of a name that is not a handler method is the error `UnknownCommand`. So is a name that reaches an inherited `Telnet` method (`read_all`, `write`, `expect`, ...); those methods are not modelled as calls.
- In `varnish/__init__.py`, `VarnishManager.help` calls `.help` on a server address string and always raises. It is not modelled.
- Addresses given as tuples rather than `host:port[:timeout]` strings are not modelled.
- `VarnishManager.run` builds its list eagerly, so the first server whose batch raises aborts the whole call. The model reports that error and drops the results of earlier servers, as the source does.
- Calls after `close` on the same handler fail with `ConnectionClosed`. The model does not track any other post-close state. `_read` writes nothing, so after `close` the model lets it read on from the peer's data; `telnetlib` would hand out only what it had buffered and then raise `EOFError`.
