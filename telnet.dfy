/**
 * The part of Python's `telnetlib.Telnet` the admin-port client uses: `read_until('\n')`,
 * `read_some()`, `read_eager()`, `write(...)` and `close()`, over a deterministic peer.
 *
 * The peer is described by everything it sends (`data`) and by where its packets end
 * (`cuts`); `data` running out means the peer has closed the connection. Lemmas that
 * quantify over `cuts` therefore hold however the replies are chunked on the network.
 */
module Telnet {
  import opened Wrappers

  /** The telnet "interpret as command" byte, which `write` doubles. */
  const IAC: char := '\U{FF}'

  /** The server end of a connection: its bytes, and the positions at which its packets end. */
  datatype Peer = Peer(data: string, cuts: set<nat>)

  /**
   * A connection as the client sees it: the peer's bytes and packet ends, how far the
   * client has consumed them (`pos`), the bytes it has put on the socket, and whether it
   * has closed its end.
   */
  datatype Wire = Wire(peer: Peer, pos: nat, sent: string, open: bool) {
    predicate Valid() { pos <= |peer.data| }

    /** Nothing of the current packet is left in telnetlib's buffer. */
    predicate AtBoundary() { pos == 0 || pos in peer.cuts || pos == |peer.data| }
  }

  function Connect(peer: Peer): Wire {
    Wire(peer, 0, [], true)
  }

  /** The position just past the first newline at or after `p`, or the end of the data. */
  function LineEnd(data: string, p: nat): (e: nat)
    requires p <= |data|
    ensures p <= e <= |data| && (p < |data| ==> p < e)
    ensures e == |data| || data[e - 1] == '\n'
    decreases |data| - p
  {
    if p == |data| then p
    else if data[p] == '\n' then p + 1
    else LineEnd(data, p + 1)
  }

  /** The line from `p` ends no later than just past any newline at or after `p`. */
  lemma {:induction false} LineEndFirst(data: string, p: nat, k: nat)
    requires p <= k < |data| && data[k] == '\n'
    ensures LineEnd(data, p) <= k + 1
    decreases k - p
  {
    if data[p] != '\n' {
      LineEndFirst(data, p + 1, k);
    }
  }

  /** Characters other than newlines do not end a line. */
  lemma {:induction false} LineEndSkip(data: string, p: nat, k: nat)
    requires p <= k <= |data| && forall j :: p <= j < k ==> data[j] != '\n'
    ensures LineEnd(data, p) == LineEnd(data, k)
    decreases k - p
  {
    if p < k {
      LineEndSkip(data, p + 1, k);
    }
  }

  /** `s` is one line as `read_until('\n')` returns it: its only newline is its last character. */
  predicate OneLine(s: string) {
    |s| > 0 && s[|s| - 1] == '\n' && forall k :: 0 <= k < |s| - 1 ==> s[k] != '\n'
  }

  /** The end of the first packet that ends after `p`. */
  function NextCut(data: string, cuts: set<nat>, p: nat): (c: nat)
    requires p < |data|
    ensures p < c <= |data| && (c == |data| || c in cuts)
    ensures forall k :: p < k < c ==> k !in cuts
    decreases |data| - p
  {
    if p + 1 == |data| || p + 1 in cuts then p + 1 else NextCut(data, cuts, p + 1)
  }

  /** The end of what the client has already received: the current packet, if it is not used up. */
  function Received(w: Wire): nat
    requires w.Valid()
  {
    if w.AtBoundary() then w.pos else NextCut(w.peer.data, w.peer.cuts, w.pos)
  }

  /**
   * `read_until('\n')`: the bytes up to and including the next newline, or the rest of the
   * data when there is none; `None` is the `EOFError` raised when nothing is left.
   */
  function LineRead(w: Wire): (Option<string>, Wire)
    requires w.Valid()
  {
    if w.pos == |w.peer.data| then (None, w)
    else
      var e := LineEnd(w.peer.data, w.pos);
      (Some(w.peer.data[w.pos..e]), w.(pos := e))
  }

  /**
   * `read_some()`: whatever is buffered, or else the next packet; the empty string once the
   * peer has closed the connection.
   */
  function SomeRead(w: Wire): (string, Wire)
    requires w.Valid()
  {
    if w.pos == |w.peer.data| then ([], w)
    else
      var c := NextCut(w.peer.data, w.peer.cuts, w.pos);
      (w.peer.data[w.pos..c], w.(pos := c))
  }

  /**
   * `read_eager()`: whatever is buffered, without waiting for a packet that has not arrived.
   */
  function EagerRead(w: Wire): (string, Wire)
    requires w.Valid()
  {
    var e := Received(w);
    (w.peer.data[w.pos..e], w.(pos := e))
  }

  /** The bytes `write(s)` puts on the socket: every IAC doubled. */
  function Escape(s: string): string {
    if s == [] then []
    else (if s[0] == IAC then [IAC, IAC] else [s[0]]) + Escape(s[1..])
  }

  /** What the peer's telnet layer makes of the bytes: a doubled IAC stands for one. */
  function Unescape(s: string): string {
    if s == [] then []
    else if s[0] == IAC && |s| > 1 && s[1] == IAC then [IAC] + Unescape(s[2..])
    else [s[0]] + Unescape(s[1..])
  }

  /** `write(s)` on an open connection appends the escaped bytes; on a closed one it fails. */
  function Written(w: Wire, s: string): (bool, Wire) {
    if w.open then (true, w.(sent := w.sent + Escape(s))) else (false, w)
  }

  function Closed(w: Wire): Wire {
    w.(open := false)
  }

  /** The peer reads back exactly what was written. */
  lemma {:induction false} UnescapeEscape(s: string)
    ensures Unescape(Escape(s)) == s
  {
    if s != [] {
      UnescapeEscape(s[1..]);
      var e := Escape(s);
      if s[0] == IAC {
        assert e == [IAC, IAC] + Escape(s[1..]);
        assert e[2..] == Escape(s[1..]);
      } else {
        assert e == [s[0]] + Escape(s[1..]);
        assert e[1..] == Escape(s[1..]);
      }
      assert s == [s[0]] + s[1..];
    }
  }

  /** Two writes put the same bytes on the socket as one write of both texts. */
  lemma {:induction false} EscapeAppend(a: string, b: string)
    ensures Escape(a + b) == Escape(a) + Escape(b)
  {
    if a != [] {
      assert (a + b)[1..] == a[1..] + b;
      EscapeAppend(a[1..], b);
    } else {
      assert a + b == b;
    }
  }

  /** Text without an IAC goes on the socket unchanged. */
  lemma {:induction false} EscapePlain(s: string)
    requires IAC !in s
    ensures Escape(s) == s
  {
    if s != [] {
      assert IAC !in s[1..] by {
        forall k | 0 <= k < |s[1..]| ensures s[1..][k] != IAC { assert s[1..][k] == s[k + 1]; }
      }
      EscapePlain(s[1..]);
      assert s == [s[0]] + s[1..];
    }
  }

  /** The client end of a telnet connection, as the handler object holds it. */
  class Channel {
    const data: string
    const cuts: set<nat>
    var pos: nat
    var sent: string
    var open: bool

    function State(): Wire
      reads this
    {
      Wire(Peer(data, cuts), pos, sent, open)
    }

    constructor (peer: Peer)
      ensures State() == Connect(peer)
    {
      data := peer.data;
      cuts := peer.cuts;
      pos := 0;
      sent := [];
      open := true;
    }

    method ReadUntilNewline() returns (line: Option<string>)
      requires State().Valid()
      modifies this
      ensures (line, State()) == LineRead(old(State()))
      ensures old(pos) < |data| ==> pos == LineEnd(data, old(pos)) && line == Some(data[old(pos)..pos])
      ensures old(pos) == |data| ==> line == None && pos == old(pos)
    {
      if pos == |data| {
        return None;
      }
      var e := pos;
      while e < |data| && data[e] != '\n'
        invariant pos <= e <= |data|
        invariant LineEnd(data, e) == LineEnd(data, pos)
        decreases |data| - e
      {
        e := e + 1;
      }
      if e < |data| {
        e := e + 1;
      }
      line := Some(data[pos..e]);
      pos := e;
    }

    method ReadSome() returns (chunk: string)
      requires State().Valid()
      modifies this
      ensures (chunk, State()) == SomeRead(old(State()))
      ensures old(pos) < |data| ==> pos == NextCut(data, cuts, old(pos)) && chunk == data[old(pos)..pos]
      ensures old(pos) == |data| ==> chunk == [] && pos == old(pos)
    {
      if pos == |data| {
        return [];
      }
      var c := pos + 1;
      while c < |data| && c !in cuts
        invariant pos < c <= |data|
        invariant forall k :: pos < k < c ==> k !in cuts
        decreases |data| - c
      {
        c := c + 1;
      }
      chunk := data[pos..c];
      pos := c;
    }

    method ReadEager() returns (chunk: string)
      requires State().Valid()
      modifies this
      ensures (chunk, State()) == EagerRead(old(State()))
    {
      if pos == 0 || pos in cuts || pos == |data| {
        assert State().AtBoundary();
        assert Received(old(State())) == pos;
        assert EagerRead(old(State())).1 == State();
        return [];
      }
      chunk := ReadSome();
    }

    method Write(s: string) returns (ok: bool)
      modifies this
      ensures (ok, State()) == Written(old(State()), s)
    {
      if !open {
        return false;
      }
      var out := [];
      var i := 0;
      while i < |s|
        invariant 0 <= i <= |s|
        invariant Escape(s[..i]) == out
        invariant unchanged(this)
      {
        EscapeAppend(s[..i], [s[i]]);
        assert s[..i + 1] == s[..i] + [s[i]];
        assert [s[i]][1..] == [];
        out := out + (if s[i] == IAC then [IAC, IAC] else [s[i]]);
        i := i + 1;
      }
      assert s[..i] == s;
      sent := sent + out;
      ok := true;
    }

    method Close()
      modifies this
      ensures State() == Closed(old(State()))
    {
      open := false;
    }
  }
}
