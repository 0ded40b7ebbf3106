/**
 The mbedTLS ciphertext buffer (AsyncSecureSession.cpp) and the receive hook that drives
 it (AsyncSecureClient.cpp): a compacting, growing, capped buffer and a held pbuf chain
 that together are one byte queue.
 */
module CipherBuffer {
  import opened Common
  import opened PbufChain

  const SSL_RX_BUF_SIZE: nat := 4096
  const SSL_RX_BUF_MAX: nat := 8192

  /** The bytes of a chain, in wire order. */
  function Data(chain: seq<Counted<Segment>>): Bytes
  {
    Flatten(Payloads(Plain(chain)))
  }

  function PbufIds(chain: seq<Counted<Segment>>): (r: seq<nat>)
    ensures |r| == |chain|
  {
    Ids(Plain(chain))
  }

  /** Some pbuf of the chain has a reference besides the one to the chain. */
  ghost predicate Shared(chain: seq<Counted<Segment>>)
  {
    chain != [] && (chain[0].refs > 1 || Shared(chain[1..]))
  }

  /** Identity `x` entered as often as it was freed, was stranded or is held. */
  ghost predicate PlacedAt(entered: seq<nat>, freed: seq<nat>, stranded: seq<nat>, held: seq<nat>, x: nat)
  {
    Count(entered, x) == Count(freed, x) + Count(stranded, x) + Count(held, x)
  }

  ghost predicate Placed(entered: seq<nat>, freed: seq<nat>, stranded: seq<nat>, held: seq<nat>)
  {
    forall x :: PlacedAt(entered, freed, stranded, held, x)
  }

  class AsyncSecureSession {
    var rxBuf: array?<byte>       // _ssl_rx_buf; its Length is _ssl_rx_buf_capacity
    var rxLen: nat                // _ssl_rx_buf_len
    var rxPos: nat                // _ssl_rx_pos
    var pending: seq<Counted<Segment>>  // _pending_pbufs, pbuf by pbuf
    var freed: seq<nat>           // pbufs given back to the pool
    ghost var stranded: seq<nat>  // pbufs let go of with a reference left that nobody holds
    ghost var entered: seq<nat>   // every pbuf ever fed in
    ghost var shared: bool        // a chain was appended behind held pbufs, or came in shared
    ghost var received: Bytes     // every ciphertext byte ever fed in
    ghost var consumed: Bytes     // every byte mbedTLS has read
    ghost var moved: nat          // bytes moved from the chain into the buffer

    ghost predicate Valid()
      reads this, rxBuf
    {
      Stream() && Pbufs()
    }

    /** Read, unread and held bytes are all the bytes received, in wire order; capacity stays within the cap. */
    ghost predicate Stream()
      reads this, rxBuf
    {
      && (rxBuf == null ==> rxLen == rxPos == 0 && consumed == [])
      && (rxBuf != null ==> rxPos <= rxLen <= rxBuf.Length <= SSL_RX_BUF_MAX)
      && (rxBuf != null ==> consumed + Unread() + Data(pending) == received)
      && (rxBuf != null ==> moved == |consumed| + |Unread()|)
    }

    /**
     Every pbuf fed in is freed, stranded or held, once; and one is stranded, or will be,
     exactly if a chain ever arrived behind held pbufs (or came in with such a reference).
     */
    ghost predicate Pbufs()
      reads `pending, `freed, `stranded, `entered, `shared
    {
      && Placed(entered, freed, stranded, PbufIds(pending))
      && (shared <==> stranded != [] || Shared(pending))
    }

    /** The bytes waiting in the buffer. */
    ghost function Unread(): Bytes
      requires rxBuf != null ==> rxPos <= rxLen <= rxBuf.Length
      reads this, rxBuf
    {
      if rxBuf == null then [] else rxBuf[rxPos..rxLen]
    }

    /** The constructor's malloc may fail, leaving a null buffer. */
    constructor (bufferOk: bool)
      ensures Valid() && (rxBuf != null ==> fresh(rxBuf))
      ensures (rxBuf != null) == bufferOk
      ensures received == consumed == [] && pending == [] && moved == 0
      ensures freed == stranded == entered == [] && !shared
    {
      if bufferOk {
        rxBuf := new byte[SSL_RX_BUF_SIZE];
      } else {
        rxBuf := null;
      }
      rxLen, rxPos, pending := 0, 0, [];
      freed, stranded, entered, shared := [], [], [], false;
      received, consumed, moved := [], [], 0;
    }

    /** Moves the unread bytes to the front of the buffer, as memmove does. */
    method Compact()
      requires rxBuf != null && rxPos <= rxLen <= rxBuf.Length
      modifies this`rxLen, this`rxPos, rxBuf
      ensures rxPos == 0 && rxLen == old(rxLen) - old(rxPos)
      ensures Unread() == old(Unread())
    {
      var buf: array<byte>, pos, remaining := rxBuf, rxPos, rxLen - rxPos;
      ghost var before := buf[..];
      var i := 0;
      while i < remaining
        invariant 0 <= i <= remaining
        invariant forall k :: 0 <= k < i ==> buf[k] == before[pos + k]
        invariant forall k :: i <= k < buf.Length ==> buf[k] == before[k]
        modifies buf
      {
        buf[i] := buf[pos + i];
        i := i + 1;
      }
      assert buf[..remaining] == before[pos..pos + remaining];
      rxLen, rxPos := remaining, 0;
      assert buf[0..remaining] == buf[..remaining];
    }

    /** `realloc` to a larger block: the filled part is kept. */
    method Grow(need: nat)
      requires rxBuf != null && rxPos <= rxLen <= rxBuf.Length < need
      modifies this`rxBuf
      ensures rxBuf != null && fresh(rxBuf) && rxBuf.Length == need
      ensures Unread() == old(Unread())
    {
      var buf: array<byte> := rxBuf;
      var newbuf := new byte[need];
      var i := 0;
      while i < rxLen
        invariant 0 <= i <= rxLen
        invariant forall k :: 0 <= k < i ==> newbuf[k] == buf[k]
        modifies newbuf
      {
        newbuf[i] := buf[i];
        i := i + 1;
      }
      rxBuf := newbuf;
    }

    /** `memcpy` of a chunk behind the filled part. */
    method Append(data: Bytes)
      requires rxBuf != null && rxPos <= rxLen && rxLen + |data| <= rxBuf.Length
      modifies this`rxLen, rxBuf
      ensures rxLen == old(rxLen) + |data|
      ensures Unread() == old(Unread()) + data
    {
      var buf: array<byte>, len := rxBuf, rxLen;
      ghost var before := buf[..];
      var i := 0;
      while i < |data|
        invariant 0 <= i <= |data|
        invariant forall k :: 0 <= k < len ==> buf[k] == before[k]
        invariant forall k :: 0 <= k < i ==> buf[len + k] == data[k]
        modifies buf
      {
        buf[len + i] := data[i];
        i := i + 1;
      }
      assert buf[rxPos..len] == before[rxPos..len] && buf[len..len + |data|] == data;
      JoinSlices(buf[..], rxPos, len, len + |data|);
      rxLen := len + |data|;
    }

    /**
     `feedRxData`.  With a buffer, an accepted chunk lands behind the unread bytes and a
     refused one changes nothing a reader can see.  If realloc succeeds, a chunk is refused
     exactly when unread + len exceeds the cap.  Without a buffer everything is accepted and
     dropped.
     */
    method FeedRxData(data: Bytes, reallocOk: bool) returns (ok: bool)
      requires rxBuf == null ==> rxLen == rxPos == 0
      requires rxBuf != null ==> rxPos <= rxLen <= rxBuf.Length <= SSL_RX_BUF_MAX
      modifies this`rxLen, this`rxPos, this`rxBuf, rxBuf
      ensures rxBuf == null <==> old(rxBuf) == null
      ensures rxBuf == old(rxBuf) || fresh(rxBuf)
      ensures rxBuf == null ==> ok && rxLen == rxPos == 0
      ensures rxBuf != null ==> rxPos <= rxLen <= rxBuf.Length <= SSL_RX_BUF_MAX
      ensures rxBuf != null ==> Unread() == if ok then old(Unread()) + data else old(Unread())
      ensures rxBuf != null && reallocOk ==> (!ok <==> |old(Unread())| + |data| > SSL_RX_BUF_MAX)
      ensures rxBuf != null && |old(Unread())| + |data| <= old(rxBuf.Length) ==> ok
    {
      if rxBuf == null || |data| == 0 {
        assert rxBuf != null ==> Unread() == old(Unread()) + data;
        return true;
      }
      // Only compact when there is not enough room at the tail.
      var freeAtTail := rxBuf.Length - rxLen;
      if |data| > freeAtTail && rxPos > 0 {
        Compact();
        freeAtTail := rxBuf.Length - rxLen;
      }
      // Hard cap: the caller must hold the pbuf.
      if rxLen + |data| > SSL_RX_BUF_MAX {
        return false;
      }
      // Grow, up to the cap.
      if |data| > freeAtTail {
        if !reallocOk {
          return false;
        }
        Grow(rxLen + |data|);
      }
      Append(data);
      ok := true;
    }

    /** `pbuf_free` of a detached pbuf: it goes back only if nothing else refers to it. */
    method FreeDetached(c: Counted<Segment>)
      modifies `freed, `stranded
      ensures freed == old(freed) + (if c.refs <= 1 then [c.pb.id] else [])
      ensures stranded == old(stranded) + (if c.refs <= 1 then [] else [c.pb.id])
    {
      var n := Walk([c]);
      if n == 1 {
        freed := freed + [c.pb.id];
      } else {
        stranded := stranded + [c.pb.id];
      }
    }

    /** Detaching the head of the held chain, whatever became of its bytes. */
    method DetachHead()
      requires Pbufs() && pending != []
      modifies `pending, `freed, `stranded
      ensures Pbufs() && pending == old(pending)[1..]
      ensures freed == old(freed) + (if old(pending)[0].refs <= 1 then [old(pending)[0].pb.id] else [])
      ensures stranded == old(stranded) + (if old(pending)[0].refs <= 1 then [] else [old(pending)[0].pb.id])
    {
      ghost var c, rest := pending[0], PbufIds(pending[1..]);
      ghost var f, l := if c.refs <= 1 then [c.pb.id] else [], if c.refs <= 1 then [] else [c.pb.id];
      assert PbufIds(pending) == f + l + rest;
      LetGoPlaced(entered, freed, stranded, PbufIds(pending), f, l, rest);
      FreeDetached(pending[0]);
      pending := pending[1..];
    }

    /** The head pbuf's bytes move into the buffer and it is let go of, or everything stays. */
    method MoveHead(reallocOk: bool) returns (ok: bool)
      requires Valid() && pending != []
      modifies `rxLen, `rxPos, `rxBuf, `moved, `pending, `freed, `stranded, rxBuf
      ensures Valid()
      ensures rxBuf == null <==> old(rxBuf) == null
      ensures rxBuf == old(rxBuf) || fresh(rxBuf)
      ensures rxBuf == null ==> ok
      ensures pending == if ok then old(pending)[1..] else old(pending)
      ensures freed == old(freed) + if ok && old(pending)[0].refs <= 1 then [old(pending)[0].pb.id] else []
      ensures stranded == old(stranded) + if ok && old(pending)[0].refs > 1 then [old(pending)[0].pb.id] else []
      ensures moved == old(moved) + if ok then |old(pending)[0].pb.payload| else 0
      ensures rxBuf != null && reallocOk && !ok ==> |Unread()| + |pending[0].pb.payload| > SSL_RX_BUF_MAX
    {
      ok := MoveBytes(reallocOk);
      if ok {
        DetachHead();
      }
    }

    /** The bytes of the head pbuf go into the buffer, if they fit. */
    method MoveBytes(reallocOk: bool) returns (ok: bool)
      requires Stream() && pending != []
      modifies `rxLen, `rxPos, `rxBuf, `moved, rxBuf
      ensures rxBuf == null <==> old(rxBuf) == null
      ensures rxBuf == old(rxBuf) || fresh(rxBuf)
      ensures rxBuf == null ==> ok && rxLen == rxPos == 0
      ensures rxBuf != null ==> rxPos <= rxLen <= rxBuf.Length <= SSL_RX_BUF_MAX
      ensures rxBuf != null ==> consumed + Unread() + Data(if ok then pending[1..] else pending) == received
      ensures rxBuf != null ==> moved == |consumed| + |Unread()|
      ensures moved == old(moved) + if ok then |pending[0].pb.payload| else 0
      ensures rxBuf != null && reallocOk && !ok ==> |Unread()| + |pending[0].pb.payload| > SSL_RX_BUF_MAX
    {
      var b := pending[0].pb.payload;
      ghost var unread := Unread();
      DataHead(pending);
      ok := FeedRxData(b, reallocOk);
      if ok {
        Reassociate(consumed, unread, b, Data(pending[1..]));
        moved := moved + |b|;
      }
    }

    /** A fresh chain, if any, goes behind the held pbufs; pbuf_chain then refers to its head once more. */
    method Enqueue(chain: seq<Counted<Segment>>)
      requires Valid()
      modifies `pending, `received, `entered, `shared
      ensures Valid()
      ensures pending == Chain(old(pending), chain)
      ensures received == old(received) + Data(chain) && entered == old(entered) + PbufIds(chain)
      ensures shared <==> old(shared) || Shared(chain) || (old(pending) != [] && chain != [])
    {
      ghost var next, read, data := Chain(pending, chain), if rxBuf == null then [] else consumed + Unread(), Data(chain);
      DataChain(pending, chain);
      if rxBuf != null {
        StreamGrows(read, Data(pending), data, received);
      }
      ChainPlaced(entered, freed, stranded, pending, chain);
      SharedChain(pending, chain);
      shared := shared || Shared(chain) || (pending != [] && chain != []);
      pending, received, entered := Chain(pending, chain), received + data, entered + PbufIds(chain);
      assert rxBuf != null ==> consumed + Unread() == read && Data(pending) == Data(next);
    }

    /**
     `feedRx`: a fresh chain (or nothing) goes behind the held one, then the chain drains
     into the buffer from its head.  Wire order and every byte are kept (Valid); the result
     is the number of bytes moved; the first `n` pbufs are let go of, freed if nothing else
     referred to them; what is still held is the rest, and if reallocation works it starts
     with a pbuf that would have burst the cap.
     */
    method FeedRx(chain: seq<Counted<Segment>>, reallocOk: nat -> bool) returns (totalRecved: nat, ghost n: nat)
      requires Valid()
      modifies this, rxBuf
      ensures Valid()
      ensures rxBuf == null <==> old(rxBuf) == null
      ensures rxBuf == old(rxBuf) || fresh(rxBuf)
      ensures consumed == old(consumed)
      ensures received == old(received) + Data(chain) && entered == old(entered) + PbufIds(chain)
      ensures shared <==> old(shared) || Shared(chain) || (old(pending) != [] && chain != [])
      ensures moved == old(moved) + totalRecved
      ensures Progress(Chain(old(pending), chain), n, totalRecved, old(freed), old(stranded))
      ensures rxBuf == null ==> pending == []
      ensures pending != [] && (forall i :: reallocOk(i))
        ==> |Unread()| + |pending[0].pb.payload| > SSL_RX_BUF_MAX
    {
      Enqueue(chain);
      totalRecved, n := DrainHeld(reallocOk);
    }

    /** The loop of `feedRx`: the held chain drains into the buffer from its head. */
    method DrainHeld(reallocOk: nat -> bool) returns (totalRecved: nat, ghost n: nat)
      requires Valid()
      modifies `rxLen, `rxPos, `rxBuf, `moved, `pending, `freed, `stranded, rxBuf
      ensures Valid()
      ensures rxBuf == null <==> old(rxBuf) == null
      ensures rxBuf == old(rxBuf) || fresh(rxBuf)
      ensures moved == old(moved) + totalRecved
      ensures Progress(old(pending), n, totalRecved, old(freed), old(stranded))
      ensures rxBuf == null ==> pending == []
      ensures pending != [] && (forall i :: reallocOk(i))
        ==> |Unread()| + |pending[0].pb.payload| > SSL_RX_BUF_MAX
    {
      ghost var all, freed0, stranded0 := pending, freed, stranded;
      totalRecved, n := 0, 0;
      var turn := 0;
      NothingMoved(all);
      while |pending| > 0
        invariant Valid()
        invariant rxBuf == null <==> old(rxBuf) == null
        invariant rxBuf == old(rxBuf) || fresh(rxBuf)
        invariant moved == old(moved) + totalRecved
        invariant Progress(all, n, totalRecved, freed0, stranded0)
        decreases |pending|
      {
        var len := |pending[0].pb.payload|;
        var ok := MoveOne(reallocOk(turn), all, n, totalRecved, freed0, stranded0);
        if !ok {
          return;  // BIO buffer full: hold the rest
        }
        totalRecved, n, turn := totalRecved + len, n + 1, turn + 1;
      }
    }

    /** One turn of the loop. */
    method MoveOne(reallocOk: bool, ghost all: seq<Counted<Segment>>, ghost n: nat, ghost total: nat,
                   ghost freed0: seq<nat>, ghost stranded0: seq<nat>) returns (ok: bool)
      requires Valid() && pending != [] && Progress(all, n, total, freed0, stranded0)
      modifies `rxLen, `rxPos, `rxBuf, `moved, `pending, `freed, `stranded, rxBuf
      ensures Valid()
      ensures rxBuf == null <==> old(rxBuf) == null
      ensures rxBuf == old(rxBuf) || fresh(rxBuf)
      ensures rxBuf == null ==> ok
      ensures ok ==> Progress(all, n + 1, total + |old(pending)[0].pb.payload|, freed0, stranded0)
      ensures ok ==> pending == old(pending)[1..] && moved == old(moved) + |old(pending)[0].pb.payload|
      ensures !ok ==> pending == old(pending) && Progress(all, n, total, freed0, stranded0) && moved == old(moved)
      ensures rxBuf != null && reallocOk && !ok ==> |Unread()| + |pending[0].pb.payload| > SSL_RX_BUF_MAX
    {
      OneMoved(all, n, freed0, stranded0);
      ok := MoveHead(reallocOk);
    }

    /** The first `n` pbufs of `all` have been moved and let go of, each freed if nothing else referred to it. */
    ghost predicate Progress(all: seq<Counted<Segment>>, n: nat, total: nat, freed0: seq<nat>, stranded0: seq<nat>)
      reads `pending, `freed, `stranded
    {
      && n <= |all| && pending == all[n..] && total == |Data(all[..n])|
      && freed == freed0 + PbufIds(Filter(all[..n], Single()))
      && stranded == stranded0 + PbufIds(Filter(all[..n], NotSingle()))
    }

    /** The destructor's pbuf_free of the held chain, which stops at the first shared pbuf. */
    method FreeHeld()
      requires Pbufs()
      modifies `pending, `freed, `stranded
      ensures Pbufs() && pending == []
      ensures freed == old(freed) + PbufIds(old(pending)[..Released(old(pending))])
      ensures stranded == old(stranded) + PbufIds(old(pending)[Released(old(pending))..])
      ensures stranded == [] <==> !shared
    {
      var n := Walk(pending);
      assert PbufIds(pending) == PbufIds(pending[..n]) + PbufIds(pending[n..]) + [];
      LetGoPlaced(entered, freed, stranded, PbufIds(pending), PbufIds(pending[..n]), PbufIds(pending[n..]), []);
      SharedReleases(pending);
      freed := freed + PbufIds(pending[..n]);
      stranded := stranded + PbufIds(pending[n..]);
      pending := [];
    }

    /** `read`, the BIO callback: a prefix of the unread bytes, as many as fit. */
    method Read(len: nat) returns (data: Bytes)
      requires Stream()
      modifies this`rxLen, this`rxPos, this`consumed
      ensures Stream()
      ensures data == old(Unread())[..if |old(Unread())| < len then |old(Unread())| else len]
      ensures Unread() == old(Unread())[|data|..]
      ensures consumed == old(consumed) + data
    {
      if rxBuf == null || rxPos >= rxLen {
        assert Unread() == [];
        return [];
      }
      var avail := rxLen - rxPos;
      var copy := if avail < len then avail else len;
      ghost var unread := Unread();
      data := rxBuf[rxPos..rxPos + copy];
      assert data == unread[..copy];
      assert unread == unread[..copy] + unread[copy..];
      rxPos := rxPos + copy;
      if rxPos >= rxLen {
        rxLen, rxPos := 0, 0;
      }
      assert Unread() == unread[copy..];
      Regroup(consumed, data, unread[copy..], Data(pending));
      consumed := consumed + data;
    }

    /** The BIO reads of one TLS library call, one after the other: together they take what fits. */
    method PullAll(lens: seq<nat>) returns (ghost taken: Bytes)
      requires Stream()
      modifies this`rxLen, this`rxPos, this`consumed
      ensures Stream() && consumed == old(consumed) + taken
      ensures |taken| == Least(|old(Unread())|, Sum(lens)) && |Unread()| == |old(Unread())| - |taken|
      decreases |lens|
    {
      ghost var before := consumed;
      if lens == [] {
        taken := [];
        Joined(before, [], []);
      } else {
        var data := Read(lens[0]);
        ghost var rest := PullAll(lens[1..]);
        taken := data + rest;
        Joined(before, data, rest);
      }
    }
  }

  function Least(a: nat, b: nat): nat
  {
    if a < b then a else b
  }

  /** One mbedTLS call: the BIO reads it makes, its result, and whether the connection goes away after it. */
  datatype TlsCall = TlsCall(bioReads: seq<nat>, result: int, thenGone: bool)

  /** What the environment does during one onRecv. */
  datatype Weather = Weather(
    goneAfterFeed: bool,
    handshake: TlsCall,
    firstDrain: seq<TlsCall>,
    goneAfterRefeed: bool,
    secondDrain: seq<TlsCall>)

  /** How much ciphertext calls `i` to `j` ask for. */
  function Asked(calls: seq<TlsCall>, i: nat, j: nat): nat
    requires i <= j <= |calls|
    decreases j - i
  {
    if i == j then 0 else Sum(calls[i].bioReads) + Asked(calls, i + 1, j)
  }

  /** The plaintext sizes calls `i` to `j` hand to the application. */
  function Plaintexts(calls: seq<TlsCall>, i: nat, j: nat): seq<int>
    requires i <= j <= |calls|
    decreases j - i
  {
    if i == j then [] else (if calls[i].result > 0 then [calls[i].result] else []) + Plaintexts(calls, i + 1, j)
  }

  /**
   A drain that begins with the connection live or not makes the first `ran` of the calls it
   could make: all but the last of them give plaintext to a connection that stays, and the
   last gives none, or to a connection that goes, or there are no more.
   */
  ghost predicate DrainRan(calls: seq<TlsCall>, live: bool, ran: nat, n: int, liveAfter: bool)
  {
    && ran <= |calls|
    && (ran > 1 ==> live && AllPlain(calls, ran - 1))
    && (ran == 0 ==> calls == [] && n == 0 && liveAfter == live)
    && (ran > 0 ==>
          var last := calls[ran - 1];
          if last.result <= 0 then n == last.result && liveAfter == live
          else if !live || last.thenGone then n == last.result && !liveAfter
          else ran == |calls| && n == 0 && liveAfter)
  }

  /** What the application and the buffer can tell of a drain: sizes shown, bytes waiting, bytes read in all. */
  datatype Tally = Tally(shown: seq<int>, waiting: nat, read: nat)

  /** One call reads what it asks for, as far as it is there, and shows its plaintext, if any. */
  function AfterCall(t: Tally, call: TlsCall): Tally
  {
    var taken := Least(t.waiting, Sum(call.bioReads));
    Tally(if call.result > 0 then t.shown + [call.result] else t.shown, t.waiting - taken, t.read + taken)
  }

  /** The tally after calls `i` to `j`. */
  function Later(t: Tally, calls: seq<TlsCall>, i: nat, j: nat): Tally
    requires i <= j <= |calls|
    decreases j - i
  {
    if i == j then t else Later(AfterCall(t, calls[i]), calls, i + 1, j)
  }

  /** The drain from call `i` on, taking tally `t` to `u`. */
  ghost predicate Drained(calls: seq<TlsCall>, live: bool, i: nat, ran: nat, n: int, liveAfter: bool, t: Tally, u: Tally)
  {
    i <= ran && DrainRan(calls, live, ran, n, liveAfter) && u == Later(t, calls, i, ran)
  }

  /** Before call `i` every call gave plaintext to a connection that stays. */
  ghost predicate GoneOn(calls: seq<TlsCall>, live: bool, i: nat, now: bool)
  {
    i <= |calls| && now == live && (i > 0 ==> live && AllPlain(calls, i))
  }

  /** A turn of the loop ends the drain, or gives one more plaintext to a connection that stays. */
  lemma DrainTurn(calls: seq<TlsCall>, live: bool, i: nat, now: bool, t: Tally)
    requires i < |calls| && GoneOn(calls, live, i, live)
    requires now == (live && !(calls[i].result > 0 && calls[i].thenGone))
    ensures if calls[i].result > 0 && now then GoneOn(calls, live, i + 1, now)
            else Drained(calls, live, i, i + 1, calls[i].result, now, t, AfterCall(t, calls[i]))
  {
  }

  lemma DrainGoesOn(calls: seq<TlsCall>, live: bool, i: nat, ran: nat, n: int, liveAfter: bool, t: Tally, u: Tally)
    requires i < |calls| && Drained(calls, live, i + 1, ran, n, liveAfter, AfterCall(t, calls[i]), u)
    ensures Drained(calls, live, i, ran, n, liveAfter, t, u)
  {
  }

  lemma DrainEnds(calls: seq<TlsCall>, live: bool, t: Tally)
    requires GoneOn(calls, live, |calls|, live)
    ensures Drained(calls, live, |calls|, |calls|, 0, live, t, t)
  {
  }

  lemma LeastAdds(w: nat, a: nat, b: nat)
    ensures Least(w, a) + Least(w - Least(w, a), b) == Least(w, a + b)
  {
  }

  /** In all, the calls read what they ask for together, as far as it is there. */
  lemma {:induction false} LaterReads(t: Tally, calls: seq<TlsCall>, i: nat, j: nat)
    requires i <= j <= |calls|
    ensures var u := Later(t, calls, i, j);
      u.read == t.read + Least(t.waiting, Asked(calls, i, j)) && u.waiting + u.read == t.waiting + t.read
    decreases j - i
  {
    if i < j {
      var more := Sum(calls[i].bioReads);
      LeastAdds(t.waiting, more, Asked(calls, i + 1, j));
      LaterReads(AfterCall(t, calls[i]), calls, i + 1, j);
      assert Asked(calls, i, j) == more + Asked(calls, i + 1, j);
    }
  }

  /** And they show every plaintext, in order. */
  lemma {:induction false} LaterShows(t: Tally, calls: seq<TlsCall>, i: nat, j: nat)
    requires i <= j <= |calls|
    ensures Later(t, calls, i, j).shown == t.shown + Plaintexts(calls, i, j)
    decreases j - i
  {
    if i < j {
      LaterShows(AfterCall(t, calls[i]), calls, i + 1, j);
      ShownFirst(t, calls[i], Plaintexts(calls, i + 1, j));
    } else {
      SizesAssociate(t.shown, [], []);
    }
  }

  lemma ShownFirst(t: Tally, call: TlsCall, more: seq<int>)
    ensures AfterCall(t, call).shown + more == t.shown + ((if call.result > 0 then [call.result] else []) + more)
  {
    SizesAssociate(t.shown, [call.result], more);
  }

  lemma SizesAssociate(a: seq<int>, b: seq<int>, c: seq<int>)
    ensures (a + b) + c == a + (b + c) && a + [] == a
  {
  }

  /** The first `k` calls give plaintext to a connection that stays. */
  ghost predicate AllPlain(calls: seq<TlsCall>, k: nat)
    requires k <= |calls|
  {
    k == 0 || (AllPlain(calls, k - 1) && calls[k - 1].result > 0 && !calls[k - 1].thenGone)
  }

  /** What a second pass did: how much it fed, where the feed left it, the calls of its drain and their result. */
  datatype Again = Again(fed: nat, start: Tally, ran: nat, n: int)

  /**
   What one onRecv did: where the first feed left it; the calls of the first drain, its
   result, whether the connection was live after it; and the second pass, if there was one.
   */
  datatype Trace = Trace(fed: Tally, ran: nat, n: int, live: bool, again: Option<Again>)

  /** SecureClientHooks with the part of its AsyncClient it touches. */
  class SecureClientHooks {
    const sess: AsyncSecureSession
    var pcb: bool                  // c->pcb() != nullptr
    var handshakeDone: bool
    var shown: seq<int>            // sizes of the plaintexts given to onData
    var errors: nat                // onError calls
    ghost var credited: nat        // bytes given to tcp_recved while the pcb was live

    /** While the connection is live, the window credit issued is the bytes moved into the buffer. */
    ghost predicate Valid()
      reads this, sess, sess.rxBuf
    {
      sess.Valid() && (pcb ==> credited == sess.moved)
    }

    constructor (sess: AsyncSecureSession)
      requires sess.Valid() && sess.moved == 0
      ensures Valid() && pcb && !handshakeDone && this.sess == sess && shown == [] && errors == 0
    {
      this.sess := sess;
      pcb, handshakeDone, credited := true, false, 0;
      shown, errors := [], 0;
    }

    method Recved(len: nat)
      modifies `credited
      ensures credited == if pcb then old(credited) + len else old(credited)
    {
      if pcb {
        credited := credited + len;
      }
    }

    /** The bytes waiting in the session's buffer. */
    ghost function Waiting(): nat
      requires sess.Stream()
      reads sess, sess.rxBuf
    {
      |sess.Unread()|
    }

    ghost function Now(): Tally
      requires sess.Stream()
      reads this, sess, sess.rxBuf
    {
      Tally(shown, Waiting(), |sess.consumed|)
    }

    /** A TLS library call pulls ciphertext through the BIO: as much as it asks for, or all there is. */
    method RunTls(call: TlsCall)
      requires Valid()
      modifies sess`rxLen, sess`rxPos, sess`consumed
      ensures Valid()
      ensures old(sess.consumed) <= sess.consumed
      ensures |sess.consumed| == |old(sess.consumed)| + Least(old(Waiting()), Sum(call.bioReads))
      ensures Waiting() == old(Waiting()) - Least(old(Waiting()), Sum(call.bioReads))
    {
      PullCall(call);
    }

    /** The same, as far as it concerns the stream. */
    method PullCall(call: TlsCall)
      requires sess.Stream()
      modifies sess`rxLen, sess`rxPos, sess`consumed
      ensures sess.Stream()
      ensures old(sess.consumed) <= sess.consumed
      ensures |sess.consumed| == |old(sess.consumed)| + Least(old(Waiting()), Sum(call.bioReads))
      ensures Waiting() == old(Waiting()) - Least(old(Waiting()), Sum(call.bioReads))
    {
      ghost var taken := sess.PullAll(call.bioReads);
    }

    /** Whatever is held after a feed would burst the cap, if reallocation works. */
    ghost predicate Full(reallocOk: nat -> bool, unread: nat)
      reads sess`pending
    {
      sess.pending != [] && (forall i :: reallocOk(i)) ==> unread + |sess.pending[0].pb.payload| > SSL_RX_BUF_MAX
    }

    /** Moves what fits of the chain into the buffer and credits exactly that. */
    method FeedAndCredit(chain: seq<Counted<Segment>>, reallocOk: nat -> bool, gone: bool) returns (fed: nat)
      requires Valid()
      modifies `pcb, `credited, sess, sess.rxBuf
      ensures Valid()
      ensures pcb == (old(pcb) && !gone)
      ensures sess.received == old(sess.received) + Data(chain) && sess.consumed == old(sess.consumed)
      ensures sess.rxBuf == null <==> old(sess.rxBuf) == null
      ensures sess.rxBuf == old(sess.rxBuf) || fresh(sess.rxBuf)
      ensures pcb ==> credited == old(credited) + fed
      ensures sess.moved == old(sess.moved) + fed && Full(reallocOk, Waiting())
    {
      ghost var n;
      fed, n := sess.FeedRx(chain, reallocOk);
      Credit(fed, gone);
    }

    /** The connection may go away before the credit is issued, and then there is none to issue. */
    method Credit(fed: nat, gone: bool)
      modifies `pcb, `credited
      ensures pcb == (old(pcb) && !gone)
      ensures credited == if pcb then old(credited) + fed else old(credited)
    {
      if gone {
        pcb := false;
      }
      if fed > 0 {
        Recved(fed);
      }
    }

    /** One call of the drain, its plaintext given to the application, which may close the connection. */
    method DrainOne(call: TlsCall) returns (n: int)
      requires sess.Stream()
      modifies `pcb, `shown, sess`rxLen, sess`rxPos, sess`consumed
      ensures sess.Stream() && Now() == AfterCall(old(Now()), call)
      ensures n == call.result
      ensures pcb == if n > 0 then old(pcb) && !call.thenGone else old(pcb)
    {
      PullCall(call);
      n := call.result;
      if n > 0 {
        shown := shown + [n];  // notifyData
        pcb := pcb && !call.thenGone;
      }
    }

    /** Delivers plaintext until mbedTLS has no more, or the application closed the connection. */
    method Drain(calls: seq<TlsCall>) returns (n: int, ghost ran: nat)
      requires Valid()
      modifies `pcb, `shown, sess`rxLen, sess`rxPos, sess`consumed
      ensures Valid()
      ensures old(sess.consumed) <= sess.consumed
      ensures DrainRan(calls, old(pcb), ran, n, pcb) && ran <= |calls| && Now() == Later(old(Now()), calls, 0, ran)
    {
      ghost var consumed0, rest0, start := sess.consumed, sess.Unread() + Data(sess.pending), Now();
      n, ran := DrainFrom(calls, 0, pcb);
      LaterReads(start, calls, 0, ran);
      if sess.rxBuf != null {
        ghost var rest := sess.Unread() + Data(sess.pending);
        Joined(consumed0, old(sess.Unread()), Data(sess.pending));
        Joined(sess.consumed, sess.Unread(), Data(sess.pending));
        PrefixByLength(consumed0, rest0, sess.consumed, rest);
      }
    }

    /** The draining loop from call `i` on, turn by turn. */
    method DrainFrom(calls: seq<TlsCall>, i: nat, ghost live: bool) returns (n: int, ghost ran: nat)
      requires sess.Stream() && GoneOn(calls, live, i, pcb)
      modifies `pcb, `shown, sess`rxLen, sess`rxPos, sess`consumed
      ensures sess.Stream() && Drained(calls, live, i, ran, n, pcb, old(Now()), Now())
      decreases |calls| - i
    {
      ghost var start := Now();
      if i == |calls| {
        DrainEnds(calls, live, start);
        return 0, i;
      }
      n := DrainOne(calls[i]);
      ran := i + 1;
      DrainTurn(calls, live, i, pcb, start);
      if n > 0 && pcb {
        n, ran := DrainFrom(calls, i + 1, live);
        DrainGoesOn(calls, live, i, ran, n, pcb, start, Now());
      }
    }

    /** Handshake: a fatal result is reported and closes; the callback of a finished one may close too. */
    method RunHandshake(call: TlsCall)
      requires Valid()
      modifies `pcb, `handshakeDone, `errors, sess`rxLen, sess`rxPos, sess`consumed
      ensures Valid()
      ensures old(sess.consumed) <= sess.consumed
      ensures |sess.consumed| == |old(sess.consumed)| + Least(old(Waiting()), Sum(call.bioReads))
      ensures Waiting() == old(Waiting()) - Least(old(Waiting()), Sum(call.bioReads))
      ensures handshakeDone == (old(handshakeDone) || call.result == 0)
      ensures pcb == (old(pcb) && !call.thenGone && call.result >= 0)
      ensures errors == old(errors) + if call.result < 0 then 1 else 0
    {
      RunTls(call);
      Conclude(call);
    }

    /** What the result of a handshake call leads to. */
    method Conclude(call: TlsCall)
      modifies `pcb, `handshakeDone, `errors
      ensures handshakeDone == (old(handshakeDone) || call.result == 0)
      ensures pcb == (old(pcb) && !call.thenGone && call.result >= 0)
      ensures errors == old(errors) + if call.result < 0 then 1 else 0
    {
      if call.result == 0 {
        handshakeDone := true;
      }
      pcb := pcb && !call.thenGone;
      if call.result < 0 {
        errors := errors + 1;
        pcb := false;  // close
      }
    }


    /** The second pass: ciphertext that overflowed the buffer, if any of it fits now, and another drain. */
    method SecondPass(reallocOk: nat -> bool, w: Weather) returns (ghost a: Again)
      requires Valid()
      modifies `pcb, `shown, `credited, sess, sess.rxBuf
      ensures Valid()
      ensures sess.received == old(sess.received) && old(sess.consumed) <= sess.consumed
      ensures sess.rxBuf == null <==> old(sess.rxBuf) == null
      ensures sess.rxBuf == old(sess.rxBuf) || fresh(sess.rxBuf)
      ensures SecondRan(reallocOk, w, a, old(pcb), old(shown), |old(sess.consumed)|)
      ensures sess.moved == old(sess.moved) + a.fed
    {
      var fed := FeedAndCredit([], reallocOk, w.goneAfterRefeed);
      assert Data([]) == [] && sess.received == old(sess.received) + [] == old(sess.received);
      a := Again(fed, Now(), 0, 0);
      if fed > 0 {
        ghost var ran;
        var n;
        n, ran := Drain(w.secondDrain);
        a := Again(fed, a.start, ran, n);
      }
    }

    /** What is held after a second pass would burst the cap; if it fed anything, another drain was made of it. */
    ghost predicate SecondRan(reallocOk: nat -> bool, w: Weather, a: Again, live: bool, shown0: seq<int>, read0: nat)
      requires sess.Stream()
      reads this, sess, sess.rxBuf
    {
      && Full(reallocOk, a.start.waiting)
      && a.start.shown == shown0 && a.start.read == read0
      && a.ran <= |w.secondDrain| && Now() == Later(a.start, w.secondDrain, 0, a.ran)
      && (if a.fed == 0 then a.ran == 0 && pcb == (live && !w.goneAfterRefeed)
          else DrainRan(w.secondDrain, live && !w.goneAfterRefeed, a.ran, a.n, pcb))
    }

    /** The first drain, what a fatal result leads to, and the second pass. */
    ghost predicate PlaintextRan(reallocOk: nat -> bool, w: Weather, t: Trace, live: bool, errors0: nat)
      requires sess.Stream()
      reads this, sess, sess.rxBuf
    {
      && DrainRan(w.firstDrain, live, t.ran, t.n, t.live)
      && (t.again.Some? <==> !(t.n > 0) && !(t.n < 0 && t.live))
      && errors == errors0 + (if t.n < 0 && t.live then 1 else 0)
      && (match t.again
          case None => !pcb && Now() == Later(t.fed, w.firstDrain, 0, t.ran)
          case Some(a) =>
            var u := Later(t.fed, w.firstDrain, 0, t.ran);
            SecondRan(reallocOk, w, a, t.live, u.shown, u.read))
    }

    /** The first drain, and a close on its fatal result. */
    method FirstPass(calls: seq<TlsCall>) returns (stop: bool, ghost t: Trace)
      requires Valid()
      modifies `pcb, `shown, `errors, sess`rxLen, sess`rxPos, sess`consumed
      ensures Valid()
      ensures t.fed == old(Now()) && t.again == None
      ensures DrainRan(calls, old(pcb), t.ran, t.n, t.live) && t.ran <= |calls| && Now() == Later(t.fed, calls, 0, t.ran)
      ensures stop <==> t.n > 0 || (t.n < 0 && t.live)
      ensures errors == old(errors) + (if t.n < 0 && t.live then 1 else 0)
      ensures pcb == (t.live && !stop)
    {
      ghost var start, ran := Now(), 0;
      var n;
      n, ran := Drain(calls);
      t := Trace(start, ran, n, pcb, None);
      stop := StopAfter(n);
    }

    /** The plaintext half of onRecv: drain, close on a fatal result, second pass. */
    method DeliverPlaintext(reallocOk: nat -> bool, w: Weather) returns (ghost t: Trace)
      requires Valid()
      modifies `pcb, `shown, `errors, `credited, sess, sess.rxBuf
      ensures Valid()
      ensures sess.received == old(sess.received)
      ensures sess.rxBuf == null <==> old(sess.rxBuf) == null
      ensures sess.rxBuf == old(sess.rxBuf) || fresh(sess.rxBuf)
      ensures t.fed == old(Now()) && PlaintextRan(reallocOk, w, t, old(pcb), old(errors))
    {
      var stop;
      stop, t := FirstPass(w.firstDrain);
      if !stop {
        ghost var a := SecondPass(reallocOk, w);
        t := t.(again := Some(a));
      }
    }

    /** After the first drain: the application closed the connection in onData, or a fatal result closes it now. */
    method StopAfter(n: int) returns (stop: bool)
      requires n > 0 ==> !pcb
      modifies `pcb, `errors
      ensures stop <==> n > 0 || (n < 0 && old(pcb))
      ensures pcb == (old(pcb) && !stop) && errors == old(errors) + if n < 0 && old(pcb) then 1 else 0
    {
      stop := n > 0;
      if n < 0 && pcb {
        errors := errors + 1;
        pcb := false;  // close
        stop := true;
      }
    }

    /** The first feed, and one handshake call: nothing is shown. */
    ghost predicate HandshakeRan(w: Weather, t: Trace, live: bool, errors0: nat)
      requires sess.Stream()
      reads this, sess, sess.rxBuf
    {
      var taken := Least(t.fed.waiting, Sum(w.handshake.bioReads));
      && Now() == Tally(t.fed.shown, t.fed.waiting - taken, t.fed.read + taken)
      && handshakeDone == (w.handshake.result == 0)
      && pcb == (live && !w.handshake.thenGone && w.handshake.result >= 0)
      && errors == errors0 + if w.handshake.result < 0 then 1 else 0
    }

    method HandshakeCall(w: Weather) returns (ghost t: Trace)
      requires Valid() && !handshakeDone
      modifies `pcb, `handshakeDone, `errors, sess`rxLen, sess`rxPos, sess`consumed
      ensures Valid()
      ensures t.fed == old(Now()) && HandshakeRan(w, t, old(pcb), old(errors))
    {
      t := Trace(Now(), 0, 0, pcb, None);
      RunHandshake(w.handshake);
    }

    /** onRecv before the handshake is done. */
    method Handshake(chain: seq<Counted<Segment>>, reallocOk: nat -> bool, w: Weather) returns (ghost t: Trace)
      requires Valid() && !handshakeDone
      modifies `pcb, `handshakeDone, `errors, `credited, sess, sess.rxBuf
      ensures Valid()
      ensures sess.received == old(sess.received) + Data(chain)
      ensures sess.rxBuf == null <==> old(sess.rxBuf) == null
      ensures sess.rxBuf == old(sess.rxBuf) || fresh(sess.rxBuf)
      ensures t.fed.shown == old(shown) && t.fed.read == |old(sess.consumed)|
      ensures HandshakeRan(w, t, old(pcb) && !w.goneAfterFeed, old(errors)) && Full(reallocOk, t.fed.waiting)
    {
      var fed := FeedAndCredit(chain, reallocOk, w.goneAfterFeed);
      t := HandshakeCall(w);
    }

    /** onRecv after the handshake. */
    method Deliver(chain: seq<Counted<Segment>>, reallocOk: nat -> bool, w: Weather) returns (ghost t: Trace)
      requires Valid() && handshakeDone
      modifies `pcb, `shown, `errors, `credited, sess, sess.rxBuf
      ensures Valid() && handshakeDone
      ensures sess.received == old(sess.received) + Data(chain)
      ensures sess.rxBuf == null <==> old(sess.rxBuf) == null
      ensures sess.rxBuf == old(sess.rxBuf) || fresh(sess.rxBuf)
      ensures t.fed.shown == old(shown) && t.fed.read == |old(sess.consumed)|
      ensures PlaintextRan(reallocOk, w, t, old(pcb) && !w.goneAfterFeed, old(errors))
    {
      var fed := FeedAndCredit(chain, reallocOk, w.goneAfterFeed);
      t := DeliverPlaintext(reallocOk, w);
    }

    /** Whatever onRecv did, more has been read than before. */
    lemma ReadGrew(w: Weather, t: Trace, read0: nat, done: bool, live: bool, errors0: nat, reallocOk: nat -> bool)
      requires sess.Stream() && t.fed.read == read0
      requires if done then PlaintextRan(reallocOk, w, t, live, errors0) else HandshakeRan(w, t, live, errors0)
      ensures |sess.consumed| >= read0
    {
      if done {
        LaterReads(t.fed, w.firstDrain, 0, t.ran);
        match t.again
        case None =>
        case Some(a) => LaterReads(a.start, w.secondDrain, 0, a.ran);
      }
    }

    /**
     onRecv: feed, credit, handshake or drain, and a second pass for what overflowed.  Every
     byte is kept in order (the session's Valid) and credit follows the bytes moved (Valid).
     Before the handshake is done one handshake call is made and nothing is shown.  After it
     the drains make exactly the calls DrainRan says, each reading what it asks for and
     showing its plaintext; a fatal result on a live connection is reported and closes; and
     otherwise what is still held at the end would burst the cap, given what was unread when
     it was last fed.
     */
    method OnRecv(chain: Option<seq<Counted<Segment>>>, reallocOk: nat -> bool, w: Weather) returns (handled: bool, ghost t: Option<Trace>)
      requires Valid()
      modifies this, sess, sess.rxBuf
      ensures Valid() && handled && (t.Some? <==> chain.Some?)
      ensures sess.received == old(sess.received) + if chain.Some? then Data(chain.value) else []
      ensures old(sess.consumed) <= sess.consumed
      ensures sess.rxBuf == null <==> old(sess.rxBuf) == null
      ensures sess.rxBuf == old(sess.rxBuf) || fresh(sess.rxBuf)
      ensures chain.None? ==> Now() == old(Now()) && errors == old(errors) && pcb == old(pcb) && handshakeDone == old(handshakeDone)
      ensures chain.Some? ==> t.value.fed.shown == old(shown) && t.value.fed.read == |old(sess.consumed)|
      ensures chain.Some? && !old(handshakeDone) ==>
        HandshakeRan(w, t.value, old(pcb) && !w.goneAfterFeed, old(errors)) && Full(reallocOk, t.value.fed.waiting)
      ensures chain.Some? && old(handshakeDone) ==>
        handshakeDone && PlaintextRan(reallocOk, w, t.value, old(pcb) && !w.goneAfterFeed, old(errors))
    {
      handled, t := true, None;
      if chain.Some? {
        ghost var before, read0 := sess.received, |sess.consumed|;
        ghost var u;
        if handshakeDone {
          u := Deliver(chain.value, reallocOk, w);
        } else {
          u := Handshake(chain.value, reallocOk, w);
        }
        t := Some(u);
        ReadGrew(w, u, read0, old(handshakeDone), old(pcb) && !w.goneAfterFeed, old(errors), reallocOk);
        if sess.rxBuf != null {
          ConsumedGrew(old(sess.consumed), old(sess.Unread()), old(Data(sess.pending)), before,
                       sess.consumed, sess.Unread(), Data(sess.pending), Data(chain.value));
        }
      }
    }
  }

  /** Moving a chunk from the chain to the buffer does not change the concatenation. */
  lemma Reassociate(a: Bytes, b: Bytes, c: Bytes, d: Bytes)
    ensures a + (b + c) + d == a + b + (c + d)
  {
  }

  lemma JoinSlices(b: Bytes, i: nat, j: nat, k: nat)
    requires i <= j <= k <= |b|
    ensures b[i..k] == b[i..j] + b[j..k]
  {
  }

  lemma PrefixByLength(a: Bytes, x: Bytes, b: Bytes, y: Bytes)
    requires a + x == b + y && |a| <= |b|
    ensures a <= b
  {
    assert a == (a + x)[..|a|] && b[..|a|] == (b + y)[..|a|];
  }

  lemma ConsumedGrew(a: Bytes, u: Bytes, h: Bytes, all: Bytes, b: Bytes, v: Bytes, k: Bytes, more: Bytes)
    requires a + u + h == all && b + v + k == all + more && |a| <= |b|
    ensures a <= b
  {
    Joined(a, u, h);
    Joined(b, v, k);
    Joined(a, u + h, more);
    PrefixByLength(a, u + h + more, b, v + k);
  }

  lemma Joined(a: Bytes, b: Bytes, c: Bytes)
    ensures (a + b) + c == a + (b + c) && a + [] == a
  {
  }

  lemma StreamGrows(a: Bytes, b: Bytes, c: Bytes, all: Bytes)
    requires a + b == all
    ensures a + (b + c) == all + c
  {
    Reassociate(a, b, c, []);
    assert a + (b + c) == (a + b) + c;
  }

  lemma Regroup(a: Bytes, b: Bytes, c: Bytes, d: Bytes)
    ensures (a + b) + c + d == a + (b + c) + d
  {
  }

  // ---- Chains of pbufs ----

  function Single(): Counted<Segment> -> bool
  {
    (c: Counted<Segment>) => c.refs <= 1
  }

  function NotSingle(): Counted<Segment> -> bool
  {
    (c: Counted<Segment>) => c.refs > 1
  }

  lemma DataHead(chain: seq<Counted<Segment>>)
    requires chain != []
    ensures Data(chain) == chain[0].pb.payload + Data(chain[1..])
  {
    assert Payloads(Plain(chain))[1..] == Payloads(Plain(chain[1..]));
  }

  lemma DataChain(a: seq<Counted<Segment>>, b: seq<Counted<Segment>>)
    ensures Data(Chain(a, b)) == Data(a) + Data(b)
    ensures PbufIds(Chain(a, b)) == PbufIds(a) + PbufIds(b)
  {
    ChainPlain(a, b);
    assert Payloads(Plain(a) + Plain(b)) == Payloads(Plain(a)) + Payloads(Plain(b));
    FlattenConcat(Payloads(Plain(a)), Payloads(Plain(b)));
  }

  lemma ChainPlaced(entered: seq<nat>, freed: seq<nat>, stranded: seq<nat>, held: seq<Counted<Segment>>, chain: seq<Counted<Segment>>)
    requires Placed(entered, freed, stranded, PbufIds(held))
    ensures Placed(entered + PbufIds(chain), freed, stranded, PbufIds(Chain(held, chain)))
  {
    DataChain(held, chain);
    forall x ensures PlacedAt(entered + PbufIds(chain), freed, stranded, PbufIds(Chain(held, chain)), x) {
      assert PlacedAt(entered, freed, stranded, PbufIds(held), x);
      CountConcat(entered, PbufIds(chain), x);
      CountConcat(PbufIds(held), PbufIds(chain), x);
    }
  }

  /** The first `n` held pbufs split into `f`, given back, and `l`, not; the others stay. */
  lemma LetGoPlaced(entered: seq<nat>, freed: seq<nat>, stranded: seq<nat>, held: seq<nat>, f: seq<nat>, l: seq<nat>, rest: seq<nat>)
    requires Placed(entered, freed, stranded, held)
    requires held == f + l + rest
    ensures Placed(entered, freed + f, stranded + l, rest)
  {
    forall x ensures PlacedAt(entered, freed + f, stranded + l, rest, x) {
      assert PlacedAt(entered, freed, stranded, held, x);
      CountConcat(freed, f, x);
      CountConcat(stranded, l, x);
      CountConcat(f + l, rest, x);
      CountConcat(f, l, x);
    }
  }

  lemma {:induction false} SharedConcat(a: seq<Counted<Segment>>, b: seq<Counted<Segment>>)
    ensures Shared(a + b) <==> Shared(a) || Shared(b)
  {
    if a == [] {
      assert a + b == b;
    } else {
      assert (a + b)[1..] == a[1..] + b;
      SharedConcat(a[1..], b);
    }
  }

  /** pbuf_chain shares the head of what it appends, so a chain behind another always is. */
  lemma SharedChain(a: seq<Counted<Segment>>, b: seq<Counted<Segment>>)
    ensures Shared(Chain(a, b)) <==> Shared(a) || Shared(b) || (a != [] && b != [])
  {
    SharedConcat(a, b);
    if a != [] && b != [] {
      var tail := [b[0].(refs := b[0].refs + 1)] + b[1..];
      assert Chain(a, b) == a + tail;
      SharedConcat(a, tail);
    }
  }

  /** Freeing a chain leaves something behind exactly if some pbuf of it is shared. */
  lemma {:induction false} SharedReleases(held: seq<Counted<Segment>>)
    ensures Shared(held) <==> Released(held) < |held|
  {
    if held != [] {
      SharedReleases(held[1..]);
    }
  }

  /**
   One pbuf held and a second one arriving behind it: however they are drained, the first
   goes back to the pool and the second does not.
   */
  lemma SecondPbufStrands(first: Segment, second: Segment)
    ensures var all := Chain([Counted(first, 1)], [Counted(second, 1)]);
      && Shared(all)
      && PbufIds(Filter(all, Single())) == [first.id] && PbufIds(Filter(all, NotSingle())) == [second.id]
      && PbufIds(all[..Released(all)]) == [first.id] && PbufIds(all[Released(all)..]) == [second.id]
  {
    var a, b := Counted(first, 1), Counted(second, 2);
    var all := Chain([a], [Counted(second, 1)]);
    assert all == [a] + [b];
    SharedChain([a], [Counted(second, 1)]);
    FilterConcat([a], [b], Single());
    FilterConcat([a], [b], NotSingle());
    assert [a][1..] == [] && [b][1..] == [];
    ReleasedAt(all, 1);
  }

  lemma NothingMoved(all: seq<Counted<Segment>>)
    ensures all[0..] == all && Data(all[..0]) == [] && Filter(all[..0], Single()) == Filter(all[..0], NotSingle()) == []
  {
  }

  lemma FilterSnoc(all: seq<Counted<Segment>>, n: nat, p: Counted<Segment> -> bool, before: seq<nat>)
    requires n < |all|
    ensures before + PbufIds(Filter(all[..n + 1], p)) == (before + PbufIds(Filter(all[..n], p))) + if p(all[n]) then [all[n].pb.id] else []
  {
    var c := all[n];
    assert all[..n + 1] == all[..n] + [c];
    FilterConcat(all[..n], [c], p);
    assert Filter([c], p) == if p(c) then [c] else [];
    assert PbufIds(Filter(all[..n + 1], p)) == PbufIds(Filter(all[..n], p)) + if p(c) then [c.pb.id] else [];
  }

  lemma OneMoved(all: seq<Counted<Segment>>, n: nat, freed0: seq<nat>, stranded0: seq<nat>)
    requires n < |all|
    ensures freed0 + PbufIds(Filter(all[..n + 1], Single()))
         == (freed0 + PbufIds(Filter(all[..n], Single()))) + if all[n].refs <= 1 then [all[n].pb.id] else []
    ensures stranded0 + PbufIds(Filter(all[..n + 1], NotSingle()))
         == (stranded0 + PbufIds(Filter(all[..n], NotSingle()))) + if all[n].refs > 1 then [all[n].pb.id] else []
    ensures all[n..][1..] == all[n + 1..]
    ensures |Data(all[..n + 1])| == |Data(all[..n])| + |all[n].pb.payload|
  {
    var c := all[n];
    assert all[..n + 1] == all[..n] + [c];
    FilterSnoc(all, n, Single(), freed0);
    FilterSnoc(all, n, NotSingle(), stranded0);
    assert Payloads(Plain(all[..n + 1])) == Payloads(Plain(all[..n])) + [c.pb.payload];
    FlattenConcat(Payloads(Plain(all[..n])), [c.pb.payload]);
    assert Flatten([c.pb.payload]) == c.pb.payload by { assert [c.pb.payload][1..] == []; }
  }
}
