/** The xenstore rings and request identifiers of platform/xen/xen/xenbus/xenbus.c.

    Indices are 32-bit counters that wrap; a byte at index v lies at v modulo the ring size.
    The other end of a ring moves only its own index. */
module XenRing {
  import opened Arith

  const RING: nat := 1024
  const IDX: nat := 0x1_0000_0000
  const HEADER: nat := 16

  type Byte = x: nat | x < 256

  function Mask(v: nat): nat { v % RING }

  function Idx(v: nat): nat { v % IDX }

  /** How far the producer is ahead of the consumer. */
  function Ahead(prod: nat, cons: nat): nat { (prod - cons) % IDX }

  lemma IdxSmall(v: nat)
    requires v < IDX
    ensures Idx(v) == v
  {
  }

  lemma IdxAdd(v: nat, n: nat)
    ensures Idx(Idx(v) + n) == Idx(v + n)
  {
  }

  /** Beyond n places after index v the rings agree. */
  ghost predicate SameBeyond(ring: seq<Byte>, ring': seq<Byte>, v: nat, n: nat)
    requires |ring| == RING && |ring'| == RING
  {
    forall j: nat | n <= j < RING :: At(ring', v, j) == At(ring, v, j)
  }

  lemma StillSame(ring: seq<Byte>, ring': seq<Byte>, ring'': seq<Byte>, v: nat, n: nat, m: nat)
    requires |ring| == RING && |ring'| == RING && |ring''| == RING
    ensures SameBeyond(ring, ring', v, n) && SameBeyond(ring', ring'', v, n + m) ==> SameBeyond(ring, ring'', v, n + m)
    ensures SameBeyond(ring, ring, v, n)
  {
    hide At;
  }

  lemma MaskAdd(v: nat, i: nat)
    ensures Mask(Mask(v) + i) == Mask(Idx(v) + i) == Mask(v + i)
  {
    ModShift(Mask(v) + i, v / RING, RING);
    ModShift(Idx(v) + i, v / IDX * (IDX / RING), RING);
  }

  lemma ModShift(x: nat, q: nat, d: nat)
    requires d > 0
    ensures (x + q * d) % d == x % d
  {
    assert (x / d + q) * d == x / d * d + q * d;
    DivModUnique(x + q * d, d, x / d + q, x % d);
  }

  lemma MaskStep(v: nat, at: nat, i: nat)
    requires Mask(v) == at && at + i < RING
    ensures Mask(v + i) == at + i
  {
  }

  /** The byte i places after index v. */
  function At(ring: seq<Byte>, v: nat, i: nat): Byte
    requires |ring| == RING
  {
    ring[Mask(v + i)]
  }

  /** The n bytes from index v on. */
  function RingAt(ring: seq<Byte>, v: nat, n: nat): (r: seq<Byte>)
    requires |ring| == RING
    ensures |r| == n
  {
    seq(n, i requires 0 <= i < n => At(ring, v, i))
  }

  lemma RingAtSplit(ring: seq<Byte>, v: nat, n: nat, m: nat)
    requires |ring| == RING
    ensures RingAt(ring, v, n + m) == RingAt(ring, v, n) + RingAt(ring, v + n, m)
  {
  }

  // ---- Messages ----

  /** struct xsd_sockmsg, and the bytes that follow it. */
  datatype Msg = Msg(kind: nat, reqId: nat, txId: nat, body: seq<Byte>)

  predicate MsgOk(m: Msg)
  {
    m.kind < IDX && m.reqId < IDX && m.txId < IDX && |m.body| < IDX
  }

  function Word(n: nat): (w: seq<Byte>)
    requires n < IDX
    ensures |w| == 4
  {
    [n % 256, n / 256 % 256, n / 65536 % 256, n / 16777216]
  }

  function WordOf(w: seq<Byte>): nat
    requires |w| == 4
  {
    w[0] as nat + 256 * (w[1] as nat) + 65536 * (w[2] as nat) + 16777216 * (w[3] as nat)
  }

  lemma WordRoundTrip(n: nat)
    requires n < IDX
    ensures WordOf(Word(n)) == n
  {
    var a := n / 256;
    var b := n / 65536;
    assert a / 256 == b && b / 256 == n / 16777216;
  }

  /** The header as it lies in the ring. */
  function Header(m: Msg): (h: seq<Byte>)
    requires MsgOk(m)
    ensures |h| == HEADER
  {
    Word(m.kind) + Word(m.reqId) + Word(m.txId) + Word(|m.body|)
  }

  function Bytes(m: Msg): seq<Byte>
    requires MsgOk(m)
  {
    Header(m) + m.body
  }

  ghost function Stream(msgs: seq<Msg>): seq<Byte>
    requires forall m | m in msgs :: MsgOk(m)
  {
    if msgs == [] then [] else Bytes(msgs[0]) + Stream(msgs[1..])
  }

  lemma {:induction false} StreamAppend(msgs: seq<Msg>, m: Msg)
    requires (forall x | x in msgs :: MsgOk(x)) && MsgOk(m)
    ensures Stream(msgs + [m]) == Stream(msgs) + Bytes(m)
  {
    hide Bytes;
    if msgs == [] {
      assert msgs + [m] == [m];
      assert Stream([m]) == Bytes(m) + Stream([m][1..]);
    } else {
      StreamAppend(msgs[1..], m);
      assert (msgs + [m])[1..] == msgs[1..] + [m] && (msgs + [m])[0] == msgs[0];
      assert Stream(msgs + [m]) == Bytes(msgs[0]) + (Stream(msgs[1..]) + Bytes(m));
    }
  }

  // ---- Segments ----

  function Concat(segs: seq<seq<Byte>>): seq<Byte>
  {
    if segs == [] then [] else segs[0] + Concat(segs[1..])
  }

  lemma {:induction false} ConcatAppend(a: seq<seq<Byte>>, b: seq<seq<Byte>>)
    ensures Concat(a + b) == Concat(a) + Concat(b)
  {
    hide Concat;
    ConcatCons(a);
    ConcatCons(a + b);
    if a == [] {
      assert a + b == b;
    } else {
      ConcatAppend(a[1..], b);
      assert (a + b)[1..] == a[1..] + b && (a + b)[0] == a[0];
      assert a[0] + (Concat(a[1..]) + Concat(b)) == (a[0] + Concat(a[1..])) + Concat(b);
    }
  }

  lemma ConcatCons(segs: seq<seq<Byte>>)
    ensures Concat(segs) == if segs == [] then [] else segs[0] + Concat(segs[1..])
  {
  }

  /** Where segment k lies in the whole. */
  lemma SegmentAt(segs: seq<seq<Byte>>, k: nat)
    requires k < |segs|
    ensures Concat(segs[..k + 1]) == Concat(segs[..k]) + segs[k]
    ensures |Concat(segs[..k])| + |segs[k]| <= |Concat(segs)|
    ensures Concat(segs)[|Concat(segs[..k])|..|Concat(segs[..k])| + |segs[k]|] == segs[k]
  {
    assert segs == segs[..k] + [segs[k]] + segs[k + 1..];
    ConcatAppend(segs[..k] + [segs[k]], segs[k + 1..]);
    ConcatAppend(segs[..k], [segs[k]]);
    assert segs[..k + 1] == segs[..k] + [segs[k]];
    assert Concat([segs[k]]) == segs[k];
  }

  /** The place in the ring that comes next in a run of n bytes is free of the bytes
      before it, and writing there extends the run. */
  lemma Store(ring: seq<Byte>, ring': seq<Byte>, v: nat, n: nat, data: seq<Byte>)
    requires |ring| == RING && |ring'| == RING && n + |data| <= RING
    requires Mask(v + n) + |data| <= RING
    requires var at := Mask(v + n); ring' == ring[..at] + data + ring[at + |data|..]
    ensures RingAt(ring', v, n + |data|) == RingAt(ring, v, n) + data
    ensures forall j: nat | n + |data| <= j < RING :: At(ring', v, j) == At(ring, v, j)
  {
    var at := Mask(v + n);
    hide Mask;
    forall i: nat | i < |data| ensures At(ring', v, n + i) == data[i] {
      MaskStep(v + n, at, i);
    }
    forall j: nat | j < RING && !(n <= j < n + |data|) ensures At(ring', v, j) == At(ring, v, j) {
      Untouched(v, n, |data|, j);
    }
    var r := RingAt(ring, v, n) + data;
    forall j: nat | j < n + |data| ensures At(ring', v, j) == r[j] {
      if j >= n {
        assert At(ring', v, n + (j - n)) == data[j - n];
      }
    }
  }

  lemma Untouched(v: nat, n: nat, len: nat, j: nat)
    requires n + len <= RING && Mask(v + n) + len <= RING && j < RING && !(n <= j < n + len)
    ensures !(Mask(v + n) <= Mask(v + j) < Mask(v + n) + len) && Mask(v + j) < RING
  {
  }

  lemma MaskBound(v: nat)
    ensures Mask(v) < RING
  {
  }

  lemma SamePlace(prod: nat, cons: nat, used: nat, total: nat)
    requires prod < IDX && cons < IDX && used == Ahead(prod, cons)
    ensures Mask(Idx(prod + total)) == Mask(cons + (used + total))
  {
    MaskAdd(prod + total, 0);
    ModShift(prod + total, IDX / RING, RING);
    assert prod == cons + used || prod + IDX == cons + used;
  }

  lemma NextPiece(unread: seq<Byte>, whole: seq<Byte>, total: nat, piece: seq<Byte>)
    requires total + |piece| <= |whole| && whole[total..total + |piece|] == piece
    ensures unread + whole[..total] + piece == unread + whole[..total + |piece|]
  {
  }

  lemma WholeMessage(m: Msg, segs: seq<seq<Byte>>)
    requires MsgOk(m) && m.body == Concat(segs)
    ensures Concat([Header(m)] + segs) == Bytes(m) && |Bytes(m)| == HEADER + |m.body|
    ensures Concat(([Header(m)] + segs)[..0]) == []
  {
    assert ([Header(m)] + segs)[1..] == segs;
  }

  /** What was unread is still there. */
  lemma Prefix(ring: seq<Byte>, v: nat, n: nat, len: nat, unread: seq<Byte>, whole: seq<Byte>)
    requires |ring| == RING && |unread| == n && |whole| == len && RingAt(ring, v, n + len) == unread + whole
    ensures RingAt(ring, v, n) == unread
  {
    RingAtSplit(ring, v, n, len);
    assert (unread + whole)[..n] == unread;
  }

  /** A run of bytes seen from an index, from the wrapped index and from its place. */
  lemma SameRun(ring: seq<Byte>, v: nat, n: nat)
    requires |ring| == RING
    ensures RingAt(ring, Mask(v), n) == RingAt(ring, Idx(v), n) == RingAt(ring, v, n)
    ensures Mask(Idx(v)) == Mask(v)
  {
    hide Mask, Idx;
    MaskAdd(v, 0);
    forall i: nat | i < n ensures At(ring, Mask(v), i) == At(ring, Idx(v), i) == At(ring, v, i) {
      MaskAdd(v, i);
    }
  }

  lemma HeaderFields(m: Msg)
    requires MsgOk(m)
    ensures var h := Header(m);
            && WordOf(h[..4]) == m.kind && WordOf(h[4..8]) == m.reqId && WordOf(h[8..12]) == m.txId
            && WordOf(h[12..16]) == |m.body|
  {
    var h := Header(m);
    assert h[..4] == Word(m.kind) && h[4..8] == Word(m.reqId) && h[8..12] == Word(m.txId) && h[12..16] == Word(|m.body|);
    hide Word, WordOf;
    WordRoundTrip(m.kind);
    WordRoundTrip(m.reqId);
    WordRoundTrip(m.txId);
    WordRoundTrip(|m.body|);
  }

  /** The unread bytes begin with the first message, if there is one. */
  lemma FirstMessage(ring: seq<Byte>, v: nat, n: nat, msgs: seq<Msg>)
    requires |ring| == RING && (forall m | m in msgs :: MsgOk(m)) && RingAt(ring, v, n) == Stream(msgs)
    ensures msgs == [] <==> n < HEADER
    ensures msgs != [] ==>
              var m := msgs[0];
              && n >= HEADER + |m.body| && RingAt(ring, v, HEADER) == Header(m)
              && RingAt(ring, v + HEADER, |m.body|) == m.body
              && RingAt(ring, v + HEADER + |m.body|, n - HEADER - |m.body|) == Stream(msgs[1..])
  {
    hide RingAt, Header, At;
    if msgs != [] {
      var m := msgs[0];
      var l := |m.body|;
      var rest := Stream(msgs[1..]);
      assert Stream(msgs) == Header(m) + m.body + rest;
      hide Stream;
      RingAtSplit(ring, v, HEADER, n - HEADER);
      RingAtSplit(ring, v + HEADER, l, n - HEADER - l);
      SameParts(Header(m), m.body, rest, RingAt(ring, v, HEADER), RingAt(ring, v + HEADER, l),
                RingAt(ring, v + HEADER + l, n - HEADER - l));
    }
  }

  lemma SameParts(a: seq<Byte>, b: seq<Byte>, c: seq<Byte>, a': seq<Byte>, b': seq<Byte>, c': seq<Byte>)
    requires a + b + c == a' + (b' + c') && |a| == |a'| && |b| == |b'|
    ensures a == a' && b == b' && c == c'
  {
    var u := a + b + c;
    assert u[..|a|] == a == a';
    assert u[|a|..|a| + |b|] == b == b';
    assert u[|a| + |b|..] == c == c';
  }

  lemma Consume(prod: nat, cons: nat, n: nat)
    requires prod < IDX && cons < IDX && n <= Ahead(prod, cons) <= RING
    ensures Ahead(prod, Idx(cons + n)) == Ahead(prod, cons) - n
    ensures Idx(cons + n) < IDX
  {
  }

  /** The ring with the first i bytes of the data stored at a place. */
  function Written(ring: seq<Byte>, data: seq<Byte>, at: nat, i: nat): seq<Byte>
    requires i <= |data| && at + i <= |ring|
  {
    ring[..at] + data[..i] + ring[at + i..]
  }

  lemma WrittenEnds(ring: seq<Byte>, data: seq<Byte>, at: nat)
    requires at + |data| <= |ring|
    ensures Written(ring, data, at, 0) == ring
    ensures Written(ring, data, at, |data|) == ring[..at] + data + ring[at + |data|..]
  {
    assert data[..|data|] == data;
  }

  lemma Overwrite(ring: seq<Byte>, data: seq<Byte>, at: nat, i: nat)
    requires i < |data| && at + i < |ring|
    ensures Written(ring, data, at, i)[at + i := data[i]] == Written(ring, data, at, i + 1)
  {
  }

  class Ring {
    const buf: array<Byte>
    var prod: nat
    var cons: nat
    ghost var msgs: seq<Msg>

    function Used(): nat
      reads this
    {
      Ahead(prod, cons)
    }

    lemma NextPlace(total: nat)
      requires prod < IDX && cons < IDX
      ensures Mask(Idx(prod + total)) == Mask(cons + (Used() + total))
    {
      SamePlace(prod, cons, Used(), total);
    }

    ghost function Unread(): seq<Byte>
      requires buf.Length == RING
      reads this, buf
    {
      RingAt(buf[..], cons, Used())
    }

    /** The unread bytes are the messages sent and not yet received. */
    ghost predicate Valid()
      reads this, buf
    {
      && buf.Length == RING && prod < IDX && cons < IDX && Used() <= RING
      && (forall m | m in msgs :: MsgOk(m))
      && Unread() == Stream(msgs)
    }

    /** An empty ring whose indices have come to `start`. */
    constructor (start: nat)
      requires start < IDX
      ensures Valid() && msgs == [] && prod == start && cons == start && fresh(buf)
    {
      buf := new Byte[RING](_ => 0);
      prod, cons, msgs := start, start, [];
    }

    /** bmk_memcpy into the ring */
    method CopyIn(at: nat, data: seq<Byte>, from: nat, n: nat)
      requires buf.Length == RING && at + n <= RING && from + n <= |data|
      modifies buf
      ensures buf[..] == old(buf[..])[..at] + data[from..from + n] + old(buf[..])[at + n..]
    {
      hide Written;
      ghost var ring := buf[..];
      var i := 0;
      WrittenEnds(ring, data[from..from + n], at);
      while i < n
        invariant 0 <= i <= n
        invariant buf[..] == Written(old(buf[..]), data[from..from + n], at, i)
      {
        Overwrite(old(buf[..]), data[from..from + n], at, i);
        ghost var before := buf[..];
        buf[at + i] := data[from + i];
        assert buf[..] == before[at + i := data[from..from + n][i]];
        i := i + 1;
      }
    }

    /** One chunk goes in where the run of n bytes from index v on ends. */
    method PutChunk(ghost v: nat, ghost n: nat, p: nat, data: seq<Byte>, off: nat, chunk: nat)
      requires buf.Length == RING && Mask(p) == Mask(v + n) && Mask(p) + chunk <= RING
      requires n + chunk <= RING && off + chunk <= |data|
      modifies buf
      ensures RingAt(buf[..], v, n + chunk) == old(RingAt(buf[..], v, n)) + data[off..off + chunk]
      ensures SameBeyond(old(buf[..]), buf[..], v, n + chunk)
    {
      hide RingAt, At, Mask;
      CopyIn(Mask(p), data, off, chunk);
      Store(old(buf[..]), buf[..], v, n, data[off..off + chunk]);
    }

    /** memcpy_from_ring: two copies, the second for what wraps around. */
    method MemcpyFromRing(off: nat, len: nat) returns (dest: seq<Byte>)
      requires buf.Length == RING && off < RING && len <= RING
      ensures dest == RingAt(buf[..], off, len)
    {
      var c1 := if len < RING - off then len else RING - off;
      var c2 := len - c1;
      dest := buf[off..off + c1] + buf[..c2];
      forall i: nat | i < len ensures dest[i] == At(buf[..], off, i) {
        assert Mask(off + i) == if i < c1 then off + i else i - c1;
      }
    }

    /** Would the last BUG_ON of xenbus_xb_write fire? It compares indices that wrap: it does
        exactly when the end of the ring's window has wrapped and the producer has not. */
    predicate FalseAlarm(len: nat)
      reads this
    {
      AlarmAt(cons, Used() + len)
    }

    /** xenbus_xb_write once there is room: header and segments go behind the unread bytes,
        in order, and nothing else in the ring changes. The transfer is complete unless the
        check at the end raises its false alarm. */
    method XbWrite(m: Msg, segs: seq<seq<Byte>>) returns (bug: bool)
      requires Valid() && MsgOk(m) && m.body == Concat(segs)
      requires HEADER + |m.body| <= RING
      requires (prod + HEADER + |m.body| - cons) % IDX <= RING
      modifies buf, this`prod, this`msgs
      ensures old(Used()) + HEADER + |m.body| <= RING && bug == old(FalseAlarm(HEADER + |m.body|))
      ensures Valid()
      ensures msgs == if bug then old(msgs) else old(msgs) + [m]
      ensures SameBeyond(old(buf[..]), buf[..], cons, old(Used()) + HEADER + |m.body|)
    {
      hide Mask, RingAt, Stream, Concat, At, Header, Bytes, Ahead, Idx, SameBeyond;
      ghost var unread := Unread();
      var len := TotalLength(segs);
      len := len + HEADER;
      Indices(prod, cons, len);
      WholeMessage(m, segs);
      var p := Transfer([Header(m)] + segs, len);
      bug := p > Idx(cons + RING);
      if bug {
        Prefix(buf[..], cons, Used(), len, unread, Bytes(m));
      } else {
        prod := Idx(prod + len);
        StreamAppend(msgs, m);
        msgs := msgs + [m];
      }
    }

    /** The reading side of xenbus_thread_func: the oldest message comes out as it was put
        in. */
    method Receive() returns (got: bool, m: Msg)
      requires Valid()
      modifies this`cons, this`msgs
      ensures Valid()
      ensures got <==> old(msgs) != []
      ensures got ==> m == old(msgs)[0] && msgs == old(msgs)[1..]
      ensures !got ==> cons == old(cons) && msgs == old(msgs)
    {
      hide Mask, RingAt, Idx, Stream, Header, WordOf;
      FirstMessage(buf[..], cons, Used(), msgs);
      got, m := false, Msg(0, 0, 0, []);
      if Used() < HEADER {
        return;
      }
      MaskBound(cons);
      SameRun(buf[..], cons, HEADER);
      var hdr := MemcpyFromRing(Mask(cons), HEADER);
      HeaderFields(msgs[0]);
      var len := WordOf(hdr[12..16]);
      if Used() < HEADER + len {
        return;
      }
      MaskBound(Idx(cons + HEADER));
      SameRun(buf[..], cons + HEADER, len);
      var body := MemcpyFromRing(Mask(Idx(cons + HEADER)), len);
      m := Msg(WordOf(hdr[..4]), WordOf(hdr[4..8]), WordOf(hdr[8..12]), body);
      got := true;
      SameRun(buf[..], cons + HEADER + len, Used() - HEADER - len);
      Consume(prod, cons, HEADER + len);
      cons := Idx(cons + HEADER + len);
      msgs := msgs[1..];
    }

    /** The copy loop: it ends, with every byte of every segment, empty ones included, in
        its place and the producer index past them. */
    method Transfer(all: seq<seq<Byte>>, len: nat) returns (p: nat)
      requires buf.Length == RING && prod < IDX && cons < IDX && Used() + len <= RING && len == |Concat(all)|
      modifies buf
      ensures p == Idx(prod + len)
      ensures RingAt(buf[..], cons, Used() + len) == old(Unread()) + Concat(all)
      ensures SameBeyond(old(buf[..]), buf[..], cons, Used() + len)
    {
      hide Ring.Used, Mask, RingAt, Idx, SameBeyond, Concat, At, Cursor;
      ghost var used, unread, whole, ring0 := Used(), Unread(), Concat(all), buf[..];
      var total: nat, off: nat, k: nat := 0, 0, 0;
      p := prod;
      IdxSmall(prod);
      CursorStart(all);
      StillSame(buf[..], buf[..], buf[..], cons, used, 0);
      assert unread + whole[..0] == unread;
      while total < len
        invariant Cursor(all, total, off, k) && total <= len && k <= |all|
        invariant p == Idx(prod + total)
        invariant RingAt(buf[..], cons, used + total) == unread + whole[..total]
        invariant SameBeyond(ring0, buf[..], cons, used + total)
        decreases len - total, |all| - k
      {
        CursorPiece(all, total, off, k);
        MaskBound(p);
        var chunk := if |all[k]| - off < RING - Mask(p) then |all[k]| - off else RING - Mask(p);
        CursorNext(all, total, off, k, chunk);
        NextPlace(total);
        ghost var ring := buf[..];
        PutChunk(cons, used + total, p, all[k], off, chunk);
        StillSame(ring0, ring, buf[..], cons, used + total, chunk);
        NextPiece(unread, whole, total, all[k][off..off + chunk]);
        IdxAdd(prod + total, chunk);
        p := Idx(p + chunk);
        off := off + chunk;
        total := total + chunk;
        if off == |all[k]| {
          off, k := 0, k + 1;
        }
      }
      CursorEnd(all, total, off, k);
      assert off == 0 && total == len;
      assert whole[..total] == whole;
    }
  }

  // ---- The cursor of the copy loop ----

  /** Segment k, offset off is where byte `total` of the whole lies. */
  ghost predicate Cursor(all: seq<seq<Byte>>, total: nat, off: nat, k: nat)
  {
    && k <= |all| && total == |Concat(all[..k])| + off
    && if k == |all| then off == 0 else off < |all[k]| || off == 0
  }

  lemma CursorStart(all: seq<seq<Byte>>)
    ensures Cursor(all, 0, 0, 0)
  {
  }

  lemma CursorPiece(all: seq<seq<Byte>>, total: nat, off: nat, k: nat)
    requires Cursor(all, total, off, k) && total < |Concat(all)|
    ensures k < |all| && off <= |all[k]|
  {
    assert all[..|all|] == all;
  }

  lemma CursorNext(all: seq<seq<Byte>>, total: nat, off: nat, k: nat, n: nat)
    requires Cursor(all, total, off, k) && k < |all| && off + n <= |all[k]|
    ensures if off + n == |all[k]| then Cursor(all, total + n, 0, k + 1) else Cursor(all, total + n, off + n, k)
    ensures total + n <= |Concat(all)| && Concat(all)[total..total + n] == all[k][off..off + n]
  {
    SegmentAt(all, k);
    var whole, at := Concat(all), |Concat(all[..k])|;
    hide Concat;
    PartOfSlice(whole, all[k], at, off, n);
  }

  lemma PartOfSlice(whole: seq<Byte>, part: seq<Byte>, at: nat, off: nat, n: nat)
    requires at + |part| <= |whole| && whole[at..at + |part|] == part && off + n <= |part|
    ensures whole[at + off..at + off + n] == part[off..off + n]
  {
    var from := at + off;
    forall j | from <= j < from + n ensures whole[j] == part[j - at] {
      assert whole[at..at + |part|][j - at] == whole[j];
    }
    assert whole[from..from + n] == part[off..off + n];
  }

  lemma CursorEnd(all: seq<seq<Byte>>, total: nat, off: nat, k: nat)
    requires Cursor(all, total, off, k) && total == |Concat(all)|
    ensures off == 0
  {
    if k < |all| {
      SegmentAt(all, k);
    }
  }

  method TotalLength(segs: seq<seq<Byte>>) returns (len: nat)
    ensures len == |Concat(segs)|
  {
    len := 0;
    var r := 0;
    while r < |segs|
      invariant r <= |segs| && len == |Concat(segs[..r])|
    {
      SegmentAt(segs, r);
      len := len + |segs[r]|;
      r := r + 1;
    }
    assert segs[..r] == segs;
  }

  /** The window of the ring ends past the wrap of the index and the n unread bytes do not. */
  predicate AlarmAt(cons: nat, n: nat)
  {
    cons + RING >= IDX && cons + n < IDX
  }

  /** It fires on a healthy ring with room to spare: one that is empty, half a ring before the
      wrap of its indices, when a message of no more than a header is written. */
  method AlarmOnHealthyRing() returns (ring: Ring, bug: bool)
    ensures bug && ring.Valid() && ring.Used() == 0 && ring.cons == IDX - 512
  {
    ring := new Ring(IDX - 512);
    var m := Msg(0, 0, 0, []);
    assert Concat([]) == [];
    bug := ring.XbWrite(m, []);
  }

  /** The index arithmetic of a write. */
  lemma Indices(prod: nat, cons: nat, len: nat)
    requires prod < IDX && cons < IDX && Ahead(prod, cons) <= RING && HEADER <= len <= RING
    requires (prod + len - cons) % IDX <= RING
    ensures Ahead(prod, cons) + len <= RING && Idx(prod + len) < IDX
    ensures Ahead(Idx(prod + len), cons) == Ahead(prod, cons) + len
    ensures Idx(prod + len) > Idx(cons + RING) <==> AlarmAt(cons, Ahead(prod, cons) + len)
  {
    var used := Distance(prod, cons);
    assert (prod + len - cons) % IDX == used + len by {
      Wrapped(prod + len - cons, used + len);
    }
    var p := if prod + len < IDX then prod + len else prod + len - IDX;
    Wrapped(prod + len, p);
    Wrapped(p - cons, used + len);
    Wrapped(cons + RING, if cons + RING < IDX then cons + RING else cons + RING - IDX);
  }

  lemma Distance(prod: nat, cons: nat) returns (used: nat)
    requires prod < IDX && cons < IDX
    ensures used == Ahead(prod, cons) == if prod >= cons then prod - cons else prod + IDX - cons
  {
    used := if prod >= cons then prod - cons else prod + IDX - cons;
    Wrapped(prod - cons, used);
  }

  lemma Wrapped(x: int, r: nat)
    requires r < IDX && (x == r || x == r + IDX || x == r - IDX)
    ensures x % IDX == r
  {
  }
}
