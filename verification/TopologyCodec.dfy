/** The bytes a rank sends about its host (src/telemetry/topology_builder.cpp), and the bounds-checked reader. */
module TopologyCodec {
  import opened Common

  type U8 = x: int | 0 <= x < 0x100
  type U16 = x: int | 0 <= x < 0x1_0000
  type U32 = x: int | 0 <= x < 0x1_0000_0000
  type U64 = x: int | 0 <= x < 0x1_0000_0000_0000_0000

  datatype Socket = Socket(id: U8, physicalCores: U16, logicalCores: U16, name: seq<U8>, cpuIds: seq<U32>)

  /** The serialized part of a topology_node. */
  datatype Node = Node(hostname: seq<U8>, physicalCores: U16, logicalCores: U16, memBytes: U64, sockets: seq<Socket>)

  function Pow256(n: nat): (p: nat)
    ensures p >= 1
  {
    if n == 0 then 1 else 256 * Pow256(n - 1)
  }

  /* ---------- writing ---------- */

  /** The low n bytes of v, least significant first: put_u8, put_u16, put_u32 and put_u64, casts included. */
  function Put(v: nat, n: nat): (s: seq<U8>)
    ensures |s| == n
  {
    if n == 0 then [] else [v % 256] + Put(v / 256, n - 1)
  }

  /** The k-th byte written is the k-th lowest of the number. */
  lemma {:induction false} PutBytes(v: nat, n: nat, k: nat)
    requires k < n
    ensures Put(v, n)[k] == v / Pow256(k) % 256
  {
    if k > 0 {
      PutBytes(v / 256, n - 1, k - 1);
      QuotientOfQuotient(v, Pow256(k - 1));
    }
  }

  lemma QuotientOfQuotient(v: nat, p: nat)
    requires p >= 1
    ensures v / 256 / p == v / (256 * p)
  {
    var a, b := v / 256, v / 256 / p;
    var r := 256 * (a % p) + v % 256;
    assert v == 256 * a + v % 256 && a == p * b + a % p;
    assert v == (256 * p) * b + r && 0 <= r < 256 * p;
    QuotientIs(v, 256 * p, b, r);
  }

  lemma QuotientIs(v: nat, m: nat, q: nat, r: nat)
    requires m >= 1 && v == m * q + r && r < m
    ensures v / m == q
  {
    var q' := v / m;
    assert v == m * q' + v % m;
    Multiple(m, q' - q);
    assert m * (q' - q) == r - v % m;
  }

  function PutStr(s: seq<U8>): seq<U8> {
    var len := if |s| < 0xFFFF then |s| else 0xFFFF;
    Put(len, 2) + s[..len]
  }

  function PutCpus(ids: seq<U32>): seq<U8> {
    if ids == [] then [] else Put(ids[0], 4) + PutCpus(ids[1..])
  }

  function PutSocket(s: Socket): seq<U8> {
    Put(s.id, 1) + (Put(s.physicalCores, 2)
      + (Put(s.logicalCores, 2) + (PutStr(s.name) + (Put(|s.cpuIds|, 4) + PutCpus(s.cpuIds)))))
  }

  function PutSockets(ss: seq<Socket>): seq<U8> {
    if ss == [] then [] else PutSocket(ss[0]) + PutSockets(ss[1..])
  }

  /** serialize_node_topology */
  function Encode(n: Node): seq<U8> {
    PutStr(n.hostname) + (Put(n.physicalCores, 2) + (Put(n.logicalCores, 2)
      + (Put(n.memBytes, 8) + (Put(|n.sockets|, 2) + PutSockets(n.sockets)))))
  }

  /** Strings and the socket count fit 16 bits, CPU lists 32. */
  predicate Fits(n: Node) {
    && |n.hostname| <= 0xFFFF && |n.sockets| <= 0xFFFF
    && forall s | s in n.sockets :: FitsSocket(s)
  }

  predicate FitsSocket(s: Socket) {
    |s.name| <= 0xFFFF && |s.cpuIds| <= 0xFFFF_FFFF
  }

  /* ---------- reading ---------- */

  /** byte_reader */
  datatype Reader = Reader(data: seq<U8>, pos: nat, ok: bool) {
    predicate In() {
      pos <= |data|
    }

    /** take */
    predicate Has(n: nat) {
      pos + n <= |data|
    }

    /** The cursor behind the next n bytes. */
    function Skip(n: nat): Reader {
      this.(pos := pos + n)
    }
  }

  /** The number that little-endian bytes stand for. */
  function Number(s: seq<U8>): (v: nat) {
    if s == [] then 0 else s[0] + 256 * Number(s[1..])
  }

  /** u8, u16, u32 and u64: zero and the latch on overrun. */
  function Get(r: Reader, n: nat): (nat, Reader) {
    if r.Has(n) then (Number(r.data[r.pos..r.pos + n]), r.Skip(n)) else (0, r.(ok := false))
  }

  function GetStr(r: Reader): (seq<U8>, Reader) {
    var (len, r1) := Get(r, 2);
    if r1.Has(len) then (r1.data[r1.pos..r1.pos + len], r1.Skip(len)) else ([], r1.(ok := false))
  }

  lemma {:induction false} NumberBound(s: seq<U8>)
    ensures Number(s) < Pow256(|s|)
  {
    if s != [] {
      NumberBound(s[1..]);
    }
  }

  lemma GetBound(r: Reader, n: nat)
    ensures Get(r, n).0 < Pow256(n)
  {
    if r.Has(n) {
      NumberBound(r.data[r.pos..r.pos + n]);
    }
  }

  /** A number of n bytes, cut to its type; GetBound shows that nothing is cut. */
  function Get8(r: Reader): (U8, Reader) {
    GetBound(r, 1);
    assert Pow256(0) == 1;
    Get(r, 1)
  }

  function Get16(r: Reader): (U16, Reader) {
    GetBound(r, 2);
    assert Pow256(1) == 256 * Pow256(0);
    Get(r, 2)
  }

  function Get32(r: Reader): (U32, Reader) {
    GetBound(r, 4);
    assert Pow256(1) == 256 * Pow256(0) && Pow256(3) == 256 * Pow256(2);
    Get(r, 4)
  }

  function Get64(r: Reader): (U64, Reader) {
    GetBound(r, 8);
    assert Pow256(1) == 256 * Pow256(0) && Pow256(3) == 256 * Pow256(2)
      && Pow256(5) == 256 * Pow256(4) && Pow256(7) == 256 * Pow256(6);
    Get(r, 8)
  }

  /** The loop over count CPU ids; it stops at the first overrun, whose zero it has taken already. */
  function GetCpus(r: Reader, count: nat): (seq<U32>, Reader)
    decreases count
  {
    if count == 0 || !r.ok then ([], r)
    else
      var (id, r1) := Get32(r);
      var (ids, r2) := GetCpus(r1, count - 1);
      ([id] + ids, r2)
  }

  function GetSocket(r: Reader): (Socket, Reader) {
    var (id, r1) := Get8(r);
    var (physical, r2) := Get16(r1);
    var (logical, r3) := Get16(r2);
    var (name, r4) := GetStr(r3);
    var (count, r5) := Get32(r4);
    var (ids, r6) := GetCpus(r5, count);
    (Socket(id, physical, logical, name, ids), r6)
  }

  function GetSockets(r: Reader, count: nat): (seq<Socket>, Reader)
    decreases count
  {
    if count == 0 || !r.ok then ([], r)
    else
      var (s, r1) := GetSocket(r);
      var (ss, r2) := GetSockets(r1, count - 1);
      ([s] + ss, r2)
  }

  /** deserialize_node_topology; the node counts only if the reader is still ok. */
  function GetNode(r: Reader): (Node, Reader) {
    var (hostname, r1) := GetStr(r);
    var (physical, r2) := Get16(r1);
    var (logical, r3) := Get16(r2);
    var (mem, r4) := Get64(r3);
    var (count, r5) := Get16(r4);
    var (sockets, r6) := GetSockets(r5, count);
    (Node(hostname, physical, logical, mem, sockets), r6)
  }

  function Decode(data: seq<U8>): (Node, Reader) {
    GetNode(Reader(data, 0, true))
  }

  /* ---------- reading undoes writing ---------- */

  /** s is what comes next. */
  predicate Next(r: Reader, s: seq<U8>) {
    r.ok && r.Has(|s|) && r.data[r.pos..r.pos + |s|] == s
  }

  lemma NextSplit(r: Reader, a: seq<U8>, b: seq<U8>)
    requires Next(r, a + b)
    ensures Next(r, a) && Next(r.Skip(|a|), b) && r.Skip(|a|).Skip(|b|) == r.Skip(|a + b|)
  {
    var s := r.data[r.pos..r.pos + |a + b|];
    assert s[..|a|] == a && s[|a|..] == b;
  }

  lemma {:induction false} NumberPut(v: nat, n: nat)
    ensures v < Pow256(n) ==> Number(Put(v, n)) == v
  {
    if n > 0 {
      NumberPut(v / 256, n - 1);
      assert Put(v, n)[1..] == Put(v / 256, n - 1);
    }
  }

  lemma GetPut(r: Reader, v: nat, n: nat)
    requires Next(r, Put(v, n)) && v < Pow256(n)
    ensures Get(r, n) == (v, r.Skip(n))
  {
    NumberPut(v, n);
  }

  lemma Widths()
    ensures Pow256(1) == 0x100 && Pow256(2) == 0x1_0000 && Pow256(4) == 0x1_0000_0000
    ensures Pow256(8) == 0x1_0000_0000_0000_0000
  {
    assert Pow256(0) == 1 && Pow256(3) == 256 * Pow256(2) && Pow256(5) == 256 * Pow256(4)
      && Pow256(7) == 256 * Pow256(6);
  }

  lemma GetPutStr(r: Reader, s: seq<U8>)
    requires Next(r, PutStr(s)) && |s| <= 0xFFFF
    ensures GetStr(r) == (s, r.Skip(|PutStr(s)|))
  {
    Widths();
    assert s[..|s|] == s;
    NextSplit(r, Put(|s|, 2), s);
    GetPut(r, |s|, 2);
  }

  lemma {:induction false} GetPutCpus(r: Reader, ids: seq<U32>)
    requires Next(r, PutCpus(ids))
    ensures GetCpus(r, |ids|) == (ids, r.Skip(|PutCpus(ids)|))
    decreases |ids|
  {
    if ids != [] {
      NextSplit(r, Put(ids[0], 4), PutCpus(ids[1..]));
      Widths();
      GetPut(r, ids[0], 4);
      GetPutCpus(r.Skip(4), ids[1..]);
      assert [ids[0]] + ids[1..] == ids;
    }
  }

  lemma GetPutSocket(r: Reader, s: Socket)
    requires Next(r, PutSocket(s)) && FitsSocket(s)
    ensures GetSocket(r) == (s, r.Skip(|PutSocket(s)|))
  {
    hide Put, PutStr, PutCpus, Get, GetStr, GetCpus, Next, Pow256;
    Widths();
    var f := PutCpus(s.cpuIds);
    var e := Put(|s.cpuIds|, 4) + f;
    var d := PutStr(s.name) + e;
    var c := Put(s.logicalCores, 2) + d;
    var b := Put(s.physicalCores, 2) + c;
    NextSplit(r, Put(s.id, 1), b);
    GetPut(r, s.id, 1);
    var r1 := r.Skip(1);
    NextSplit(r1, Put(s.physicalCores, 2), c);
    GetPut(r1, s.physicalCores, 2);
    var r2 := r1.Skip(2);
    NextSplit(r2, Put(s.logicalCores, 2), d);
    GetPut(r2, s.logicalCores, 2);
    var r3 := r2.Skip(2);
    NextSplit(r3, PutStr(s.name), e);
    GetPutStr(r3, s.name);
    var r4 := r3.Skip(|PutStr(s.name)|);
    NextSplit(r4, Put(|s.cpuIds|, 4), f);
    GetPut(r4, |s.cpuIds|, 4);
    GetPutCpus(r4.Skip(4), s.cpuIds);
  }

  lemma {:induction false} GetPutSockets(r: Reader, ss: seq<Socket>)
    requires Next(r, PutSockets(ss)) && forall s | s in ss :: FitsSocket(s)
    ensures GetSockets(r, |ss|) == (ss, r.Skip(|PutSockets(ss)|))
    decreases |ss|
  {
    hide PutSocket, GetSocket;
    if ss != [] {
      NextSplit(r, PutSocket(ss[0]), PutSockets(ss[1..]));
      GetPutSocket(r, ss[0]);
      GetPutSockets(r.Skip(|PutSocket(ss[0])|), ss[1..]);
      assert [ss[0]] + ss[1..] == ss;
    }
  }

  lemma GetPutNode(r: Reader, n: Node)
    requires Next(r, Encode(n)) && Fits(n)
    ensures GetNode(r) == (n, r.Skip(|Encode(n)|))
  {
    hide Put, PutStr, PutSockets, Get, GetStr, GetSockets, Next, Pow256;
    Widths();
    var f := PutSockets(n.sockets);
    var e := Put(|n.sockets|, 2) + f;
    var d := Put(n.memBytes, 8) + e;
    var c := Put(n.logicalCores, 2) + d;
    var b := Put(n.physicalCores, 2) + c;
    NextSplit(r, PutStr(n.hostname), b);
    GetPutStr(r, n.hostname);
    var r1 := r.Skip(|PutStr(n.hostname)|);
    NextSplit(r1, Put(n.physicalCores, 2), c);
    GetPut(r1, n.physicalCores, 2);
    var r2 := r1.Skip(2);
    NextSplit(r2, Put(n.logicalCores, 2), d);
    GetPut(r2, n.logicalCores, 2);
    var r3 := r2.Skip(2);
    NextSplit(r3, Put(n.memBytes, 8), e);
    GetPut(r3, n.memBytes, 8);
    var r4 := r3.Skip(8);
    NextSplit(r4, Put(|n.sockets|, 2), f);
    GetPut(r4, |n.sockets|, 2);
    GetPutSockets(r4.Skip(2), n.sockets);
  }

  /* ---------- long texts ---------- */

  /** What is left of a text: its first 65535 bytes. */
  function Clipped(s: seq<U8>): seq<U8> {
    if |s| <= 0xFFFF then s else s[..0xFFFF]
  }

  function Shortened(n: Node): Node {
    n.(hostname := Clipped(n.hostname), sockets := ShortenedAll(n.sockets))
  }

  function ShortenedAll(ss: seq<Socket>): (r: seq<Socket>)
    ensures |r| == |ss| && forall i | 0 <= i < |ss| :: r[i] == ss[i].(name := Clipped(ss[i].name))
  {
    if ss == [] then [] else [ss[0].(name := Clipped(ss[0].name))] + ShortenedAll(ss[1..])
  }

  /** The sockets can be counted in 16 bits, and the CPU ids of each in 32. */
  predicate Countable(n: Node) {
    |n.sockets| <= 0xFFFF && forall s | s in n.sockets :: |s.cpuIds| <= 0xFFFF_FFFF
  }

  lemma {:induction false} ShortenedSockets(ss: seq<Socket>)
    ensures PutSockets(ShortenedAll(ss)) == PutSockets(ss)
  {
    if ss != [] {
      ClippedText(ss[0].name);
      ShortenedSockets(ss[1..]);
      var rs := ShortenedAll(ss);
      assert rs[1..] == ShortenedAll(ss[1..]);
    }
  }

  lemma ClippedText(s: seq<U8>)
    ensures PutStr(Clipped(s)) == PutStr(s) && |Clipped(s)| <= 0xFFFF
  {
    hide Put;
  }

  lemma EncodeShortened(n: Node)
    ensures Encode(Shortened(n)) == Encode(n) && (Countable(n) ==> Fits(Shortened(n)))
    ensures Fits(n) ==> Countable(n) && Shortened(n) == n
  {
    hide Put, PutStr, PutSockets;
    ClippedText(n.hostname);
    ShortenedSockets(n.sockets);
    if Fits(n) {
      forall i | 0 <= i < |n.sockets| ensures ShortenedAll(n.sockets)[i] == n.sockets[i] {
        assert n.sockets[i] in n.sockets;
      }
    }
  }

  /** deserialize_node_topology inverts serialize_node_topology and uses every byte; only long texts are clipped. */
  lemma DecodeEncode(n: Node)
    requires Countable(n)
    ensures Decode(Encode(n)) == (Shortened(n), Reader(Encode(n), |Encode(n)|, true))
    ensures Fits(n) ==> Shortened(n) == n
  {
    EncodeShortened(n);
    hide Encode, Fits, GetNode;
    var r := Reader(Encode(n), 0, true);
    assert r.data[0..|Encode(n)|] == Encode(n);
    GetPutNode(r, Shortened(n));
  }

  /* ---------- where each field stands ---------- */

  /** The bytes from one index on, as a little-endian number. */
  function NumberAt(s: seq<U8>, at: nat, n: nat): nat
    requires at + n <= |s|
  {
    Number(s[at..at + n])
  }

  /** s has the number v in n bytes at this index, and the rest behind them. */
  ghost predicate Holds(s: seq<U8>, at: nat, v: nat, n: nat, rest: seq<U8>) {
    at + n <= |s| && NumberAt(s, at, n) == v && s[at + n..] == rest
  }

  lemma HeldNumber(s: seq<U8>, at: nat, v: nat, n: nat, rest: seq<U8>)
    requires at <= |s| && s[at..] == Put(v, n) + rest && v < Pow256(n)
    ensures Holds(s, at, v, n, rest)
  {
    hide Put, Pow256, Number;
    NumberPut(v, n);
    var t := s[at..];
    assert t[..n] == Put(v, n) && t[n..] == rest && s[at..at + n] == t[..n] && s[at + n..] == t[n..];
  }

  lemma HeldText(s: seq<U8>, at: nat, text: seq<U8>, rest: seq<U8>)
    requires at <= |s| && s[at..] == PutStr(text) + rest && |text| <= 0xFFFF
    ensures Holds(s, at, |text|, 2, text + rest)
    ensures at + 2 + |text| <= |s| && s[at + 2..at + 2 + |text|] == text && s[at + 2 + |text|..] == rest
  {
    Widths();
    assert text[..|text|] == text && PutStr(text) + rest == Put(|text|, 2) + (text + rest);
    HeldNumber(s, at, |text|, 2, text + rest);
    hide Put, Pow256;
    var t := s[at + 2..];
    assert t[..|text|] == text && t[|text|..] == rest;
  }

  /** The host name with its length, 16 bits each for the cores, 64 for the memory, the sockets with their number. */
  lemma NodeLayout(n: Node)
    requires Fits(n)
    ensures var s, h := Encode(n), |n.hostname|;
            && |s| >= h + 16 && NumberAt(s, 0, 2) == h && s[2..2 + h] == n.hostname
            && NumberAt(s, 2 + h, 2) == n.physicalCores && NumberAt(s, 4 + h, 2) == n.logicalCores
            && NumberAt(s, 6 + h, 8) == n.memBytes && NumberAt(s, 14 + h, 2) == |n.sockets|
            && s[16 + h..] == PutSockets(n.sockets)
  {
    hide Put, PutStr, PutSockets, Pow256, NumberAt;
    Widths();
    var s, h := Encode(n), |n.hostname|;
    var f := PutSockets(n.sockets);
    var e := Put(|n.sockets|, 2) + f;
    var d := Put(n.memBytes, 8) + e;
    var c := Put(n.logicalCores, 2) + d;
    var b := Put(n.physicalCores, 2) + c;
    assert s[0..] == s;
    HeldText(s, 0, n.hostname, b);
    HeldNumber(s, 2 + h, n.physicalCores, 2, c);
    HeldNumber(s, 4 + h, n.logicalCores, 2, d);
    HeldNumber(s, 6 + h, n.memBytes, 8, e);
    HeldNumber(s, 14 + h, |n.sockets|, 2, f);
  }

  /** The id, 16 bits each for the cores, the name with its length, and the CPU ids, 32 bits each, with their number. */
  lemma SocketLayout(s: Socket)
    requires FitsSocket(s)
    ensures var t, m := PutSocket(s), |s.name|;
            && |t| == m + 11 + 4 * |s.cpuIds| && NumberAt(t, 0, 1) == s.id
            && NumberAt(t, 1, 2) == s.physicalCores && NumberAt(t, 3, 2) == s.logicalCores
            && NumberAt(t, 5, 2) == m && t[7..7 + m] == s.name && NumberAt(t, 7 + m, 4) == |s.cpuIds|
            && forall k | 0 <= k < |s.cpuIds| :: NumberAt(t, 11 + m + 4 * k, 4) == s.cpuIds[k]
  {
    hide Put, PutStr, PutCpus, Pow256, NumberAt;
    Widths();
    var t, m := PutSocket(s), |s.name|;
    var f := PutCpus(s.cpuIds);
    var e := Put(|s.cpuIds|, 4) + f;
    var d := PutStr(s.name) + e;
    var c := Put(s.logicalCores, 2) + d;
    var b := Put(s.physicalCores, 2) + c;
    assert t[0..] == t;
    HeldNumber(t, 0, s.id, 1, b);
    HeldNumber(t, 1, s.physicalCores, 2, c);
    HeldNumber(t, 3, s.logicalCores, 2, d);
    HeldText(t, 5, s.name, e);
    HeldNumber(t, 7 + m, |s.cpuIds|, 4, f);
    HeldCpus(t, 11 + m, s.cpuIds);
  }

  lemma {:induction false} HeldCpus(t: seq<U8>, at: nat, ids: seq<U32>)
    requires at <= |t| && t[at..] == PutCpus(ids)
    ensures |t| == at + 4 * |ids| && forall k | 0 <= k < |ids| :: NumberAt(t, at + 4 * k, 4) == ids[k]
    decreases |ids|
  {
    hide Put, Pow256, NumberAt;
    if ids != [] {
      Widths();
      HeldNumber(t, at, ids[0], 4, PutCpus(ids[1..]));
      HeldCpus(t, at + 4, ids[1..]);
      forall k | 0 <= k < |ids| ensures NumberAt(t, at + 4 * k, 4) == ids[k] {
        if k > 0 {
          assert ids[k] == ids[1..][k - 1] && at + 4 * k == at + 4 + 4 * (k - 1);
        }
      }
    }
  }

  /* ---------- strict prefixes ---------- */

  /** With more bytes behind: what an ok read returned, it returns again. */
  ghost predicate Extends<T>(r: Reader, more: seq<U8>, before: (T, Reader), after: (T, Reader)) {
    && before.1.data == r.data && r.pos <= before.1.pos && (r.In() ==> before.1.In())
    && (before.1.ok ==> r.ok && after == (before.0, Longer(before.1, more)))
  }

  function Longer(r: Reader, more: seq<U8>): Reader {
    r.(data := r.data + more)
  }

  lemma GetExtends(r: Reader, n: nat, more: seq<U8>)
    ensures Extends(r, more, Get(r, n), Get(Longer(r, more), n))
  {
    if r.Has(n) {
      assert (r.data + more)[r.pos..r.pos + n] == r.data[r.pos..r.pos + n];
    }
  }

  lemma GetStrExtends(r: Reader, more: seq<U8>)
    ensures Extends(r, more, GetStr(r), GetStr(Longer(r, more)))
  {
    GetExtends(r, 2, more);
    var (len, r1) := Get(r, 2);
    if r1.Has(len) {
      assert (r.data + more)[r1.pos..r1.pos + len] == r.data[r1.pos..r1.pos + len];
    }
  }

  lemma {:induction false} GetCpusExtends(r: Reader, count: nat, more: seq<U8>)
    ensures Extends(r, more, GetCpus(r, count), GetCpus(Longer(r, more), count))
    decreases count
  {
    hide Get;
    if count > 0 && r.ok {
      GetExtends(r, 4, more);
      GetCpusExtends(Get32(r).1, count - 1, more);
    }
  }

  lemma GetSocketExtends(r: Reader, more: seq<U8>)
    ensures Extends(r, more, GetSocket(r), GetSocket(Longer(r, more)))
  {
    hide Get, GetStr, GetCpus;
    GetExtends(r, 1, more);
    var r1 := Get(r, 1).1;
    GetExtends(r1, 2, more);
    var r2 := Get(r1, 2).1;
    GetExtends(r2, 2, more);
    var r3 := Get(r2, 2).1;
    GetStrExtends(r3, more);
    var r4 := GetStr(r3).1;
    GetExtends(r4, 4, more);
    GetCpusExtends(Get(r4, 4).1, Get(r4, 4).0, more);
  }

  lemma {:induction false} GetSocketsExtends(r: Reader, count: nat, more: seq<U8>)
    ensures Extends(r, more, GetSockets(r, count), GetSockets(Longer(r, more), count))
    decreases count
  {
    hide GetSocket;
    if count > 0 && r.ok {
      GetSocketExtends(r, more);
      GetSocketsExtends(GetSocket(r).1, count - 1, more);
    }
  }

  lemma GetNodeExtends(r: Reader, more: seq<U8>)
    ensures Extends(r, more, GetNode(r), GetNode(Longer(r, more)))
  {
    hide Get, GetStr, GetSockets;
    GetStrExtends(r, more);
    var r1 := GetStr(r).1;
    GetExtends(r1, 2, more);
    var r2 := Get(r1, 2).1;
    GetExtends(r2, 2, more);
    var r3 := Get(r2, 2).1;
    GetExtends(r3, 8, more);
    var r4 := Get(r3, 8).1;
    GetExtends(r4, 2, more);
    GetSocketsExtends(Get(r4, 2).1, Get(r4, 2).0, more);
  }

  /** Whatever the bytes, reading ends with the cursor inside them. */
  lemma CursorStaysInside(data: seq<U8>)
    ensures Decode(data).1.data == data && Decode(data).1.pos <= |data|
  {
    GetNodeExtends(Reader(data, 0, true), []);
  }

  /** Every strict prefix of an encoding is rejected. */
  lemma PrefixRejected(n: Node, cut: nat)
    requires Countable(n) && cut < |Encode(n)|
    ensures !Decode(Encode(n)[..cut]).1.ok
  {
    hide Encode, Fits, GetNode, Shortened;
    var s := Encode(n);
    var r := Reader(s[..cut], 0, true);
    assert s[..cut] + s[cut..] == s;
    GetNodeExtends(r, s[cut..]);
    DecodeEncode(n);
  }

  /* ---------- the code ---------- */

  class ByteReader {
    const data: seq<U8>
    var pos: nat
    var ok: bool

    function Value(): Reader
      reads this
    {
      Reader(data, pos, ok)
    }

    constructor (data: seq<U8>)
      ensures Value() == Reader(data, 0, true)
    {
      this.data, pos, ok := data, 0, true;
    }

    method Take(n: nat) returns (has: bool)
      modifies this`ok
      ensures has == old(Value()).Has(n) && Value() == if has then old(Value()) else old(Value()).(ok := false)
    {
      if pos + n > |data| {
        ok := false;
        return false;
      }
      return true;
    }

    /** u8, u16, u32 and u64: the bytes are shifted into place one by one. */
    method Uint(n: nat) returns (v: nat)
      modifies this`pos, this`ok
      ensures (v, Value()) == Get(old(Value()), n)
    {
      v := 0;
      var has := Take(n);
      if !has {
        return;
      }
      var weight: nat := 1;
      assert data[pos..pos + n][..0] == [];
      for i := 0 to n
        invariant pos == old(pos) && ok == old(ok) && weight == Pow256(i) && v == Number(data[pos..pos + i])
      {
        NumberBack(data[pos..pos + i], data[pos + i]);
        assert data[pos..pos + i] + [data[pos + i]] == data[pos..pos + i + 1];
        v := v + weight * data[pos + i];
        weight := 256 * weight;
      }
      pos := pos + n;
    }

    method Str() returns (s: seq<U8>)
      modifies this`pos, this`ok
      ensures (s, Value()) == GetStr(old(Value()))
    {
      var len := Uint(2);
      var has := Take(len);
      if !has {
        return [];
      }
      s := data[pos..pos + len];
      pos := pos + len;
    }
  }

  lemma {:induction false} NumberBack(s: seq<U8>, b: U8)
    ensures Number(s + [b]) == Number(s) + Pow256(|s|) * b
  {
    if s != [] {
      assert (s + [b])[1..] == s[1..] + [b];
      NumberBack(s[1..], b);
    }
  }

  lemma UintFits(r: Reader)
    ensures Get(r, 1).0 < 0x100 && Get(r, 2).0 < 0x1_0000 && Get(r, 4).0 < 0x1_0000_0000
    ensures Get(r, 8).0 < 0x1_0000_0000_0000_0000
  {
    Widths();
    GetBound(r, 1);
    GetBound(r, 2);
    GetBound(r, 4);
    GetBound(r, 8);
  }

  method ReadSocket(reader: ByteReader) returns (socket: Socket)
    modifies reader`pos, reader`ok
    ensures (socket, reader.Value()) == GetSocket(old(reader.Value()))
  {
    hide Get, GetStr;
    ghost var r := reader.Value();
    UintFits(r);
    var id := reader.Uint(1);
    UintFits(reader.Value());
    var physical := reader.Uint(2);
    UintFits(reader.Value());
    var logical := reader.Uint(2);
    var name := reader.Str();
    ghost var r4 := reader.Value();
    UintFits(r4);
    var count := reader.Uint(4);
    ghost var r5 := reader.Value();
    var ids: seq<U32> := [];
    var j := 0;
    assert ids + GetCpus(r5, count).0 == GetCpus(r5, count).0;
    while j < count && reader.ok
      invariant j <= count
      invariant (ids + GetCpus(reader.Value(), count - j).0, GetCpus(reader.Value(), count - j).1) == GetCpus(r5, count)
    {
      UintFits(reader.Value());
      ghost var rest := GetCpus(Get32(reader.Value()).1, count - j - 1).0;
      var cpu := reader.Uint(4);
      assert ids + ([cpu] + rest) == (ids + [cpu]) + rest;
      ids := ids + [cpu];
      j := j + 1;
    }
    assert ids + [] == ids;
    socket := Socket(id, physical, logical, name, ids);
  }

  method DeserializeNodeTopology(data: seq<U8>) returns (node: Node, ok: bool)
    ensures node == Decode(data).0 && ok == Decode(data).1.ok
  {
    hide Get, GetStr, GetSocket;
    var reader := new ByteReader(data);
    var hostname := reader.Str();
    UintFits(reader.Value());
    var physical := reader.Uint(2);
    UintFits(reader.Value());
    var logical := reader.Uint(2);
    UintFits(reader.Value());
    var mem := reader.Uint(8);
    UintFits(reader.Value());
    var count := reader.Uint(2);
    ghost var r5 := reader.Value();
    var sockets: seq<Socket> := [];
    var i := 0;
    assert sockets + GetSockets(r5, count).0 == GetSockets(r5, count).0;
    while i < count && reader.ok
      invariant i <= count
      invariant (sockets + GetSockets(reader.Value(), count - i).0, GetSockets(reader.Value(), count - i).1)
        == GetSockets(r5, count)
    {
      ghost var rest := GetSockets(GetSocket(reader.Value()).1, count - i - 1).0;
      var socket := ReadSocket(reader);
      assert sockets + ([socket] + rest) == (sockets + [socket]) + rest;
      sockets := sockets + [socket];
      i := i + 1;
    }
    assert sockets + [] == sockets;
    node := Node(hostname, physical, logical, mem, sockets);
    ok := reader.ok;
  }

  lemma Join(out: seq<U8>, p: seq<seq<U8>>, last: seq<U8>)
    requires |p| == 5
    ensures out + p[0] + p[1] + p[2] + p[3] + p[4] + last == out + (p[0] + (p[1] + (p[2] + (p[3] + (p[4] + last)))))
  {
  }

  /** The put functions push byte by byte onto a buffer. */
  class Buffer {
    var bytes: seq<U8>

    constructor ()
      ensures bytes == []
    {
      bytes := [];
    }

    method PutUint(v: nat, n: nat)
      modifies this
      ensures bytes == old(bytes) + Put(v, n)
    {
      var rest := v;
      for i := 0 to n
        invariant bytes + Put(rest, n - i) == old(bytes) + Put(v, n)
      {
        assert bytes + ([rest % 256] + Put(rest / 256, n - i - 1))
          == (bytes + [rest % 256]) + Put(rest / 256, n - i - 1);
        bytes := bytes + [rest % 256];
        rest := rest / 256;
      }
    }

    method PutString(s: seq<U8>)
      modifies this
      ensures bytes == old(bytes) + PutStr(s)
    {
      var len := if |s| < 0xFFFF then |s| else 0xFFFF;
      PutUint(len, 2);
      assert old(bytes) + Put(len, 2) + s[..len] == old(bytes) + (Put(len, 2) + s[..len]);
      bytes := bytes + s[..len];
    }

    method SerializeSocket(s: Socket)
      modifies this
      ensures bytes == old(bytes) + PutSocket(s)
    {
      hide Put, PutStr;
      PutUint(s.id, 1);
      PutUint(s.physicalCores, 2);
      PutUint(s.logicalCores, 2);
      PutString(s.name);
      PutUint(|s.cpuIds|, 4);
      ghost var head := bytes;
      for j := 0 to |s.cpuIds|
        invariant bytes + PutCpus(s.cpuIds[j..]) == head + PutCpus(s.cpuIds)
      {
        assert s.cpuIds[j..][1..] == s.cpuIds[j + 1..];
        assert bytes + (Put(s.cpuIds[j], 4) + PutCpus(s.cpuIds[j + 1..]))
          == (bytes + Put(s.cpuIds[j], 4)) + PutCpus(s.cpuIds[j + 1..]);
        PutUint(s.cpuIds[j], 4);
      }
      assert PutCpus(s.cpuIds[|s.cpuIds|..]) == [];
      Join(old(bytes), [Put(s.id, 1), Put(s.physicalCores, 2), Put(s.logicalCores, 2),
        PutStr(s.name), Put(|s.cpuIds|, 4)], PutCpus(s.cpuIds));
    }

    method SerializeNodeTopology(n: Node)
      modifies this
      ensures bytes == old(bytes) + Encode(n)
    {
      hide Put, PutStr, PutSocket;
      PutString(n.hostname);
      PutUint(n.physicalCores, 2);
      PutUint(n.logicalCores, 2);
      PutUint(n.memBytes, 8);
      PutUint(|n.sockets|, 2);
      ghost var head := bytes;
      for i := 0 to |n.sockets|
        invariant bytes + PutSockets(n.sockets[i..]) == head + PutSockets(n.sockets)
      {
        assert n.sockets[i..][1..] == n.sockets[i + 1..];
        assert bytes + (PutSocket(n.sockets[i]) + PutSockets(n.sockets[i + 1..]))
          == (bytes + PutSocket(n.sockets[i])) + PutSockets(n.sockets[i + 1..]);
        SerializeSocket(n.sockets[i]);
      }
      assert PutSockets(n.sockets[|n.sockets|..]) == [];
      Join(old(bytes), [PutStr(n.hostname), Put(n.physicalCores, 2), Put(n.logicalCores, 2),
        Put(n.memBytes, 8), Put(|n.sockets|, 2)], PutSockets(n.sockets));
    }
  }
}
