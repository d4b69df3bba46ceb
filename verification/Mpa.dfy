/** MPA over a socket: sending one frame gathered from pieces, and reading a frame piece by piece. */
module Mpa {
  import opened Options
  import opened Wire

  /** A connected stream socket: the bytes the peer has sent or will send, and those sent to it. A receive may return
      fewer bytes than asked for, but at least one while there are any; an eager socket does not split reads of up
      to four bytes. A send may fail, but not on a reliable socket. */
  class Socket {
    var incoming: seq<byte>
    var sent: seq<byte>
    const eager: bool
    const reliable: bool

    constructor (incoming: seq<byte>, eager: bool, reliable: bool)
      ensures this.incoming == incoming && this.sent == [] && this.eager == eager && this.reliable == reliable
    {
      this.incoming, this.sent, this.eager, this.reliable := incoming, [], eager, reliable;
    }

    method Recv(n: nat) returns (r: seq<byte>)
      modifies this`incoming
      ensures |r| <= n && |r| <= |old(incoming)| && r == old(incoming)[..|r|] && incoming == old(incoming)[|r|..]
      ensures n > 0 && |old(incoming)| > 0 ==> |r| > 0
      ensures eager && n <= 4 && n <= |old(incoming)| ==> |r| == n
    {
      var most := if n < |incoming| then n else |incoming|;
      var k: nat := most;
      if most > 1 && !(eager && n <= 4) { k :| 1 <= k <= most; }
      r := incoming[..k];
      incoming := incoming[k..];
    }

    method Send(bytes: seq<byte>) returns (ok: bool)
      modifies this`sent
      ensures sent == if ok then old(sent) + bytes else old(sent)
      ensures reliable ==> ok
    {
      ok := *;
      if reliable { ok := true; }
      if ok { sent := sent + bytes; }
    }
  }

  /** `siw_mpa_packet`: how much of the current frame has been read. Its header is read whole or not at all. */
  class Packet {
    var ulpduLen: nat
    var bytesRcvd: nat

    constructor ()
      ensures ulpduLen == 0 && bytesRcvd == 0
    {
      ulpduLen, bytesRcvd := 0, 0;
    }
  }

  /** Short is the source's -1 and Empty its -2; Stuck stands for a payload loop that never ends, because the stream
      ended after some of the bytes it waits for. */
  datatype Outcome = Done | Short | Empty | Stuck

  // ---------------------------------------------------------------- the specification of a read

  datatype View = View(incoming: seq<byte>, len: nat, rcvd: nat)

  ghost function ViewOf(sock: Socket, pkt: Packet): View
    reads sock, pkt
  {
    View(sock.incoming, pkt.ulpduLen, pkt.bytesRcvd)
  }

  ghost function WithHeader(v: View): Option<View> {
    if v.rcvd >= MPA_HDR then Some(v)
    else if |v.incoming| < MPA_HDR then None
    else Some(View(v.incoming[MPA_HDR..], FromBe(v.incoming[..MPA_HDR]), MPA_HDR))
  }

  /** How much of the ULPDU has not been read; negative once the trailer has been read. */
  ghost function Remaining(v: View): int { v.len - (v.rcvd - MPA_HDR) }

  /** The next `n` bytes of the ULPDU, or what is left of it together with the trailer. */
  ghost function ReadBody(v: View, n: int): Option<(seq<byte>, View)> {
    var rem := Remaining(v);
    var want := if rem <= n then rem else n;
    var trailer := if rem <= n then TrailerLength(v.len) else 0;
    if v.len == 0 || want < 0 || |v.incoming| < want + trailer then None
    else Some((v.incoming[..want], View(v.incoming[want + trailer..], v.len, v.rcvd + want + trailer)))
  }

  ghost function Read(v: View, n: int): Option<(seq<byte>, View)> {
    var w := WithHeader(v);
    if w.None? then None else ReadBody(w.value, n)
  }

  // ---------------------------------------------------------------- reading

  /** `mpa_recv`. It succeeds with exactly what `Read` gives; if small reads come whole it succeeds whenever the
      bytes are there. */
  method MpaRecv(sock: Socket, pkt: Packet, n: int) returns (o: Outcome, data: seq<byte>)
    requires pkt.bytesRcvd == 0 || pkt.bytesRcvd >= MPA_HDR
    modifies sock`incoming, pkt
    ensures pkt.bytesRcvd == 0 || pkt.bytesRcvd >= MPA_HDR
    ensures o.Done? ==> Read(old(ViewOf(sock, pkt)), n) == Some((data, ViewOf(sock, pkt)))
    ensures sock.eager && Read(old(ViewOf(sock, pkt)), n).Some? ==> o.Done?
  {
    if pkt.bytesRcvd < MPA_HDR {
      var header := sock.Recv(MPA_HDR);
      if |header| < MPA_HDR { return Short, []; }
      pkt.ulpduLen := FromBe(header);
      pkt.bytesRcvd := MPA_HDR;
    }
    assert WithHeader(old(ViewOf(sock, pkt))) == Some(ViewOf(sock, pkt));
    o, data := RecvBody(sock, pkt, n);
  }

  method RecvBody(sock: Socket, pkt: Packet, n: int) returns (o: Outcome, data: seq<byte>)
    requires pkt.bytesRcvd >= MPA_HDR
    modifies sock`incoming, pkt
    ensures pkt.bytesRcvd >= MPA_HDR
    ensures o.Done? ==> ReadBody(old(ViewOf(sock, pkt)), n) == Some((data, ViewOf(sock, pkt)))
    ensures sock.eager && ReadBody(old(ViewOf(sock, pkt)), n).Some? ==> o.Done?
  {
    var len := pkt.ulpduLen;
    if len == 0 { return Empty, []; }
    var rem := len - (pkt.bytesRcvd - MPA_HDR);
    var want := if rem <= n then rem else n;
    o, data := ReadPayload(sock, want);
    if !o.Done? { return; }
    pkt.bytesRcvd := pkt.bytesRcvd + |data|;
    if rem <= n {
      o := ReadTrailer(sock, pkt, TrailerLength(len), len);
    }
  }

  /** The loop that tolerates short reads. A negative count is taken for a huge one by the socket, and never
      matches what comes back. */
  method ReadPayload(sock: Socket, want: int) returns (o: Outcome, data: seq<byte>)
    modifies sock`incoming
    ensures o.Done? <==> 0 <= want <= |old(sock.incoming)|
    ensures o.Done? ==> data == old(sock.incoming)[..want] && sock.incoming == old(sock.incoming)[want..]
  {
    ghost var was := sock.incoming;
    if want < 0 {
      data := sock.Recv(want % W64);
      return Short, data;
    }
    data := sock.Recv(want);
    while 0 < |data| < want
      invariant |data| <= want && |data| <= |was| && data == was[..|data|] && sock.incoming == was[|data|..]
      invariant |data| == 0 ==> want == 0 || was == []
      decreases want - |data|
    {
      var more := sock.Recv(want - |data|);
      if |more| == 0 { return Stuck, data; }
      data := data + more;
    }
    o := if |data| == want then Done else Short;
  }

  method ReadTrailer(sock: Socket, pkt: Packet, ghost total: nat, len: nat) returns (o: Outcome)
    requires total == TrailerLength(len)
    modifies sock`incoming, pkt`bytesRcvd
    ensures pkt.bytesRcvd >= old(pkt.bytesRcvd)
    ensures o.Done? ==> |old(sock.incoming)| >= total && sock.incoming == old(sock.incoming)[total..]
    ensures o.Done? ==> pkt.bytesRcvd == old(pkt.bytesRcvd) + total
    ensures sock.eager && |old(sock.incoming)| >= total ==> o.Done?
  {
    var pad := sock.Recv(PadLength(len));
    if |pad| < PadLength(len) { return Short; }
    pkt.bytesRcvd := pkt.bytesRcvd + |pad|;
    var crc := sock.Recv(MPA_CRC);
    if |crc| != MPA_CRC { return Short; }
    pkt.bytesRcvd := pkt.bytesRcvd + |crc|;
    o := Done;
  }

  // ---------------------------------------------------------------- a frame read in pieces

  /** `k` bytes of the ULPDU of the first frame of `stream` have been read, and its trailer too once they are all
      there is. */
  ghost predicate ReadUpTo(v: View, stream: seq<byte>, len: nat, k: nat) {
    && |stream| >= MPA_HDR && len == FromBe(stream[..MPA_HDR]) && k <= len
    && if k == 0 then v.rcvd == 0 && v.incoming == stream
       else if k < len then v.len == len && v.rcvd == MPA_HDR + k && |stream| >= v.rcvd
         && v.incoming == stream[v.rcvd..]
       else v.len == len && v.rcvd == FrameLength(len) && |stream| >= v.rcvd && v.incoming == stream[v.rcvd..]
  }

  /** Bytes of the stream needed before `k` bytes of the ULPDU can have been read. */
  ghost function NeededFor(len: nat, k: nat): nat { if k == len then FrameLength(len) else MPA_HDR + k }

  ghost function Min(a: int, b: int): int { if a <= b then a else b }

  /** Reading goes on exactly where it stopped, and takes the trailer with the last bytes. */
  lemma ReadGoesOn(v: View, stream: seq<byte>, len: nat, k: nat, n: nat)
    requires ReadUpTo(v, stream, len, k) && k < len && n > 0
    ensures var k' := Min(k + n, len);
            && (Read(v, n).Some? <==> |stream| >= NeededFor(len, k'))
            && (Read(v, n).Some? ==>
                Read(v, n).value.0 == stream[MPA_HDR + k..MPA_HDR + k']
                  && ReadUpTo(Read(v, n).value.1, stream, len, k'))
  {
    var w := WithHeader(v).value;
    assert w == View(stream[MPA_HDR + k..], len, MPA_HDR + k);
    BodyGoesOn(w, stream, len, k, n);
  }

  lemma BodyGoesOn(w: View, stream: seq<byte>, len: nat, k: nat, n: nat)
    requires |stream| >= MPA_HDR + k && len == FromBe(stream[..MPA_HDR]) && k < len && n > 0
    requires w == View(stream[MPA_HDR + k..], len, MPA_HDR + k)
    ensures var k' := Min(k + n, len); var r := ReadBody(w, n);
            && (r.Some? <==> |stream| >= NeededFor(len, k'))
            && (r.Some? ==> r.value.0 == stream[MPA_HDR + k..MPA_HDR + k'] && ReadUpTo(r.value.1, stream, len, k'))
  {
    assert Remaining(w) == len - k;
  }

  /** When all of the ULPDU has been read the stream has been parsed. */
  lemma ReadUpToEnd(v: View, stream: seq<byte>, len: nat)
    requires ReadUpTo(v, stream, len, len) && len > 0
    ensures ParseFrame(stream) == Some((stream[MPA_HDR..MPA_HDR + len], v.incoming))
  {
  }

  function Sum(sizes: seq<nat>): nat {
    if sizes == [] then 0 else Sum(sizes[..|sizes| - 1]) + sizes[|sizes| - 1]
  }

  lemma {:induction false} SumPrefix(sizes: seq<nat>, i: nat)
    requires i < |sizes|
    ensures Sum(sizes[..i + 1]) == Sum(sizes[..i]) + sizes[i] && Sum(sizes[..i + 1]) <= Sum(sizes)
    decreases |sizes| - i
  {
    assert sizes[..i + 1][..i] == sizes[..i];
    if i + 1 < |sizes| { SumPrefix(sizes, i + 1); } else { assert sizes[..i + 1] == sizes; }
  }

  /** Reading a frame with any split of its ULPDU into positive sizes, under any short reads, gives what parsing the
      whole frame gives, piece by piece, and leaves the stream at the next frame. */
  method ReadInPieces(sock: Socket, sizes: seq<nat>, ghost u: seq<byte>, ghost rest: seq<byte>)
    returns (o: Outcome, pieces: seq<seq<byte>>)
    requires ParseFrame(sock.incoming) == Some((u, rest)) && Sum(sizes) == |u|
             && forall i :: 0 <= i < |sizes| ==> sizes[i] > 0
    modifies sock`incoming
    ensures o.Done? ==> |pieces| == |sizes| && Concat(pieces) == u && sock.incoming == rest
    ensures o.Done? ==> forall i :: 0 <= i < |sizes| ==> |pieces[i]| == sizes[i]
    ensures sock.eager ==> o.Done?
  {
    ghost var stream, len, k := sock.incoming, |u|, 0;
    var pkt := new Packet();
    pieces, o := [], Done;
    for i := 0 to |sizes|
      invariant fresh(pkt) && (pkt.bytesRcvd == 0 || pkt.bytesRcvd >= MPA_HDR)
      invariant |pieces| == i && o.Done? && forall j :: 0 <= j < i ==> |pieces[j]| == sizes[j]
      invariant k == Sum(sizes[..i]) && k <= len && ReadUpTo(ViewOf(sock, pkt), stream, len, k)
      invariant Concat(pieces) == u[..k]
    {
      SumPrefix(sizes, i);
      var data: seq<byte>;
      o, data := ReadPiece(sock, pkt, sizes[i], stream, u, rest, k);
      if !o.Done? { return; }
      ConcatNext(pieces, data);
      pieces := pieces + [data];
      k := k + sizes[i];
    }
    assert sizes[..|sizes|] == sizes;
    ReadUpToEnd(ViewOf(sock, pkt), stream, len);
  }

  method ReadPiece(sock: Socket, pkt: Packet, n: nat, ghost stream: seq<byte>, ghost u: seq<byte>,
                   ghost rest: seq<byte>, ghost k: nat)
    returns (o: Outcome, data: seq<byte>)
    requires (pkt.bytesRcvd == 0 || pkt.bytesRcvd >= MPA_HDR) && ParseFrame(stream) == Some((u, rest))
    requires ReadUpTo(ViewOf(sock, pkt), stream, |u|, k) && 0 < n && k + n <= |u|
    modifies sock`incoming, pkt
    ensures pkt.bytesRcvd == 0 || pkt.bytesRcvd >= MPA_HDR
    ensures o.Done? ==> ReadUpTo(ViewOf(sock, pkt), stream, |u|, k + n) && |data| == n && u[..k] + data == u[..k + n]
    ensures sock.eager ==> o.Done?
  {
    ReadGoesOn(ViewOf(sock, pkt), stream, |u|, k, n);
    NextPiece(stream, u, rest, k, n);
    o, data := MpaRecv(sock, pkt, n);
  }

  lemma NextPiece(stream: seq<byte>, u: seq<byte>, rest: seq<byte>, k: nat, n: nat)
    requires ParseFrame(stream) == Some((u, rest)) && k + n <= |u|
    ensures MPA_HDR + k + n <= |stream| && stream[MPA_HDR + k..MPA_HDR + k + n] == u[k..k + n]
            && u[..k] + u[k..k + n] == u[..k + n]
  {
  }

  // ---------------------------------------------------------------- sending

  /** What goes out for any ULPDU: the length is kept in 16 bits. */
  function SentFrame(ulpdu: seq<byte>): seq<byte> {
    Be(|ulpdu| % W16, MPA_HDR) + ulpdu + Trailer(|ulpdu| % W16)
  }

  lemma SentFrameIsFrame(ulpdu: seq<byte>)
    requires |ulpdu| < W16
    ensures SentFrame(ulpdu) == Frame(ulpdu)
  {
    var n := |ulpdu|;
    assert n % W16 == n;
  }

  /** `mpa_send`: header, pieces, padding and CRC are gathered into one message. */
  method MpaSend(sock: Socket, pieces: seq<seq<byte>>) returns (ok: bool)
    modifies sock`sent
    ensures sock.sent == if ok then old(sock.sent) + SentFrame(Concat(pieces)) else old(sock.sent)
    ensures sock.reliable ==> ok
  {
    var len, ulpdu := Gather(pieces);
    var pad: seq<byte> := [];
    for i := 0 to PadLength(len)
      invariant pad == Zeros(i)
    {
      pad := pad + [0];
    }
    var message := Be(len, MPA_HDR) + ulpdu + (pad + Zeros(MPA_CRC));
    ok := sock.Send(message);
  }

  /** The length, summed in 16 bits, and the bytes of the pieces. */
  method Gather(pieces: seq<seq<byte>>) returns (len: nat, ulpdu: seq<byte>)
    ensures ulpdu == Concat(pieces) && len == |ulpdu| % W16
  {
    len, ulpdu := 0, [];
    for i := 0 to |pieces|
      invariant ulpdu == Concat(pieces[..i]) && len == |ulpdu| % W16
    {
      assert pieces[..i + 1] == pieces[..i] + [pieces[i]];
      ConcatNext(pieces[..i], pieces[i]);
      len := (len + |pieces[i]|) % W16;
      ulpdu := ulpdu + pieces[i];
    }
    assert pieces[..|pieces|] == pieces;
  }
}
