/** Message transport: the staging buffer, the chunking loop, and the zero-padded frame. */
module Transport {
  import opened CText

  const SIZE: nat := 1024
  const NUL: char := 0 as char

  class Socket {
    /** The bytes of each completed send, oldest first. */
    var sent: seq<seq<char>>
    /** How many more sends succeed. */
    var credit: nat

    constructor (n: nat)
      ensures sent == [] && credit == n
    {
      sent, credit := [], n;
    }
  }

  // ----- specification -------------------------------------------------------------------

  /** `strncpy` of a C string into `n` bytes: its first `n` bytes, then zeros. */
  function Pad(s: CString, n: nat): (b: seq<char>)
    ensures |b| == n
    ensures forall i :: 0 <= i < n ==> b[i] == if i < |s| then s[i] else NUL
  {
    seq(n, i requires 0 <= i < n => if i < |s| then s[i] else NUL)
  }

  function Flatten(chunks: seq<seq<char>>): seq<char> {
    if chunks == [] then [] else Flatten(chunks[..|chunks| - 1]) + chunks[|chunks| - 1]
  }

  /** The first `k` whole chunks of a message. */
  function Whole(msg: CString, k: nat): (w: seq<seq<char>>)
    requires k * SIZE <= |msg|
    ensures |w| == k
  {
    if k == 0 then [] else Whole(msg, k - 1) + [msg[(k - 1) * SIZE..k * SIZE]]
  }

  /** A send takes nothing from a buffer that starts with the terminator; beyond the staging buffer
      it takes whatever bytes follow it in memory. */
  function Taken(buffer: seq<char>, beyond: seq<char>, n: nat): seq<seq<char>>
    requires |buffer| > 0 && n <= |buffer| + |beyond|
  {
    if n == 0 || buffer[0] == NUL then [] else [(buffer + beyond)[..n]]
  }

  /** Everything send_message passes to the socket. */
  function Sends(msg: CString, size: nat, beyond: seq<char>): seq<seq<char>>
    requires size > SIZE ==> size <= |msg|
    requires |msg| <= |beyond|
  {
    if size <= SIZE then Taken(Pad(if size <= |msg| then msg[..size] else msg, SIZE), beyond, size)
    else
      var k := size / SIZE;
      Whole(msg, k) + Taken(Pad(msg[k * SIZE..], SIZE), beyond, |msg|)
  }

  // ----- the program ---------------------------------------------------------------------

  method StrNCpy(buffer: array<char>, src: CString, n: nat)
    requires n <= buffer.Length
    modifies buffer
    ensures buffer[..n] == Pad(src, n)
    ensures buffer[n..] == old(buffer[n..])
  {
    for i := 0 to n
      invariant forall k :: 0 <= k < i ==> buffer[k] == if k < |src| then src[k] else NUL
      invariant forall k :: i <= k < buffer.Length ==> buffer[k] == old(buffer[k])
    {
      buffer[i] := if i < |src| then src[i] else NUL;
    }
  }

  /** What sending these in turn does to a socket: it stops at the first send that fails. */
  ghost predicate Sent(before: seq<seq<char>>, credit: nat, chunks: seq<seq<char>>, after: seq<seq<char>>, left: nat, rc: int) {
    if |chunks| <= credit then rc == 0 && after == before + chunks && left == credit - |chunks|
    else rc == 1 && after == before + chunks[..credit] && left == 0
  }

  /** send_message_to_socket. */
  method SendToSocket(buffer: array<char>, beyond: seq<char>, n: nat, sock: Socket) returns (rc: int)
    requires buffer.Length > 0 && n <= buffer.Length + |beyond|
    modifies sock
    ensures Sent(old(sock.sent), old(sock.credit), Taken(buffer[..], beyond, n), sock.sent, sock.credit, rc)
  {
    if n == 0 || buffer[0] == NUL { return 0; }
    if sock.credit == 0 { return 1; }
    sock.credit := sock.credit - 1;
    sock.sent := sock.sent + [(buffer[..] + beyond)[..n]];
    return 0;
  }

  lemma {:induction false} ChunkEnds(k: nat, size: nat)
    requires k * SIZE <= size < (k + 1) * SIZE
    ensures k == size / SIZE
  {
  }

  /** The staging buffer during the loop holds exactly the chunk that is sent. */
  lemma {:induction false} FullPad(msg: CString, lo: nat, beyond: seq<char>)
    requires lo + SIZE <= |msg|
    ensures Taken(Pad(msg[lo..], SIZE), beyond, SIZE) == [msg[lo..lo + SIZE]]
  {
    assert (Pad(msg[lo..], SIZE) + beyond)[..SIZE] == msg[lo..lo + SIZE];
    assert Pad(msg[lo..], SIZE)[0] == msg[lo];
  }

  lemma {:induction false} WholeGrows(msg: CString, k: nat, n: nat)
    requires k <= n && n * SIZE <= |msg|
    ensures Whole(msg, n) == Whole(msg, k) + Whole(msg, n)[k..]
  {
    if k < n { WholeGrows(msg, k, n - 1); }
  }

  /** Sending on after everything so far went out. */
  lemma {:induction false} SendsOn(s0: seq<seq<char>>, c0: nat, xs: seq<seq<char>>, s1: seq<seq<char>>, c1: nat,
                                   ys: seq<seq<char>>, s2: seq<seq<char>>, c2: nat, rc: int)
    requires Sent(s0, c0, xs, s1, c1, 0) && Sent(s1, c1, ys, s2, c2, rc)
    ensures Sent(s0, c0, xs + ys, s2, c2, rc)
  {
    if |ys| > c1 { assert (xs + ys)[..c0] == xs + ys[..c1]; }
  }

  /** Nothing more is sent after a failure. */
  lemma {:induction false} StopsAtFailure(s0: seq<seq<char>>, c0: nat, xs: seq<seq<char>>, s1: seq<seq<char>>, c1: nat,
                                          ys: seq<seq<char>>)
    requires Sent(s0, c0, xs, s1, c1, 1)
    ensures Sent(s0, c0, xs + ys, s1, c1, 1)
  {
    assert (xs + ys)[..c0] == xs[..c0];
  }

  /** The loop of send_message: all whole chunks, through the staging buffer. */
  method SendChunks(msg: CString, size: nat, staging: array<char>, beyond: seq<char>, sock: Socket)
    returns (rc: int, slice: nat)
    requires size <= |msg| && staging.Length == SIZE
    modifies staging, sock
    ensures rc == 0 ==> slice == size / SIZE * SIZE
    ensures Sent(old(sock.sent), old(sock.credit), Whole(msg, size / SIZE), sock.sent, sock.credit, rc)
  {
    slice := 0;
    ghost var k := 0;
    while slice + SIZE <= size
      invariant slice == k * SIZE <= size
      invariant Sent(old(sock.sent), old(sock.credit), Whole(msg, k), sock.sent, sock.credit, 0)
    {
      ghost var s1, c1 := sock.sent, sock.credit;
      ghost var chunk := [msg[slice..slice + SIZE]];
      StrNCpy(staging, msg[slice..], SIZE);
      FullPad(msg, slice, beyond);
      assert staging[..] == staging[..SIZE];
      rc := SendToSocket(staging, beyond, SIZE, sock);
      SendsOn(old(sock.sent), old(sock.credit), Whole(msg, k), s1, c1, chunk, sock.sent, sock.credit, rc);
      slice := slice + SIZE;
      k := k + 1;
      if rc != 0 {
        WholeGrows(msg, k, size / SIZE);
        StopsAtFailure(old(sock.sent), old(sock.credit), Whole(msg, k), sock.sent, sock.credit, Whole(msg, size / SIZE)[k..]);
        return 1, slice;
      }
    }
    ChunkEnds(k, size);
    return 0, slice;
  }

  /** send_message. */
  method SendMessage(msg: CString, size: nat, beyond: seq<char>, sock: Socket) returns (rc: int)
    requires size > SIZE ==> size <= |msg|
    requires |msg| <= |beyond|
    modifies sock
    ensures Sent(old(sock.sent), old(sock.credit), Sends(msg, size, beyond), sock.sent, sock.credit, rc)
  {
    var staging := new char[SIZE](_ => NUL);
    if size <= SIZE {
      StrNCpy(staging, msg, size);
      assert staging[..] == Pad(if size <= |msg| then msg[..size] else msg, SIZE) by {
        assert forall i :: 0 <= i < size ==> staging[i] == staging[..size][i];
        assert forall i :: size <= i < SIZE ==> staging[i] == staging[size..][i - size];
      }
      rc := SendToSocket(staging, beyond, size, sock);
      return;
    }
    var slice;
    rc, slice := SendChunks(msg, size, staging, beyond, sock);
    ghost var tail := Taken(Pad(msg[size / SIZE * SIZE..], SIZE), beyond, |msg|);
    if rc != 0 {
      StopsAtFailure(old(sock.sent), old(sock.credit), Whole(msg, size / SIZE), sock.sent, sock.credit, tail);
      return 1;
    }
    ghost var s1, c1 := sock.sent, sock.credit;
    StrNCpy(staging, msg[slice..], SIZE);
    assert staging[..] == staging[..SIZE];
    rc := SendToSocket(staging, beyond, |msg|, sock);
    SendsOn(old(sock.sent), old(sock.credit), Whole(msg, size / SIZE), s1, c1, tail, sock.sent, sock.credit, rc);
  }

  /** recv_tcp_message: the buffer is cleared, then holds the frame; an empty reading is an error. */
  method RecvTcpMessage(frame: seq<char>, buffer: array<char>) returns (rc: int)
    requires buffer.Length == SIZE && |frame| <= SIZE
    modifies buffer
    ensures buffer[..] == frame + seq(SIZE - |frame|, _ => NUL)
    ensures rc == 1 <==> UpToNul(buffer[..]) == []
    ensures rc in {0, 1}
  {
    for i := 0 to SIZE
      invariant forall k :: 0 <= k < i ==> buffer[k] == if k < |frame| then frame[k] else NUL
    {
      buffer[i] := if i < |frame| then frame[i] else NUL;
    }
    return if buffer[0] == NUL then 1 else 0;
  }

  /** What a NUL-terminated reading of a buffer sees. */
  function UpToNul(b: seq<char>): string {
    if b == [] || b[0] == NUL then [] else [b[0]] + UpToNul(b[1..])
  }

  // ----- what arrives --------------------------------------------------------------------

  lemma {:induction false} FlattenAppend(a: seq<seq<char>>, c: seq<char>)
    ensures Flatten(a + [c]) == Flatten(a) + c
  {
    assert (a + [c])[..|a|] == a;
  }

  /** The whole chunks carry exactly the first `k * SIZE` bytes. */
  lemma {:induction false} WholeCarries(msg: CString, k: nat)
    requires k * SIZE <= |msg|
    ensures Flatten(Whole(msg, k)) == msg[..k * SIZE]
  {
    if k > 0 {
      WholeCarries(msg, k - 1);
      FlattenAppend(Whole(msg, k - 1), msg[(k - 1) * SIZE..k * SIZE]);
      assert msg[..(k - 1) * SIZE] + msg[(k - 1) * SIZE..k * SIZE] == msg[..k * SIZE];
    }
  }

  /** A message of at most one buffer arrives as it is. */
  lemma {:induction false} ShortArrives(msg: CString, beyond: seq<char>)
    requires |msg| <= SIZE && |msg| <= |beyond|
    ensures Flatten(Sends(msg, |msg|, beyond)) == msg
  {
    assert msg[..|msg|] == msg;
    if msg != [] {
      assert (Pad(msg, SIZE) + beyond)[..|msg|] == msg;
      FlattenAppend([], msg);
      assert [] + [msg] == [msg];
    }
  }

  /** Where the loop leaves off. */
  function Slice(msg: CString): (n: nat)
    ensures n <= |msg|
  {
    (|msg| / SIZE) * SIZE
  }

  lemma {:induction false} LongCarries(msg: CString, beyond: seq<char>)
    requires SIZE < |msg| <= |beyond|
    ensures Flatten(Sends(msg, |msg|, beyond)) == msg[..Slice(msg)]
         + if |msg| % SIZE == 0 then [] else (Pad(msg[Slice(msg)..], SIZE) + beyond)[..|msg|]
  {
    var k := |msg| / SIZE;
    var tail := Pad(msg[k * SIZE..], SIZE);
    WholeCarries(msg, k);
    if |msg| % SIZE == 0 {
      assert msg[k * SIZE..] == [];
      assert Whole(msg, k) + [] == Whole(msg, k);
    } else {
      assert tail[0] == msg[k * SIZE];
      FlattenAppend(Whole(msg, k), (tail + beyond)[..|msg|]);
    }
  }

  /** Everything sent concatenates to the message exactly when the message fits one buffer or is a
      whole number of buffers; a longer remainder goes out with the length of the whole message. */
  lemma {:induction false} ArrivesExactlyIff(msg: CString, beyond: seq<char>)
    requires |msg| <= |beyond|
    ensures Flatten(Sends(msg, |msg|, beyond)) == msg <==> |msg| <= SIZE || |msg| % SIZE == 0
  {
    if |msg| <= SIZE {
      ShortArrives(msg, beyond);
    } else {
      LongCarries(msg, beyond);
      var k := |msg| / SIZE;
      if |msg| % SIZE == 0 { assert msg[..k * SIZE] == msg; }
    }
  }

  /** The length that would make every message arrive: what is left of it. */
  lemma {:induction false} TailLengthThatWorks(msg: CString, beyond: seq<char>)
    requires SIZE < |msg| <= |beyond|
    ensures var k := |msg| / SIZE;
            Flatten(Whole(msg, k) + Taken(Pad(msg[k * SIZE..], SIZE), beyond, |msg| - k * SIZE)) == msg
  {
    var k := |msg| / SIZE;
    var rest := msg[k * SIZE..];
    var tail := Pad(rest, SIZE);
    WholeCarries(msg, k);
    if rest == [] {
      assert Whole(msg, k) + [] == Whole(msg, k);
      assert msg[..k * SIZE] == msg;
    } else {
      assert tail[0] == rest[0];
      assert (tail + beyond)[..|rest|] == rest;
      FlattenAppend(Whole(msg, k), rest);
      assert msg[..k * SIZE] + rest == msg;
    }
  }

  // ----- the client's frame --------------------------------------------------------------

  lemma {:induction false} UpToNulPad(s: CString, n: nat)
    requires |s| < n
    ensures UpToNul(Pad(s, n)) == s
  {
    if s != [] {
      assert Pad(s, n)[1..] == Pad(s[1..], n - 1);
      UpToNulPad(s[1..], n - 1);
    }
  }

  /** A text shorter than the buffer, sent as one zero-padded buffer and received whole, reads back
      as the same text. */
  lemma {:induction false} FrameRoundTrip(text: CString, beyond: seq<char>)
    requires 0 < |text| < SIZE && |text| <= |beyond|
    ensures Sends(text, SIZE, beyond) == [Pad(text, SIZE)]
    ensures UpToNul(Pad(text, SIZE)) == text
  {
    assert (Pad(text, SIZE) + beyond)[..SIZE] == Pad(text, SIZE);
    assert Pad(text, SIZE)[0] == text[0];
    UpToNulPad(text, SIZE);
  }
}
