/** Messages on a connection: each goes out behind its length in four bytes, least significant first, one
    write at a time; the other side reads a header, then a body, from bytes that arrive in arbitrary pieces. */
module Framing {
  import opened Common

  type Byte = x: int | 0 <= x < 256

  type Message = seq<Byte>

  const LIMIT: int := 0x1_0000_0000

  // ---------------------------------------------------------------- frames

  /** Each shift by eight bits divides by 256. */
  function Header(size: nat): seq<Byte> {
    [size % 256, size / 256 % 256, size / 256 / 256 % 256, size / 256 / 256 / 256 % 256]
  }

  function Size(header: seq<Byte>): nat
    requires |header| == 4
  {
    header[0] as int + header[1] as int * 0x100 + header[2] as int * 0x1_0000 + header[3] as int * 0x100_0000
  }

  function Frame(m: Message): seq<Byte> { Header(|m|) + m }

  function Frames(messages: seq<Message>): seq<Byte> {
    if |messages| == 0 then [] else Frame(messages[0]) + Frames(messages[1..])
  }

  lemma LowDigit(n: nat)
    ensures n == 256 * (n / 256) + n % 256
  {
  }

  lemma Remainder(p: nat, rest: nat)
    requires rest < LIMIT
    ensures (LIMIT * p + rest) % LIMIT == rest
  {
  }

  lemma HeaderRoundTrip(size: nat)
    ensures Size(Header(size)) == size % LIMIT
  {
    var a := size / 256;
    var b := a / 256;
    var c := b / 256;
    LowDigit(size);
    LowDigit(a);
    LowDigit(b);
    LowDigit(c);
    Remainder(c / 256, Size(Header(size)));
  }

  lemma {:induction false} FramesConcat(a: seq<Message>, b: seq<Message>)
    ensures Frames(a + b) == Frames(a) + Frames(b)
  {
    if |a| == 0 {
      assert a + b == b;
    } else {
      assert (a + b)[0] == a[0] && (a + b)[1..] == a[1..] + b;
      FramesConcat(a[1..], b);
      assert Frame(a[0]) + (Frames(a[1..]) + Frames(b)) == (Frame(a[0]) + Frames(a[1..])) + Frames(b);
    }
  }

  // ---------------------------------------------------------------- reading

  /** What has arrived and not been read, the size of the body being waited for (none: waiting for a
      header), and the messages read. */
  datatype Reader = Reader(bytes: seq<Byte>, size: Option<nat>, messages: seq<Message>)

  const NOTHING: Reader := Reader([], None, [])

  predicate CanRead(r: Reader) { |r.bytes| >= if r.size.None? then 4 else r.size.value }

  /** One read completes. */
  function Read(r: Reader): Reader
    requires CanRead(r)
  {
    if r.size.None? then Reader(r.bytes[4..], Some(Size(r.bytes[..4])), r.messages)
    else Reader(r.bytes[r.size.value..], None, r.messages + [r.bytes[..r.size.value]])
  }

  /** Reads follow one another for as long as there are bytes for them. */
  function ReadAll(r: Reader): Reader
    decreases |r.bytes|, if r.size.Some? then 1 else 0
  {
    if CanRead(r) then ReadAll(Read(r)) else r
  }

  function Arrived(r: Reader, bytes: seq<Byte>): Reader { ReadAll(r.(bytes := r.bytes + bytes)) }

  function ArrivedInPieces(r: Reader, pieces: seq<seq<Byte>>): Reader
    decreases |pieces|
  {
    if |pieces| == 0 then r else ArrivedInPieces(Arrived(r, pieces[0]), pieces[1..])
  }

  function Joined(pieces: seq<seq<Byte>>): seq<Byte> {
    if |pieces| == 0 then [] else pieces[0] + Joined(pieces[1..])
  }

  /** Bytes that come later do not change how those already there are read. */
  lemma {:induction false} ReadAllThenMore(r: Reader, more: seq<Byte>)
    ensures Arrived(ReadAll(r), more) == Arrived(r, more)
    ensures !CanRead(ReadAll(r))
    decreases |r.bytes|, if r.size.Some? then 1 else 0
  {
    if CanRead(r) {
      var n := if r.size.None? then 4 else r.size.value;
      assert (r.bytes + more)[..n] == r.bytes[..n] && (r.bytes + more)[n..] == r.bytes[n..] + more;
      ReadAllThenMore(Read(r), more);
    }
  }

  /** However the bytes are cut into pieces. */
  lemma {:induction false} PiecesDoNotMatter(r: Reader, pieces: seq<seq<Byte>>)
    requires !CanRead(r)
    ensures ArrivedInPieces(r, pieces) == Arrived(r, Joined(pieces))
    decreases |pieces|
  {
    if |pieces| == 0 {
      assert r.bytes + [] == r.bytes;
    } else {
      var all := r.(bytes := r.bytes + pieces[0]);
      ReadAllThenMore(all, Joined(pieces[1..]));
      PiecesDoNotMatter(ReadAll(all), pieces[1..]);
      assert r.bytes + Joined(pieces) == all.bytes + Joined(pieces[1..]);
    }
  }

  lemma {:induction false} OneRead(r: Reader)
    requires CanRead(r)
    ensures ReadAll(r) == ReadAll(Read(r))
  {
  }

  lemma ReadHeader(m: Message, rest: seq<Byte>, done: seq<Message>)
    requires |m| < LIMIT
    ensures var r := Reader(Frame(m) + rest, None, done);
            CanRead(r) && Read(r) == Reader(m + rest, Some(|m|), done)
  {
    var bytes := Frame(m) + rest;
    HeaderRoundTrip(|m|);
    assert bytes[..4] == Header(|m|) && bytes[4..] == m + rest;
  }

  lemma ReadBody(m: Message, rest: seq<Byte>, done: seq<Message>)
    ensures var r := Reader(m + rest, Some(|m|), done);
            CanRead(r) && Read(r) == Reader(rest, None, done + [m])
  {
    assert (m + rest)[..|m|] == m && (m + rest)[|m|..] == rest;
  }

  /** One frame is read back as its message, and what follows it as if it had come alone. */
  lemma ReadFrame(m: Message, rest: seq<Byte>, done: seq<Message>)
    requires |m| < LIMIT
    ensures ReadAll(Reader(Frame(m) + rest, None, done)) == ReadAll(Reader(rest, None, done + [m]))
  {
    ReadHeader(m, rest, done);
    OneRead(Reader(Frame(m) + rest, None, done));
    ReadBody(m, rest, done);
    OneRead(Reader(m + rest, Some(|m|), done));
  }

  lemma FrameIsReadIff(m: Message)
    ensures ReadAll(Reader(Frame(m), None, [])) == Reader([], None, [m]) <==> |m| < LIMIT
  {
    assert Frame(m) + [] == Frame(m);
    if |m| < LIMIT {
      ReadFrame(m, [], []);
      assert [] + [m] == [m];
    } else {
      var r := Reader(Frame(m), None, []);
      HeaderRoundTrip(|m|);
      assert r.bytes[..4] == Header(|m|) && r.bytes[4..] == m;
      var first := Read(Read(r));
      var n := |m| % LIMIT;
      assert |first.messages[0]| == n < |m|;
      MessagesGrow(first);
    }
  }

  /** What has been read stays read. */
  lemma {:induction false} MessagesGrow(r: Reader)
    ensures r.messages <= ReadAll(r).messages
    decreases |r.bytes|, if r.size.Some? then 1 else 0
  {
    if CanRead(r) {
      MessagesGrow(Read(r));
    }
  }

  predicate AllFit(messages: seq<Message>) {
    forall i :: 0 <= i < |messages| ==> |messages[i]| < LIMIT
  }

  lemma {:induction false} FramesAreRead(messages: seq<Message>, done: seq<Message>)
    requires AllFit(messages)
    ensures ReadAll(Reader(Frames(messages), None, done)) == Reader([], None, done + messages)
    decreases |messages|
  {
    if |messages| == 0 {
      assert done + messages == done;
    } else {
      ReadFrame(messages[0], Frames(messages[1..]), done);
      FramesAreRead(messages[1..], done + [messages[0]]);
      assert (done + [messages[0]]) + messages[1..] == done + messages;
    }
  }

  /** Whatever part of the frames has arrived, in whatever pieces, the messages read are the first of those
      sent, and all of them once everything has arrived. */
  lemma {:induction false} PiecesAreReadInOrder(messages: seq<Message>, pieces: seq<seq<Byte>>)
    requires AllFit(messages) && Joined(pieces) <= Frames(messages)
    ensures ArrivedInPieces(NOTHING, pieces).messages <= messages
    ensures Joined(pieces) == Frames(messages) ==> ArrivedInPieces(NOTHING, pieces) == Reader([], None, messages)
  {
    var arrived, all := Joined(pieces), Frames(messages);
    assert ArrivedInPieces(NOTHING, pieces) == ReadAll(Reader(arrived, None, [])) by {
      PiecesDoNotMatter(NOTHING, pieces);
      assert [] + arrived == arrived;
    }
    assert ReadAll(Reader(all, None, [])) == Reader([], None, messages) by {
      FramesAreRead(messages, []);
      assert [] + messages == messages;
    }
    PartIsRead(arrived, all);
  }

  lemma PartIsRead(arrived: seq<Byte>, all: seq<Byte>)
    requires arrived <= all
    ensures ReadAll(Reader(arrived, None, [])).messages <= ReadAll(Reader(all, None, [])).messages
  {
    var missing := all[|arrived|..];
    assert arrived + missing == all;
    var soFar := ReadAll(Reader(arrived, None, []));
    ReadAllThenMore(Reader(arrived, None, []), missing);
    MessagesGrow(soFar.(bytes := soFar.bytes + missing));
  }

  class MessageReader {
    var headerData: seq<Byte>
    var pending: seq<Byte>
    var size: Option<nat>
    var messages: seq<Message>

    function View(): Reader
      reads this
    {
      Reader(pending, size, messages)
    }

    constructor ()
      ensures View() == NOTHING
    {
      headerData, pending, size, messages := [], [], None, [];
    }

    /** The handlers of the two reads call one another for as long as there are enough bytes. */
    method Receive(piece: seq<Byte>)
      modifies this
      ensures View() == Arrived(old(View()), piece)
    {
      pending := pending + piece;
      while |pending| >= if size.None? then 4 else size.value
        invariant ReadAll(View()) == Arrived(old(View()), piece)
        decreases |pending|, if size.Some? then 1 else 0
      {
        if size.None? {
          headerData, pending := pending[..4], pending[4..];
          size := Some(Size(headerData));
        } else {
          messages, pending := messages + [pending[..size.value]], pending[size.value..];
          size := None;
        }
      }
    }
  }
}
