/**
 The camera link: frames printed with a total length patched in afterwards, and the
 incremental reader on the other end of the TCP connection, which takes one step per
 readiness notification.
 */
module CameraStream {
  import opened Seqs

  type Byte = b: int | 0 <= b < 256
  type Image = seq<Byte>

  const HEADER := 8            // the 64-bit total
  const LENGTH := 4            // the 32-bit length in front of a byte array
  const LENGTH_LIMIT := 0xFFFF_FFFF

  // ------------------------------------------------------------ big-endian numbers

  function Power256(width: nat): nat {
    if width == 0 then 1 else 256 * Power256(width - 1)
  }

  function BigEndian(n: nat, width: nat): (s: seq<Byte>)
    ensures |s| == width
  {
    if width == 0 then [] else BigEndian(n / 256, width - 1) + [n % 256]
  }

  function FromBigEndian(s: seq<Byte>): nat {
    if s == [] then 0 else 256 * FromBigEndian(s[..|s| - 1]) + s[|s| - 1]
  }

  lemma {:induction false} BigEndianRoundTrip(n: nat, width: nat)
    requires n < Power256(width)
    ensures FromBigEndian(BigEndian(n, width)) == n
    decreases width
  {
    if width > 0 {
      BigEndianRoundTrip(n / 256, width - 1);
      assert BigEndian(n, width)[..width - 1] == BigEndian(n / 256, width - 1);
    }
  }

  /** The number without its last `j` bytes. */
  function Shifted(n: nat, j: nat): nat {
    if j == 0 then n else Shifted(n / 256, j - 1)
  }

  /** The least significant byte comes last, and every byte before it stands for 256 times as much. */
  lemma {:induction false} LeastSignificantLast(n: nat, width: nat, j: nat)
    requires j < width
    ensures BigEndian(n, width)[width - 1 - j] == Shifted(n, j) % 256
    decreases width
  {
    if j > 0 {
      LeastSignificantLast(n / 256, width - 1, j - 1);
    }
  }

  // ------------------------------------------------------------------- the wire

  function Body(image: Image): seq<Byte> {
    BigEndian(|image|, LENGTH) + image
  }

  function Frame(image: Image): seq<Byte> {
    BigEndian(|Body(image)|, HEADER) + Body(image)
  }

  function Wire(images: seq<Image>): seq<Byte> {
    if images == [] then [] else Frame(images[0]) + Wire(images[1..])
  }

  /** Images whose length fits the 32-bit field. */
  ghost predicate Sendable(images: seq<Image>) {
    forall i :: 0 <= i < |images| ==> |images[i]| < LENGTH_LIMIT
  }

  /** Eight bytes of total, four of length, and the image. */
  lemma FrameLayout(image: Image)
    ensures |Frame(image)| == 12 + |image|
    ensures Frame(image)[..8] == BigEndian(4 + |image|, 8)
    ensures Frame(image)[8..12] == BigEndian(|image|, 4) && Frame(image)[12..] == image
  {
  }

  /** The byte buffer under a data stream: writes overwrite at `pos`, then extend. */
  class OutBuffer {
    var bytes: seq<Byte>
    var pos: nat

    constructor ()
      ensures bytes == [] && pos == 0
    {
      bytes, pos := [], 0;
    }

    method Put(data: seq<Byte>)
      requires pos <= |bytes|
      modifies this
      ensures pos == old(pos) + |data| && pos <= |bytes|
      ensures bytes == old(bytes)[..old(pos)] + data
                       + (if pos < |old(bytes)| then old(bytes)[pos..] else [])
    {
      var tail := if pos + |data| < |bytes| then bytes[pos + |data|..] else [];
      bytes := bytes[..pos] + data + tail;
      pos := pos + |data|;
    }
  }

  /** Prints one frame: a blank total, the data, then the total over the blank. */
  method PrintFrame(image: Image) returns (imageBytes: seq<Byte>)
    requires |image| < LENGTH_LIMIT
    ensures imageBytes == Frame(image)
  {
    var out := new OutBuffer();
    out.Put(BigEndian(0, HEADER));
    out.Put(BigEndian(|image|, LENGTH));
    out.Put(image);
    assert out.bytes == BigEndian(0, HEADER) + Body(image);
    out.pos := 0;
    var total := |out.bytes|;
    out.Put(BigEndian(total - HEADER, HEADER));
    imageBytes := out.bytes;
  }

  // ------------------------------------------------------------------- the reader

  /** `size`: the announced size of the frame being awaited, 0 between frames. */
  datatype Reader = Reader(size: nat, buffer: seq<Byte>, shown: seq<Image>)

  const IDLE := Reader(0, [], [])

  datatype Event = Arrive(chunk: seq<Byte>) | Ready

  /** Reads one byte array off the front; with too little data it takes all and yields nothing. */
  function TakeImage(buffer: seq<Byte>): (Image, seq<Byte>)
    requires |buffer| >= LENGTH
  {
    var n := FromBigEndian(buffer[..LENGTH]);
    if LENGTH + n <= |buffer| then (buffer[LENGTH..LENGTH + n], buffer[LENGTH + n..]) else ([], [])
  }

  function Slot(r: Reader): Reader {
    if |r.buffer| <= HEADER then r
    else if r.size == 0 then Reader(FromBigEndian(r.buffer[..HEADER]), r.buffer[HEADER..], r.shown)
    else if |r.buffer| >= r.size then
      var (image, rest) := TakeImage(r.buffer);
      Reader(0, rest, r.shown + [image])
    else r
  }

  function Happen(r: Reader, e: Event): Reader {
    match e
    case Arrive(chunk) => r.(buffer := r.buffer + chunk)
    case Ready => Slot(r)
  }

  function Run(r: Reader, events: seq<Event>): Reader
    decreases |events|
  {
    if events == [] then r else Run(Happen(r, events[0]), events[1..])
  }

  /** Everything that arrives during `events`. */
  function Arrived(events: seq<Event>): seq<Byte>
    decreases |events|
  {
    if events == [] then []
    else (if events[0].Arrive? then events[0].chunk else []) + Arrived(events[1..])
  }

  // -------------------------------------------------------------------- invariant

  /** `rest` of the wire is still to arrive; what was shown are the first images sent. */
  ghost predicate InStep(r: Reader, images: seq<Image>, rest: seq<Byte>) {
    var k := |r.shown|;
    && k <= |images| && r.shown == images[..k]
    && if r.size == 0 then r.buffer + rest == Wire(images[k..])
       else k < |images| && r.size == LENGTH + |images[k]|
            && r.buffer + rest == Body(images[k]) + Wire(images[k + 1..])
  }

  lemma SizeFieldsRoundTrip(image: Image)
    requires |image| < LENGTH_LIMIT
    ensures FromBigEndian(BigEndian(|Body(image)|, HEADER)) == LENGTH + |image|
    ensures FromBigEndian(BigEndian(|image|, LENGTH)) == |image|
  {
    assert Power256(4) == 0x1_0000_0000;
    assert Power256(8) == 0x1_0000_0000 * Power256(4);
    BigEndianRoundTrip(|Body(image)|, HEADER);
    BigEndianRoundTrip(|image|, LENGTH);
  }

  lemma HeaderRead(r: Reader, images: seq<Image>, rest: seq<Byte>)
    requires Sendable(images) && InStep(r, images, rest) && r.size == 0 && |r.buffer| > HEADER
    ensures InStep(Slot(r), images, rest) && Slot(r).size > 0
  {
    var k := |r.shown|;
    assert images[k..] != [];
    SizeFieldsRoundTrip(images[k]);
    var all := r.buffer + rest;
    assert images[k..][0] == images[k] && images[k..][1..] == images[k + 1..];
    assert r.buffer[..HEADER] == all[..HEADER] == BigEndian(|Body(images[k])|, HEADER);
    assert r.buffer[HEADER..] + rest == all[HEADER..] == Body(images[k]) + Wire(images[k + 1..]);
  }

  /** Taking an image off a buffer that holds one whole. */
  lemma BodySplit(buffer: seq<Byte>, image: Image, wire: seq<Byte>, rest: seq<Byte>)
    requires |image| < LENGTH_LIMIT && |buffer| >= LENGTH + |image| && buffer + rest == Body(image) + wire
    ensures TakeImage(buffer) == (image, buffer[LENGTH + |image|..])
    ensures buffer[LENGTH + |image|..] + rest == wire
  {
    SizeFieldsRoundTrip(image);
    var all := buffer + rest;
    assert buffer[..LENGTH] == all[..LENGTH] == BigEndian(|image|, LENGTH);
    assert buffer[LENGTH..LENGTH + |image|] == all[LENGTH..LENGTH + |image|] == image;
    assert buffer[LENGTH + |image|..] + rest == all[LENGTH + |image|..] == wire;
  }

  lemma BodyRead(r: Reader, images: seq<Image>, rest: seq<Byte>)
    requires Sendable(images) && InStep(r, images, rest) && r.size > 0 && |r.buffer| > HEADER && |r.buffer| >= r.size
    ensures InStep(Slot(r), images, rest)
    ensures Slot(r) == Reader(0, r.buffer[r.size..], r.shown + [images[|r.shown|]])
  {
    var k := |r.shown|;
    BodySplit(r.buffer, images[k], Wire(images[k + 1..]), rest);
    assert images[..k] + [images[k]] == images[..k + 1];
  }

  lemma SlotKeepsStep(r: Reader, images: seq<Image>, rest: seq<Byte>)
    requires Sendable(images) && InStep(r, images, rest)
    ensures InStep(Slot(r), images, rest)
  {
    if |r.buffer| > HEADER {
      if r.size == 0 {
        HeaderRead(r, images, rest);
      } else if |r.buffer| >= r.size {
        BodyRead(r, images, rest);
      }
    }
  }

  lemma CutTwice(rest: seq<Byte>, a: seq<Byte>, b: seq<Byte>)
    requires a + b <= rest
    ensures rest == a + rest[|a|..] && b <= rest[|a|..]
    ensures rest[|a + b|..] == rest[|a|..][|b|..]
  {
  }

  lemma {:induction false} RunKeepsStep(r: Reader, events: seq<Event>, images: seq<Image>, rest: seq<Byte>)
    requires Sendable(images) && InStep(r, images, rest) && Arrived(events) <= rest
    ensures InStep(Run(r, events), images, rest[|Arrived(events)|..])
    decreases |events|
  {
    if events == [] {
      assert rest[0..] == rest;
    } else {
      match events[0] {
        case Arrive(chunk) =>
          var later := rest[|chunk|..];
          Assoc(r.buffer, chunk, later);
          CutTwice(rest, chunk, Arrived(events[1..]));
          RunKeepsStep(Happen(r, events[0]), events[1..], images, later);
        case Ready =>
          SlotKeepsStep(r, images, rest);
          assert Arrived(events) == Arrived(events[1..]);
          RunKeepsStep(Slot(r), events[1..], images, rest);
      }
    }
  }

  // ------------------------------------------------------------------- guarantees

  /**
   However TCP cuts the stream and whenever the reader is notified, the images shown are
   the first images sent, and the reader is between frames exactly when the bytes it has
   taken are the frames of those images.
   */
  lemma ShownIsPrefixOfSent(images: seq<Image>, events: seq<Event>)
    requires Sendable(images) && Arrived(events) <= Wire(images)
    ensures var r := Run(IDLE, events);
      && r.shown <= images
      && (r.size == 0 <==> |Arrived(events)| - |r.buffer| == |Wire(r.shown)|)
  {
    var wire := Wire(images);
    assert InStep(IDLE, images, wire) by {
      assert images[0..] == images && [] + wire == wire;
    }
    RunKeepsStep(IDLE, events, images, wire);
    Between(Run(IDLE, events), images, wire[|Arrived(events)|..]);
  }

  /** In step, the bytes not yet taken tell whether the reader is between frames. */
  lemma Between(r: Reader, images: seq<Image>, rest: seq<Byte>)
    requires InStep(r, images, rest)
    ensures r.size == 0 <==> |r.buffer| + |rest| == |Wire(images)| - |Wire(r.shown)|
  {
    var k := |r.shown|;
    WireSplit(images, k);
    assert |r.buffer + rest| == |r.buffer| + |rest|;
    if r.size != 0 {
      WireFirst(images, k);
      FrameSize(images[k]);
    }
  }

  lemma WireFirst(images: seq<Image>, k: nat)
    requires k < |images|
    ensures Wire(images[k..]) == Frame(images[k]) + Wire(images[k + 1..])
  {
    assert images[k..][0] == images[k] && images[k..][1..] == images[k + 1..];
  }

  lemma {:induction false} WireSplit(images: seq<Image>, k: nat)
    requires k <= |images|
    ensures Wire(images) == Wire(images[..k]) + Wire(images[k..])
    decreases k
  {
    if k > 0 {
      WireSplit(images[1..], k - 1);
      assert images[..k][1..] == images[1..][..k - 1] && images[1..][k - 1..] == images[k..];
      assert images[..k][0] == images[0];
    } else {
      assert images[0..] == images;
    }
  }

  function Calls(n: nat): seq<Event> {
    if n == 0 then [] else [Ready] + Calls(n - 1)
  }

  lemma TwoNotifications(r: Reader, n: nat)
    requires n >= 2
    ensures Run(r, Calls(n)) == Run(Slot(Slot(r)), Calls(n - 2))
  {
    assert Calls(n)[1..] == Calls(n - 1) && Calls(n - 1)[1..] == Calls(n - 2);
  }

  /** The last of the buffered images is big enough, or followed by enough, to be read at once. */
  predicate Prompt(images: seq<Image>, extra: seq<Byte>)
    requires images != []
  {
    |images[|images| - 1]| + |extra| > HEADER - LENGTH
  }

  /** What `2 * |images|` notifications make of a buffer that starts with the frames of `images`. */
  ghost predicate Decoded(q: Reader, shown: seq<Image>, images: seq<Image>, extra: seq<Byte>)
    requires images != []
  {
    if Prompt(images, extra) then q == Reader(0, extra, shown + images)
    else q.shown == shown + images[..|images| - 1]
  }

  /**
   With complete frames buffered, two notifications per frame decode them all, unless the
   last frame is so small that fewer than nine bytes remain for it: then, and only then,
   that one is held back until more arrives.
   */
  lemma {:induction false} BufferedFramesDecoded(r: Reader, images: seq<Image>, extra: seq<Byte>)
    requires Sendable(images) && r.size == 0 && r.buffer == Wire(images) + extra && images != []
    ensures Decoded(Run(r, Calls(2 * |images|)), r.shown, images, extra)
    decreases |images|
  {
    if |images| == 1 {
      assert images == [images[0]];
      OnlyFrame(r, images[0], extra);
    } else {
      var after, later := Wire(images[1..]) + extra, images[1..];
      var next := Reader(0, after, r.shown + [images[0]]);
      var q := Run(r, Calls(2 * |images|));
      assert q == Run(next, Calls(2 * |later|)) by {
        FirstOfMany(images, extra);
        PromptFrame(r, images[0], after, 2 * |images|);
      }
      assert Decoded(q, r.shown + [images[0]], later, extra) by {
        BufferedFramesDecoded(next, later, extra);
      }
      MoreFrames(q, r.shown, images, extra);
    }
  }

  lemma FirstOfMany(images: seq<Image>, extra: seq<Byte>)
    requires |images| > 1
    ensures Wire(images) + extra == Frame(images[0]) + (Wire(images[1..]) + extra)
    ensures |Wire(images[1..]) + extra| >= HEADER + LENGTH
  {
    Assoc(Frame(images[0]), Wire(images[1..]), extra);
    WireLonger(images[1..]);
  }

  lemma PromptFrame(r: Reader, image: Image, after: seq<Byte>, n: nat)
    requires |image| < LENGTH_LIMIT && r.size == 0 && r.buffer == Frame(image) + after
    requires |image| + |after| > HEADER - LENGTH && n >= 2
    ensures Run(r, Calls(n)) == Run(Reader(0, after, r.shown + [image]), Calls(n - 2))
  {
    TwoCalls(r, image, after);
    TwoNotifications(r, n);
  }

  lemma OnlyFrame(r: Reader, image: Image, extra: seq<Byte>)
    requires |image| < LENGTH_LIMIT && r.size == 0 && r.buffer == Wire([image]) + extra
    ensures Decoded(Run(r, Calls(2)), r.shown, [image], extra)
  {
    assert Wire([image]) == Frame(image) by { assert [image][1..] == []; }
    TwoCalls(r, image, extra);
    TwoNotifications(r, 2);
    assert [image][..0] == [] && r.shown + [] == r.shown;
  }

  lemma MoreFrames(q: Reader, shown: seq<Image>, images: seq<Image>, extra: seq<Byte>)
    requires |images| > 1 && Decoded(q, shown + [images[0]], images[1..], extra)
    ensures Decoded(q, shown, images, extra)
  {
    SplitFirst(shown, images);
  }

  lemma WireLonger(images: seq<Image>)
    requires images != []
    ensures |Wire(images)| >= HEADER + LENGTH
  {
    FrameSize(images[0]);
  }

  lemma FrameSize(image: Image)
    ensures |Frame(image)| == HEADER + LENGTH + |image|
  {
  }

  lemma SplitFirst(shown: seq<Image>, images: seq<Image>)
    requires |images| > 1
    ensures shown + [images[0]] + images[1..] == shown + images
    ensures shown + [images[0]] + images[1..][..|images| - 2] == shown + images[..|images| - 1]
    ensures images[1..][|images| - 2] == images[|images| - 1]
  {
    assert images == [images[0]] + images[1..];
  }

  /** Two notifications on a buffer that starts with a complete frame. */
  lemma TwoCalls(r: Reader, image: Image, after: seq<Byte>)
    requires |image| < LENGTH_LIMIT && r.size == 0 && r.buffer == Frame(image) + after
    ensures Slot(r) == Reader(LENGTH + |image|, Body(image) + after, r.shown)
    ensures Slot(Slot(r)) ==
      if |image| + |after| > HEADER - LENGTH then Reader(0, after, r.shown + [image]) else Slot(r)
  {
    HeaderCall(r, image, after);
    BodyCall(Slot(r), image, after);
  }

  lemma HeaderCall(r: Reader, image: Image, after: seq<Byte>)
    requires |image| < LENGTH_LIMIT && r.size == 0 && r.buffer == Frame(image) + after
    ensures Slot(r) == Reader(LENGTH + |image|, Body(image) + after, r.shown)
  {
    SizeFieldsRoundTrip(image);
    var header := BigEndian(|Body(image)|, HEADER);
    Assoc(header, Body(image), after);
    assert r.buffer == header + (Body(image) + after);
    assert r.buffer[..HEADER] == header && r.buffer[HEADER..] == Body(image) + after;
  }

  lemma BodyCall(r: Reader, image: Image, after: seq<Byte>)
    requires |image| < LENGTH_LIMIT && r.size == LENGTH + |image| && r.buffer == Body(image) + after
    ensures Slot(r) ==
      if |image| + |after| > HEADER - LENGTH then Reader(0, after, r.shown + [image]) else r
  {
    assert |r.buffer| == LENGTH + |image| + |after|;
    assert r.buffer + [] == r.buffer;
    BodySplit(r.buffer, image, after, []);
    assert r.buffer[LENGTH + |image|..] == after;
  }

  // ------------------------------------------------------------ the object itself

  class RemoteMonitor {
    var size: nat
    var buffer: seq<Byte>
    var shown: seq<Image>

    ghost function View(): Reader
      reads this
    {
      Reader(size, buffer, shown)
    }

    constructor ()
      ensures View() == IDLE
    {
      size, buffer, shown := 0, [], [];
    }

    method OnReadyRead()
      modifies this
      ensures View() == Slot(old(View()))
    {
      var available := |buffer|;
      if available > HEADER {
        if size == 0 {
          size := FromBigEndian(buffer[..HEADER]);
          buffer := buffer[HEADER..];
        } else if available >= size {
          var (imageData, rest) := TakeImage(buffer);
          buffer := rest;
          size := 0;
          shown := shown + [imageData];
        }
      }
    }
  }
}
