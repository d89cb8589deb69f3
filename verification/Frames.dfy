/** The wire format of requests and responses, and the loops that read and write it (consumer.cpp,
    provider.cpp, rpc/util.hpp). */
module Frames {
  import opened Wrappers
  import opened Messages

  type byte = x: nat | x < 256

  /** MAX_RPC_MESSAGE_SIZE: 4 MiB. */
  const MAX_RPC_MESSAGE_SIZE: nat := 4 * 1024 * 1024

  /** The packed headers carry a service and a method byte in requests, and nothing in responses. */
  const REQUEST_TAGS: nat := 2
  const RESPONSE_TAGS: nat := 0

  datatype Frame = Frame(id: nat, tags: seq<byte>, payload: seq<byte>)

  function Pow256(w: nat): nat {
    if w == 0 then 1 else 256 * Pow256(w - 1)
  }

  /** The last w bytes of n, most significant first: a larger n is truncated. */
  function BigEndian(n: nat, w: nat): (bs: seq<byte>)
    ensures |bs| == w
  {
    if w == 0 then [] else BigEndian(n / 256, w - 1) + [n % 256]
  }

  function Number(bs: seq<byte>): nat {
    if bs == [] then 0 else Number(bs[..|bs| - 1]) * 256 + bs[|bs| - 1]
  }

  lemma {:induction false} NumberOfBigEndian(n: nat, w: nat)
    requires n < Pow256(w)
    ensures Number(BigEndian(n, w)) == n
  {
    if w == 0 {
    } else {
      NumberOfBigEndian(n / 256, w - 1);
      assert BigEndian(n, w)[..w - 1] == BigEndian(n / 256, w - 1);
    }
  }

  /** Header and payload as they are written: id, tags, size, payload. */
  function Encode(f: Frame): seq<byte> {
    BigEndian(f.id, 8) + f.tags + BigEndian(|f.payload|, 4) + f.payload
  }

  function Stream(fs: seq<Frame>): seq<byte> {
    if fs == [] then [] else Encode(fs[0]) + Stream(fs[1..])
  }

  /** Frames that a sender can write and a receiver accepts. */
  predicate Fits(f: Frame, tags: nat) {
    f.id < Pow256(8) && |f.tags| == tags && |f.payload| <= MAX_RPC_MESSAGE_SIZE
  }

  /** The first frame, when the stream holds a whole one of acceptable size. */
  function First(bs: seq<byte>, tags: nat): Option<Frame> {
    if |bs| < tags + 12 then None
    else
      var size := Number(bs[tags + 8..tags + 12]);
      if size > MAX_RPC_MESSAGE_SIZE || |bs| < tags + 12 + size then None
      else Some(Frame(Number(bs[..8]), bs[8..tags + 8], bs[tags + 12..tags + 12 + size]))
  }

  /** Everything the receiving loop reads before it stops. */
  function Decode(bs: seq<byte>, tags: nat): seq<Frame>
    decreases |bs|
  {
    var f := First(bs, tags);
    if f.None? then [] else [f.value] + Decode(bs[tags + 12 + |f.value.payload|..], tags)
  }

  lemma FirstOfEncoded(f: Frame, rest: seq<byte>, tags: nat)
    requires Fits(f, tags)
    ensures First(Encode(f) + rest, tags) == Some(f)
    ensures |Encode(f)| == tags + 12 + |f.payload|
  {
    var bs := Encode(f) + rest;
    assert bs[..8] == BigEndian(f.id, 8);
    assert bs[8..tags + 8] == f.tags;
    assert bs[tags + 8..tags + 12] == BigEndian(|f.payload|, 4);
    assert bs[tags + 12..tags + 12 + |f.payload|] == f.payload;
    NumberOfBigEndian(f.id, 8);
    assert Pow256(4) == 0x1_0000_0000;
    NumberOfBigEndian(|f.payload|, 4);
  }

  lemma DecodeStep(f: Frame, rest: seq<byte>, tags: nat)
    requires Fits(f, tags)
    ensures Decode(Encode(f) + rest, tags) == [f] + Decode(rest, tags)
  {
    FirstOfEncoded(f, rest, tags);
    assert (Encode(f) + rest)[|Encode(f)|..] == rest;
  }

  lemma Regroup<T>(a: seq<T>, b: seq<T>, c: seq<T>)
    ensures (a + b) + c == a + (b + c)
  {}

  /** Frame stream round trip: whatever follows them, whole frames decode to themselves in order. */
  lemma {:induction false} StreamRoundTrip(fs: seq<Frame>, tail: seq<byte>, tags: nat)
    requires forall f :: f in fs ==> Fits(f, tags)
    ensures Decode(Stream(fs) + tail, tags) == fs + Decode(tail, tags)
  {
    if fs == [] {
      assert Stream(fs) + tail == tail;
    } else {
      Regroup(Encode(fs[0]), Stream(fs[1..]), tail);
      DecodeStep(fs[0], Stream(fs[1..]) + tail, tags);
      StreamRoundTrip(fs[1..], tail, tags);
      assert fs == [fs[0]] + fs[1..];
      Regroup([fs[0]], fs[1..], Decode(tail, tags));
    }
  }

  /** A frame cut short yields nothing, and so does one whose size field is over the limit. */
  lemma NothingFromPart(f: Frame, tags: nat, k: nat, bs: seq<byte>)
    requires Fits(f, tags)
    ensures k < |Encode(f)| ==> Decode(Encode(f)[..k], tags) == []
    ensures |bs| >= tags + 12 && Number(bs[tags + 8..tags + 12]) > MAX_RPC_MESSAGE_SIZE ==> Decode(bs, tags) == []
  {
    FirstOfEncoded(f, [], tags);
    if tags + 12 <= k < |Encode(f)| {
      var part := Encode(f)[..k];
      assert part[tags + 8..tags + 12] == BigEndian(|f.payload|, 4);
      assert Pow256(4) == 0x1_0000_0000;
      NumberOfBigEndian(|f.payload|, 4);
    }
  }

  /** A connection that breaks anywhere delivers exactly the frames written in full before the break. */
  lemma {:induction false} BrokenStream(fs: seq<Frame>, k: nat, tags: nat) returns (whole: nat)
    requires (forall f :: f in fs ==> Fits(f, tags)) && k <= |Stream(fs)|
    ensures whole <= |fs| && Decode(Stream(fs)[..k], tags) == fs[..whole]
    ensures |Stream(fs[..whole])| <= k
    ensures whole < |fs| ==> k < |Stream(fs[..whole + 1])|
  {
    whole := 0;
    if fs == [] {
    } else {
      var e := Encode(fs[0]);
      if k < |e| {
        assert fs[..1] == [fs[0]];
        StreamSnoc([], fs[0]);
        assert Stream(fs)[..k] == e[..k];
        NothingFromPart(fs[0], tags, k, []);
      } else {
        var w := BrokenStream(fs[1..], k - |e|, tags);
        whole := w + 1;
        assert Stream(fs)[..k] == e + Stream(fs[1..])[..k - |e|];
        DecodeStep(fs[0], Stream(fs[1..])[..k - |e|], tags);
        StreamTake(fs, w);
        if whole < |fs| { StreamTake(fs, w + 1); }
      }
    }
  }

  lemma StreamTake(fs: seq<Frame>, w: nat)
    requires w < |fs|
    ensures Stream(fs[..w + 1]) == Encode(fs[0]) + Stream(fs[1..][..w]) && fs[..w + 1] == [fs[0]] + fs[1..][..w]
  {
    assert fs[..w + 1][1..] == fs[1..][..w];
  }

  lemma {:induction false} StreamSnoc(fs: seq<Frame>, f: Frame)
    ensures Stream(fs + [f]) == Stream(fs) + Encode(f)
  {
    if fs == [] {
      assert fs + [f] == [f] && [f][1..] == [];
      assert Stream([f]) == Encode(f) + Stream([]);
    } else {
      assert (fs + [f])[1..] == fs[1..] + [f];
      StreamSnoc(fs[1..], f);
    }
  }

  /** One read of the receiving loops: the header, its checks, and the payload. */
  datatype Reading = Closed | Refused(id: nat) | Got(frame: Frame)

  lemma Subslice(bs: seq<byte>, at: nat, i: nat, j: nat)
    requires i <= j && at + j <= |bs|
    ensures bs[at..][i..j] == bs[at + i..at + j]
  {}

  /** What the decoder sees at an offset. */
  lemma FrameAt(bs: seq<byte>, at: nat, tags: nat)
    requires at + tags + 12 <= |bs|
    ensures
      var size := Number(bs[at + tags + 8..at + tags + 12]);
      First(bs[at..], tags) ==
      if size > MAX_RPC_MESSAGE_SIZE || |bs| - at - tags - 12 < size then None
      else Some(Frame(Number(bs[at..at + 8]), bs[at + 8..at + tags + 8], bs[at + tags + 12..at + tags + 12 + size]))
  {
    Subslice(bs, at, 0, 8);
    assert bs[at..][..8] == bs[at..][0..8];
    Subslice(bs, at, 8, tags + 8);
    Subslice(bs, at, tags + 8, tags + 12);
    var size := Number(bs[at + tags + 8..at + tags + 12]);
    if |bs| - at - tags - 12 >= size { Subslice(bs, at, tags + 12, tags + 12 + size); }
  }

  lemma DecodeFirst(bs: seq<byte>, tags: nat, f: Frame)
    requires First(bs, tags) == Some(f)
    ensures tags + 12 + |f.payload| <= |bs|
    ensures Decode(bs, tags) == [f] + Decode(bs[tags + 12 + |f.payload|..], tags)
  {}

  lemma DecodeAt(bs: seq<byte>, at: nat, tags: nat, f: Frame)
    requires at + tags + 12 + |f.payload| <= |bs| && First(bs[at..], tags) == Some(f)
    ensures Decode(bs[at..], tags) == [f] + Decode(bs[at + tags + 12 + |f.payload|..], tags)
  {
    var k := tags + 12 + |f.payload|;
    DecodeFirst(bs[at..], tags, f);
    assert bs[at..][k..] == bs[at + k..];
  }

  /** `at` is how far the stream has been read. */
  method ReadFrame(received: seq<byte>, at: nat, tags: nat) returns (r: Reading)
    requires at <= |received|
    ensures First(received[at..], tags) == if r.Got? then Some(r.frame) else None
    ensures r.Got? ==> at + tags + 12 + |r.frame.payload| <= |received|
    ensures r.Refused? ==> |received| - at >= tags + 12 && r.id == Number(received[at..at + 8])
    ensures r.Closed? <==> |received| - at < tags + 12
  {
    if |received| - at < tags + 12 { return Closed; }
    FrameAt(received, at, tags);
    var id, size := Number(received[at..at + 8]), Number(received[at + tags + 8..at + tags + 12]);
    if size > MAX_RPC_MESSAGE_SIZE { return Refused(id); }
    if |received| - at - tags - 12 < size { return Refused(id); }
    var payload := received[at + tags + 12..at + tags + 12 + size];
    r := Got(Frame(id, received[at + 8..at + tags + 8], payload));
  }

  // ---- The provider ------------------------------------------------------------------------------------

  /** A request that waits to be invoked. */
  datatype Task = Task(id: nat, method': seq<byte>, payload: seq<byte>)

  /** Frames of unknown services or methods are skipped. */
  function Tasks(fs: seq<Frame>, invokes: set<seq<byte>>): seq<Task> {
    if fs == [] then []
    else
      var f := fs[|fs| - 1];
      Tasks(fs[..|fs| - 1], invokes) + if f.tags in invokes then [Task(f.id, f.tags, f.payload)] else []
  }

  /** What the handlers returned, as the frames that are sent: an empty payload means that the reply
      comes later, and errors and oversized payloads are dropped. */
  function Replies(tasks: seq<Task>, results: seq<Option<seq<byte>>>): seq<Frame>
    requires |tasks| == |results|
  {
    if tasks == [] then []
    else
      var n := |tasks| - 1;
      Replies(tasks[..n], results[..n]) +
      if results[n].Some? && 0 < |results[n].value| <= MAX_RPC_MESSAGE_SIZE
      then [Frame(tasks[n].id, [], results[n].value)] else []
  }

  lemma TasksSnoc(before: seq<Task>, fs: seq<Frame>, f: Frame, invokes: set<seq<byte>>)
    ensures before + Tasks(fs + [f], invokes) ==
      if f.tags in invokes then before + Tasks(fs, invokes) + [Task(f.id, f.tags, f.payload)]
      else before + Tasks(fs, invokes)
  {
    assert (fs + [f])[..|fs|] == fs;
  }

  /** What one handler's result adds to the frames and the bytes sent. */
  lemma RepliesSnoc(tasks: seq<Task>, results: seq<Option<seq<byte>>>, i: nat)
    requires i < |tasks| == |results|
    ensures
      var before, here := Replies(tasks[..i], results[..i]), Replies(tasks[..i + 1], results[..i + 1]);
      if results[i].Some? && 0 < |results[i].value| <= MAX_RPC_MESSAGE_SIZE then
        var f := Frame(tasks[i].id, [], results[i].value);
        here == before + [f] && Stream(here) == Stream(before) + Encode(f)
      else here == before
  {
    assert tasks[..i + 1][..i] == tasks[..i] && results[..i + 1][..i] == results[..i];
    var replies := Replies(tasks[..i], results[..i]);
    if results[i].Some? && 0 < |results[i].value| <= MAX_RPC_MESSAGE_SIZE {
      StreamSnoc(replies, Frame(tasks[i].id, [], results[i].value));
    } else {
      assert replies + [] == replies;
    }
  }

  lemma {:induction false} RepliesPrefix(tasks: seq<Task>, results: seq<Option<seq<byte>>>, i: nat)
    requires i <= |tasks| == |results|
    ensures Replies(tasks[..i], results[..i]) <= Replies(tasks, results)
  {
    if i == |tasks| {
      assert tasks[..i] == tasks && results[..i] == results;
    } else {
      var n := |tasks| - 1;
      RepliesPrefix(tasks[..n], results[..n], i);
      assert tasks[..n][..i] == tasks[..i] && results[..n][..i] == results[..i];
    }
  }

  /** The replies of the first i tasks are the first `used` of all; what task i adds. */
  lemma RepliesNext(tasks: seq<Task>, results: seq<Option<seq<byte>>>, i: nat, used: nat)
    requires i < |tasks| == |results| && used <= |Replies(tasks, results)|
    requires Replies(tasks[..i], results[..i]) == Replies(tasks, results)[..used]
    ensures
      var replies, here := Replies(tasks, results), Replies(tasks[..i + 1], results[..i + 1]);
      if results[i].Some? && 0 < |results[i].value| <= MAX_RPC_MESSAGE_SIZE then
        && used < |replies| && here == replies[..used + 1]
        && Stream(replies[..used + 1]) == Stream(replies[..used]) + Encode(Frame(tasks[i].id, [], results[i].value))
      else here == replies[..used]
  {
    RepliesSnoc(tasks, results, i);
    RepliesPrefix(tasks, results, i + 1);
  }

  method WriteResponse(id: nat, payload: seq<byte>) returns (bytes: seq<byte>)
    ensures bytes == Encode(Frame(id, [], payload))
  {
    var header := BigEndian(id, 8) + BigEndian(|payload|, 4);
    bytes := header + payload;
    assert BigEndian(id, 8) + [] == BigEndian(id, 8);
  }

  class RpcProvider {
    var invokes: set<seq<byte>>
    var tasks: seq<Task>
    var sent: seq<byte>

    constructor ()
      ensures invokes == {} && tasks == [] && sent == []
    {
      invokes, tasks, sent := {}, [], [];
    }

    method RegisterInvoke(service: byte, method': byte)
      modifies this`invokes
      ensures invokes == old(invokes) + {[service, method']}
    {
      invokes := invokes + {[service, method']};
    }

    /** `received` is everything that arrives before the connection closes. */
    method ProduceInvokeTasks(received: seq<byte>)
      modifies this`tasks
      ensures tasks == old(tasks) + Tasks(Decode(received, REQUEST_TAGS), invokes)
    {
      var at := 0;
      ghost var read: seq<Frame> := [];
      ghost var whole := Decode(received, REQUEST_TAGS);
      ghost var rest := whole;
      assert received[0..] == received;
      while true
        invariant at <= |received| && rest == Decode(received[at..], REQUEST_TAGS)
        invariant whole == read + rest && tasks == old(tasks) + Tasks(read, invokes)
        decreases |received| - at
      {
        var r := ReadFrame(received, at, REQUEST_TAGS);
        if !r.Got? { break; }
        var f := r.frame;
        DecodeAt(received, at, REQUEST_TAGS, f);
        if f.tags in invokes { tasks := tasks + [Task(f.id, f.tags, f.payload)]; }
        TasksSnoc(old(tasks), read, f, invokes);
        at := at + REQUEST_TAGS + 12 + |f.payload|;
        ghost var next := Decode(received[at..], REQUEST_TAGS);
        Regroup(read, [f], next);
        assert whole == (read + [f]) + next;
        read, rest := read + [f], next;
      }
      assert rest == [] && read + [] == read;
    }

    /** `results[i]` is what invoking task i returned; None is an error.  The stream takes `room` responses;
        the next write fails, which ends the loop, with the task whose reply it was. */
    method ConsumeInvokeTasks(results: seq<Option<seq<byte>>>, room: nat)
      requires |results| == |tasks|
      modifies this`tasks, this`sent
      ensures
        var replies := Replies(old(tasks), results);
        && sent == old(sent) + Stream(replies[..Min(room, |replies|)])
        && (|replies| <= room ==> tasks == [])
        && (|replies| > room ==>
              exists i :: 0 <= i <= |results| && tasks == old(tasks)[i..]
                          && Replies(old(tasks)[..i], results[..i]) == replies[..room + 1])
    {
      var i, used := 0, 0;
      ghost var all := tasks;
      ghost var replies := Replies(all, results);
      while tasks != []
        invariant i <= |all| && tasks == all[i..] && |all| == |results|
        invariant used <= room && used <= |replies| && Replies(all[..i], results[..i]) == replies[..used]
        invariant sent == old(sent) + Stream(replies[..used])
        decreases |tasks|
      {
        var task := tasks[0];
        tasks := tasks[1..];
        RepliesNext(all, results, i, used);
        if results[i].Some? && !(|results[i].value| == 0 || |results[i].value| > MAX_RPC_MESSAGE_SIZE) {
          if used == room {
            assert tasks == all[i + 1..];
            return;
          }
          var frame := WriteResponse(task.id, results[i].value);
          Regroup(old(sent), Stream(replies[..used]), frame);
          sent := sent + frame;
          used := used + 1;
        }
        i := i + 1;
      }
      assert all[..|all|] == all && results[..|results|] == results;
      assert replies[..used] == replies && used == |replies|;
    }
  }

  // ---- The consumer ---------------------------------------------------------------------------------------

  /** A callback, and the payload it is called with. */
  datatype Firing<C> = Firing(id: nat, callback: C, payload: seq<byte>)

  /** What the receiving loop has not turned into frames when it stops. */
  function Undecoded(bs: seq<byte>, tags: nat): seq<byte>
    decreases |bs|
  {
    var f := First(bs, tags);
    if f.None? then bs else Undecoded(bs[tags + 12 + |f.value.payload|..], tags)
  }

  /** The id of a response whose header has arrived and whose payload is too large or cut off. */
  function Abandoned(bs: seq<byte>): set<nat> {
    var rest := Undecoded(bs, RESPONSE_TAGS);
    if |rest| < 12 then {} else {Number(rest[..8])}
  }

  lemma AbandonedAt(bs: seq<byte>, at: nat, f: Frame)
    requires at + 12 + |f.payload| <= |bs| && First(bs[at..], RESPONSE_TAGS) == Some(f)
    ensures Abandoned(bs[at..]) == Abandoned(bs[at + 12 + |f.payload|..])
  {
    var k := 12 + |f.payload|;
    assert bs[at..][k..] == bs[at + k..];
  }

  /** The callbacks that a sequence of responses fires: each at most once. */
  function Fired<C>(fs: seq<Frame>, callbacks: map<nat, C>): seq<Firing<C>> {
    if fs == [] then []
    else if fs[0].id in callbacks then
      [Firing(fs[0].id, callbacks[fs[0].id], fs[0].payload)] + Fired(fs[1..], callbacks - {fs[0].id})
    else Fired(fs[1..], callbacks)
  }

  function Remaining<C>(fs: seq<Frame>, callbacks: map<nat, C>): map<nat, C> {
    callbacks - set f | f in fs :: f.id
  }

  /** Whatever responses arrive, in whatever order and however often: no callback fires twice, and
      each fires with the payload of the first response that carries its own id. */
  lemma {:induction false} FiredOnce<C>(fs: seq<Frame>, callbacks: map<nat, C>, i: nat, j: nat)
    requires i < j < |Fired(fs, callbacks)|
    ensures
      var out := Fired(fs, callbacks);
      && out[i].id != out[j].id
      && out[j].id in callbacks && out[j].callback == callbacks[out[j].id]
      && out[i].id in callbacks && out[i].callback == callbacks[out[i].id]
  {
    if fs[0].id in callbacks {
      var rest := callbacks - {fs[0].id};
      FiredFrom(fs[1..], rest, j - 1);
      if i > 0 { FiredOnce(fs[1..], rest, i - 1, j - 1); }
    } else {
      FiredOnce(fs[1..], callbacks, i, j);
    }
  }

  lemma {:induction false} FiredFrom<C>(fs: seq<Frame>, callbacks: map<nat, C>, j: nat)
    requires j < |Fired(fs, callbacks)|
    ensures
      var out := Fired(fs, callbacks);
      && out[j].id in callbacks && out[j].callback == callbacks[out[j].id]
      && exists k :: 0 <= k < |fs| && fs[k].id == out[j].id && fs[k].payload == out[j].payload
                     && forall l :: 0 <= l < k ==> fs[l].id != fs[k].id
  {
    if fs[0].id in callbacks && j == 0 {
      assert fs[0].payload == Fired(fs, callbacks)[0].payload;
    } else {
      var rest := callbacks - {fs[0].id};
      var shift := if fs[0].id in callbacks then 1 else 0;
      assert rest == callbacks || fs[0].id in callbacks;
      FiredFrom(fs[1..], rest, j - shift);
      var k :| 0 <= k < |fs[1..]| && fs[1..][k].id == Fired(fs, callbacks)[j].id
               && fs[1..][k].payload == Fired(fs, callbacks)[j].payload
               && forall l :: 0 <= l < k ==> fs[1..][l].id != fs[1..][k].id;
      assert fs[k + 1] == fs[1..][k];
      forall l | 0 <= l < k + 1 ensures fs[l].id != fs[k + 1].id {
        if l > 0 { assert fs[l] == fs[1..][l - 1]; }
      }
    }
  }

  lemma FireFirst<C>(f: Frame, rest: seq<Frame>, callbacks: map<nat, C>)
    ensures Remaining([f] + rest, callbacks) == Remaining(rest, callbacks - {f.id})
    ensures Fired([f] + rest, callbacks) ==
      (if f.id in callbacks then [Firing(f.id, callbacks[f.id], f.payload)] else []) + Fired(rest, callbacks - {f.id})
  {
    assert ([f] + rest)[1..] == rest;
    if f.id !in callbacks { assert callbacks - {f.id} == callbacks; }
  }

  /** One response: what is still to be fired and to remain, after it has been handled. */
  lemma FireStep<C>(whole: seq<Frame>, start: map<nat, C>, out: seq<Firing<C>>,
                    f: Frame, rest: seq<Frame>, callbacks: map<nat, C>)
    requires Fired(whole, start) == out + Fired([f] + rest, callbacks)
    requires Remaining(whole, start) == Remaining([f] + rest, callbacks)
    ensures
      var firing := if f.id in callbacks then [Firing(f.id, callbacks[f.id], f.payload)] else [];
      && Fired(whole, start) == (out + firing) + Fired(rest, callbacks - {f.id})
      && Remaining(whole, start) == Remaining(rest, callbacks - {f.id})
  {
    FireFirst(f, rest, callbacks);
    var firing := if f.id in callbacks then [Firing(f.id, callbacks[f.id], f.payload)] else [];
    Regroup(out, firing, Fired(rest, callbacks - {f.id}));
  }

  lemma FireEnd<C>(whole: seq<Frame>, start: map<nat, C>, out: seq<Firing<C>>, callbacks: map<nat, C>)
    requires Fired(whole, start) == out + Fired([], callbacks) && Remaining(whole, start) == Remaining([], callbacks)
    ensures Fired(whole, start) == out && Remaining(whole, start) == callbacks
  {
    assert Fired([], callbacks) == [] && out + [] == out;
    assert Remaining([], callbacks) == callbacks;
  }

  /** What a read that yields no frame abandons. */
  lemma NothingMore(received: seq<byte>, at: nat, r: Reading)
    requires at <= |received| && First(received[at..], RESPONSE_TAGS) == None && !r.Got?
    requires r.Closed? <==> |received| - at < 12
    requires r.Refused? ==> |received| - at >= 12 && r.id == Number(received[at..at + 8])
    ensures Abandoned(received[at..]) == if r.Refused? then {r.id} else {}
  {
    if r.Refused? { assert received[at..][..8] == received[at..at + 8]; }
  }

  lemma Whole(fs: seq<Frame>, tags: nat)
    requires forall f :: f in fs ==> Fits(f, tags)
    ensures Decode(Stream(fs), tags) == fs
  {
    StreamRoundTrip(fs, [], tags);
    assert Stream(fs) + [] == Stream(fs) && Decode([], tags) == [] && fs + [] == fs;
  }

  /** What `call` writes is a frame that the provider reads, up to a payload of 4 MiB and not beyond. */
  lemma CalledArrives(id: nat, service: byte, method': byte, payload: seq<byte>)
    requires id < Pow256(8) && |payload| < 0x1_0000_0000
    ensures
      var f := Frame(id, [service, method'], payload);
      Decode(Encode(f), REQUEST_TAGS) == if |payload| <= 4 * 1024 * 1024 then [f] else []
  {
    var f := Frame(id, [service, method'], payload);
    if |payload| <= 4 * 1024 * 1024 {
      assert Stream([f]) == Encode(f) + [] == Encode(f);
      Whole([f], REQUEST_TAGS);
    } else {
      var bs := Encode(f);
      assert Pow256(4) == 0x1_0000_0000;
      NumberOfBigEndian(|payload|, 4);
      assert bs[REQUEST_TAGS + 8..REQUEST_TAGS + 12] == BigEndian(|payload|, 4);
    }
  }

  // ---- From call to callback ------------------------------------------------------------------------------

  /** Requests of known methods become tasks one for one, in order, and others leave no trace. */
  lemma {:induction false} KnownTasks(fs: seq<Frame>, invokes: set<seq<byte>>, j: nat)
    requires forall f :: f in fs ==> f.tags in invokes
    ensures |Tasks(fs, invokes)| == |fs|
    ensures j < |fs| ==> Tasks(fs, invokes)[j] == Task(fs[j].id, fs[j].tags, fs[j].payload)
  {
    if fs == [] {
    } else {
      KnownTasks(fs[..|fs| - 1], invokes, j);
    }
  }

  lemma {:induction false} UnknownSkipped(a: seq<Frame>, f: Frame, b: seq<Frame>, invokes: set<seq<byte>>)
    requires f.tags !in invokes
    ensures Tasks(a + [f] + b, invokes) == Tasks(a + b, invokes)
  {
    if b == [] {
      assert a + [f] + b == a + [f] && a + b == a && (a + [f])[..|a|] == a;
      assert Tasks(a, invokes) + [] == Tasks(a, invokes);
    } else {
      var n := |b| - 1;
      UnknownSkipped(a, f, b[..n], invokes);
      assert (a + [f] + b)[..|a| + 1 + n] == a + [f] + b[..n] && (a + b)[..|a| + n] == a + b[..n];
    }
  }

  predicate Replied(result: Option<seq<byte>>) {
    result.Some? && 0 < |result.value| <= MAX_RPC_MESSAGE_SIZE
  }

  /** Results become replies one for one, in order; a result that is empty, too large or an error leaves no
      trace. */
  lemma {:induction false} AllReplied(tasks: seq<Task>, results: seq<Option<seq<byte>>>, j: nat)
    requires |tasks| == |results| && forall i :: 0 <= i < |results| ==> results[i].Some? && Replied(results[i])
    ensures |Replies(tasks, results)| == |tasks|
    ensures j < |tasks| ==> Replies(tasks, results)[j] == Frame(tasks[j].id, [], results[j].value)
  {
    if tasks == [] {
    } else {
      var n := |tasks| - 1;
      AllReplied(tasks[..n], results[..n], j);
    }
  }

  lemma {:induction false} DeferredSkipped(a: seq<Task>, t: Task, b: seq<Task>,
                                           ra: seq<Option<seq<byte>>>, r: Option<seq<byte>>, rb: seq<Option<seq<byte>>>)
    requires |a| == |ra| && |b| == |rb| && !Replied(r)
    ensures Replies(a + [t] + b, ra + [r] + rb) == Replies(a + b, ra + rb)
  {
    if b == [] {
      assert a + [t] + b == a + [t] && a + b == a && (a + [t])[..|a|] == a;
      assert ra + [r] + rb == ra + [r] && ra + rb == ra && (ra + [r])[..|ra|] == ra;
      assert Replies(a, ra) + [] == Replies(a, ra);
    } else {
      var n := |b| - 1;
      DeferredSkipped(a, t, b[..n], ra, r, rb[..n]);
      assert (a + [t] + b)[..|a| + 1 + n] == a + [t] + b[..n] && (a + b)[..|a| + n] == a + b[..n];
      assert (ra + [r] + rb)[..|a| + 1 + n] == ra + [r] + rb[..n] && (ra + rb)[..|a| + n] == ra + rb[..n];
    }
  }

  /** Responses to different waiting calls fire one for one, in order. */
  lemma {:induction false} AllFired<C>(fs: seq<Frame>, callbacks: map<nat, C>, j: nat)
    requires forall i :: 0 <= i < |fs| ==> fs[i].id in callbacks
    requires forall i, k :: 0 <= i < k < |fs| ==> fs[i].id != fs[k].id
    ensures |Fired(fs, callbacks)| == |fs|
    ensures j < |fs| ==> Fired(fs, callbacks)[j] == Firing(fs[j].id, callbacks[fs[j].id], fs[j].payload)
  {
    if fs == [] {
    } else {
      AllFired(fs[1..], callbacks - {fs[0].id}, if j == 0 then 0 else j - 1);
    }
  }

  lemma RequestsArrive(calls: seq<Frame>, invokes: set<seq<byte>>, j: nat)
    requires forall i :: 0 <= i < |calls| ==> Fits(calls[i], REQUEST_TAGS) && calls[i].tags in invokes
    ensures
      var tasks := Tasks(Decode(Stream(calls), REQUEST_TAGS), invokes);
      && |tasks| == |calls|
      && (j < |calls| ==> tasks[j] == Task(calls[j].id, calls[j].tags, calls[j].payload))
  {
    Whole(calls, REQUEST_TAGS);
    KnownTasks(calls, invokes, j);
  }

  lemma RepliesArrive<C>(tasks: seq<Task>, results: seq<Option<seq<byte>>>, callbacks: map<nat, C>, j: nat)
    requires |results| == |tasks| && forall i :: 0 <= i < |results| ==> results[i].Some? && Replied(results[i])
    requires forall i :: 0 <= i < |tasks| ==> tasks[i].id < Pow256(8) && tasks[i].id in callbacks
    requires forall i, k :: 0 <= i < k < |tasks| ==> tasks[i].id != tasks[k].id
    ensures
      var replies := Decode(Stream(Replies(tasks, results)), RESPONSE_TAGS);
      && |Fired(replies, callbacks)| == |tasks|
      && (j < |tasks| ==>
            && Fired(replies, callbacks)[j] == Firing(tasks[j].id, callbacks[tasks[j].id], results[j].value)
            && tasks[j].id !in Remaining(replies, callbacks))
  {
    var replies := Replies(tasks, results);
    AllReplied(tasks, results, j);
    forall i | 0 <= i < |replies| ensures replies[i] == Frame(tasks[i].id, [], results[i].value) {
      AllReplied(tasks, results, i);
    }
    Whole(replies, RESPONSE_TAGS);
    AllFired(replies, callbacks, j);
    if j < |tasks| { assert replies[j] in replies; }
  }

  /** From call to callback.  Calls of known methods with different ids are written one after the other and
      read by the provider; each is answered with some result, and the replies are written and read by the
      consumer.  Then every call's callback fires, with the result of its own call, and is forgotten. */
  lemma CallRoundTrip<C>(calls: seq<Frame>, invokes: set<seq<byte>>, results: seq<Option<seq<byte>>>,
                         callbacks: map<nat, C>, j: nat)
    requires |results| == |calls| && j < |calls|
    requires forall i :: 0 <= i < |results| ==> results[i].Some? && Replied(results[i])
    requires forall i :: 0 <= i < |calls| ==>
      Fits(calls[i], REQUEST_TAGS) && calls[i].tags in invokes && calls[i].id in callbacks
    requires forall i, k :: 0 <= i < k < |calls| ==> calls[i].id != calls[k].id
    ensures
      var tasks := Tasks(Decode(Stream(calls), REQUEST_TAGS), invokes);
      && |tasks| == |calls| && tasks[j] == Task(calls[j].id, calls[j].tags, calls[j].payload)
      && var replies := Decode(Stream(Replies(tasks, results)), RESPONSE_TAGS);
         && |Fired(replies, callbacks)| == |calls|
         && Fired(replies, callbacks)[j] == Firing(calls[j].id, callbacks[calls[j].id], results[j].value)
         && calls[j].id !in Remaining(replies, callbacks)
  {
    RequestsArrive(calls, invokes, j);
    var tasks := Tasks(Decode(Stream(calls), REQUEST_TAGS), invokes);
    forall i | 0 <= i < |calls| ensures tasks[i] == Task(calls[i].id, calls[i].tags, calls[i].payload) {
      RequestsArrive(calls, invokes, i);
    }
    RepliesArrive(tasks, results, callbacks, j);
  }

  class RpcConsumer<C> {
    var requestId: nat
    var callbacks: map<nat, C>
    var sent: seq<byte>

    constructor ()
      ensures requestId == 0 && callbacks == map[] && sent == []
    {
      requestId, callbacks, sent := 0, map[], [];
    }

    /** `emplace` leaves a callback that is already waiting under the id.  A write that fails closes the
        stream and is an error; the callback stays in the table. */
    method Call(service: byte, method': byte, payload: seq<byte>, callback: C, writeOk: bool)
      returns (ghost id: nat, called: bool)
      modifies this
      ensures id == old(requestId) && requestId == id + 1 && called == writeOk
      ensures callbacks == if id in old(callbacks) then old(callbacks) else old(callbacks)[id := callback]
      ensures sent == old(sent) + if called then Encode(Frame(id, [service, method'], payload)) else []
    {
      id := requestId;
      var header := BigEndian(requestId, 8) + [service, method'] + BigEndian(|payload|, 4);
      if requestId !in callbacks { callbacks := callbacks[requestId := callback]; }
      requestId := requestId + 1;
      called := writeOk;
      if !writeOk { return; }
      sent := sent + (header + payload);
    }

    /** Fires and forgets the callback that waits for the response, if there is one. */
    method Dispatch(f: Frame) returns (firing: seq<Firing<C>>)
      modifies this`callbacks
      ensures firing == if f.id in old(callbacks) then [Firing(f.id, old(callbacks)[f.id], f.payload)] else []
      ensures callbacks == old(callbacks) - {f.id}
    {
      firing := [];
      if f.id in callbacks {
        firing := [Firing(f.id, callbacks[f.id], f.payload)];
        callbacks := callbacks - {f.id};
      }
    }

    /** `received` is everything that arrives before the connection closes.  An oversized or truncated
        response ends the loop and drops the callback it names. */
    method ConsumeCallbacks(received: seq<byte>) returns (out: seq<Firing<C>>)
      modifies this`callbacks
      ensures out == Fired(Decode(received, RESPONSE_TAGS), old(callbacks))
      ensures callbacks == Remaining(Decode(received, RESPONSE_TAGS), old(callbacks)) - Abandoned(received)
    {
      out := [];
      var at := 0;
      ghost var whole := Decode(received, RESPONSE_TAGS);
      ghost var rest, start := whole, callbacks;
      assert received[0..] == received;
      while true
        invariant at <= |received| && rest == Decode(received[at..], RESPONSE_TAGS)
        invariant Fired(whole, start) == out + Fired(rest, callbacks)
        invariant Remaining(whole, start) == Remaining(rest, callbacks)
        invariant Abandoned(received) == Abandoned(received[at..])
        decreases |received| - at
      {
        var r := ReadFrame(received, at, RESPONSE_TAGS);
        if !r.Got? {
          FireEnd(whole, start, out, callbacks);
          NothingMore(received, at, r);
        }
        if r.Closed? { break; }
        if r.Refused? {
          callbacks := callbacks - {r.id};
          break;
        }
        var f := r.frame;
        DecodeAt(received, at, RESPONSE_TAGS, f);
        AbandonedAt(received, at, f);
        ghost var next := Decode(received[at + 12 + |f.payload|..], RESPONSE_TAGS);
        FireStep(whole, start, out, f, next, callbacks);
        var firing := Dispatch(f);
        out := out + firing;
        at := at + 12 + |f.payload|;
        rest := next;
      }
    }
  }
}
