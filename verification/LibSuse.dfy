/** The client library: requests on the wire, and how many answers each call reads. */
module LibSuse {
  import opened Lists
  import opened Model
  import opened Ops
  import opened Codec
  import opened Lockstep

  // ----- What goes over the wire

  /** The position of the header in the enumeration of message types. */
  function Code(h: Header): (n: int)
    ensures IsInt(n)
  {
    match h
    case CREATE => 19
    case SCHEDULE_NEXT => 20
    case WAIT => 21
    case SIGNAL => 22
    case JOIN => 23
    case CLOSE => 24
  }

  /** A C string of single-byte characters. */
  predicate IsName(s: string) {
    forall i :: 0 <= i < |s| ==> 0 < s[i] as int < 256
  }

  function NameBytes(s: string): (b: seq<byte>)
    requires IsName(s)
    ensures |b| == |s| + 1 && b[|s|] == 0
    ensures forall i :: 0 <= i < |s| ==> b[i] as int == s[i] as int
  {
    if s == [] then [0] else [s[0] as int as byte] + NameBytes(s[1..])
  }

  /** The characters up to the terminator. */
  function NameOf(b: seq<byte>): string {
    if b == [] || b[0] == 0 then [] else [b[0] as char] + NameOf(b[1..])
  }

  lemma {:induction false} NameRoundTrip(s: string)
    requires IsName(s)
    ensures NameOf(NameBytes(s)) == s
  {
    if s != [] {
      NameRoundTrip(s[1..]);
      assert NameBytes(s)[1..] == NameBytes(s[1..]);
      assert s == [s[0]] + s[1..];
    }
  }

  predicate Sendable(ev: Event) {
    match ev
    case ECreate(_, tid) => IsInt(tid)
    case ESchedule(_) => true
    case EJoin(_, tid) => IsInt(tid)
    case EClose(_, tid) => IsInt(tid)
    case EWait(_, tid, id) => IsInt(tid) && IsName(id) && |id| + 21 <= INT_MAX
    case ESignal(_, tid, id) => IsInt(tid) && IsName(id) && |id| + 21 <= INT_MAX
    case _ => false
  }

  /** The package of a call. A schedule request carries a value nobody reads. */
  function Request(ev: Event): Message
    requires Sendable(ev)
  {
    var values :=
      match ev
      case ECreate(_, tid) => [EncodeInt(tid)]
      case ESchedule(_) => [EncodeInt(1)]
      case EJoin(_, tid) => [EncodeInt(tid)]
      case EClose(_, tid) => [EncodeInt(tid)]
      case EWait(_, tid, id) => [EncodeInt(tid), NameBytes(id)]
      case ESignal(_, tid, id) => [EncodeInt(tid), NameBytes(id)];
    Message(Code(HeaderOf(ev)), values)
  }

  /** The server's dispatch on the message type; none for an unknown operation or a
      missing value. */
  function Dispatch(fd: Pid, m: Message): Option<Event> {
    if m.kind == 20 then Some(ESchedule(fd))
    else if m.values == [] || |m.values[0]| != 4 then None
    else
      var tid := DecodeInt(m.values[0]);
      if m.kind == 19 then Some(ECreate(fd, tid))
      else if m.kind == 23 then Some(EJoin(fd, tid))
      else if m.kind == 24 then Some(EClose(fd, tid))
      else if |m.values| < 2 then None
      else if m.kind == 21 then Some(EWait(fd, tid, NameOf(m.values[1])))
      else if m.kind == 22 then Some(ESignal(fd, tid, NameOf(m.values[1])))
      else None
  }

  lemma PackSize(values: seq<seq<byte>>)
    requires |values| <= 2 && Lengths(values)
    ensures |Pack(values)|
        == (if |values| >= 1 then 4 + |values[0]| else 0) + (if |values| == 2 then 4 + |values[1]| else 0)
  {
    if |values| >= 1 {
      assert values[1..] == if |values| == 2 then [values[1]] else [];
      if |values| == 2 {
        assert [values[1]][1..] == [];
      }
    }
  }

  lemma RequestFits(ev: Event)
    requires Sendable(ev)
    ensures Fits(Request(ev))
  {
    hide EncodeInt, Pack, IsName, NameBytes;
    PackSize(Request(ev).values);
  }

  /** The server acts on exactly the call the client made. */
  lemma DispatchRequest(ev: Event)
    requires Sendable(ev)
    ensures Dispatch(ev.pid, Request(ev)) == Some(ev)
  {
    hide EncodeInt, DecodeInt, NameOf, NameBytes;
    match ev
    case ECreate(_, tid) => DecodeEncode(tid);
    case EJoin(_, tid) => DecodeEncode(tid);
    case EClose(_, tid) => DecodeEncode(tid);
    case EWait(_, tid, id) => DecodeEncode(tid); NameRoundTrip(id);
    case ESignal(_, tid, id) => DecodeEncode(tid); NameRoundTrip(id);
    case ESchedule(_) =>
  }

  function Requests(evs: seq<Event>): (ms: seq<Message>)
    requires forall ev :: ev in evs ==> Sendable(ev)
    ensures |ms| == |evs| && forall i :: 0 <= i < |ms| ==> ms[i] == Request(evs[i])
  {
    if evs == [] then [] else [Request(evs[0])] + Requests(evs[1..])
  }

  /** Whatever a client calls, one call after the other, the bytes it sends split into
      packages that dispatch to the same calls in the same order. */
  lemma CallsArrive(pid: Pid, evs: seq<Event>)
    requires forall ev :: ev in evs ==> Sendable(ev) && ev.pid == pid
    ensures forall m :: m in Requests(evs) ==> Fits(m)
    ensures var ms := Split(Stream(Requests(evs)));
            ms.Some? && |ms.value| == |evs| && forall i :: 0 <= i < |evs| ==> Dispatch(pid, ms.value[i]) == Some(evs[i])
  {
    hide Request, Dispatch, Sendable, Fits, Split;
    forall m | m in Requests(evs) ensures Fits(m) {
      var i :| 0 <= i < |evs| && Requests(evs)[i] == m;
      RequestFits(evs[i]);
    }
    SplitStream(Requests(evs));
    forall i | 0 <= i < |evs| ensures Dispatch(pid, Requests(evs)[i]) == Some(evs[i]) {
      assert evs[i] in evs;
      DispatchRequest(evs[i]);
    }
  }

  // ----- Answers

  /** What the server's response thread sends. */
  function Wire(r: Response): Message
    requires IsInt(r.value)
  {
    Message(Code(r.header), [EncodeInt(r.value)])
  }

  function Wires(rs: seq<Response>): (b: seq<byte>)
    requires forall r :: r in rs ==> IsInt(r.value)
  {
    if rs == [] then [] else WireFits(rs[0]); Serialized(Wire(rs[0])) + Wires(rs[1..])
  }

  lemma WireFits(r: Response)
    requires IsInt(r.value)
    ensures Fits(Wire(r))
  {
    hide EncodeInt, Pack;
    PackSize([EncodeInt(r.value)]);
  }

  // ----- How many answers a call reads, and what it returns

  /** Reading ends: the answers take the client back to where it can make another call. */
  predicate Ends(phase: Phase, answers: seq<Response>)
    requires !phase.Sent?
    decreases |answers|
  {
    phase.Idle? || (answers != [] && Ends(AfterAnswer(phase, answers[0].value), answers[1..]))
  }

  /** The answers left once the client is back. */
  function Remaining(phase: Phase, answers: seq<Response>): seq<Response>
    requires !phase.Sent?
    decreases |answers|
  {
    if phase.Idle? || answers == [] then answers
    else Remaining(AfterAnswer(phase, answers[0].value), answers[1..])
  }

  /** The value of the last answer read. */
  function LastRead(phase: Phase, answers: seq<Response>, last: int): int
    requires !phase.Sent?
    decreases |answers|
  {
    if phase.Idle? || answers == [] then last
    else LastRead(AfterAnswer(phase, answers[0].value), answers[1..], answers[0].value)
  }

  function Result(h: Header, value: int): int {
    if h == SCHEDULE_NEXT then (if value >= 0 then value else -1) else if value == 1 then 0 else -1
  }

  /** One answer is read, or two when the first promises a second. */
  lemma ReadsOnce(h: Header, answers: seq<Response>)
    requires Ends(First(h), answers)
    ensures answers != []
    ensures if Defers(h, answers[0].value) then
              |answers| >= 2 && Remaining(First(h), answers) == answers[1..][1..]
                  && LastRead(First(h), answers, -1) == answers[1].value
            else
              Remaining(First(h), answers) == answers[1..] && LastRead(First(h), answers, -1) == answers[0].value
  {
    var phase, rest := AfterAnswer(First(h), answers[0].value), answers[1..];
    assert Ends(phase, rest);
    if phase.Second? {
      assert Remaining(phase, rest) == Remaining(Idle, rest[1..]) == rest[1..];
      assert LastRead(phase, rest, answers[0].value) == LastRead(Idle, rest[1..], rest[0].value) == answers[1].value;
    }
  }

  /** For a client in step with the server whose awaited answers have all been sent, a
      create or schedule call reads all of them, no more, and succeeds. */
  lemma CallSucceeds(pid: Pid, h: Header, inbox: seq<Response>)
    requires h in {CREATE, SCHEDULE_NEXT}
    requires InboxOk(pid, Client(First(h), inbox)) && !OwedSecond(Client(First(h), inbox))
    ensures Ends(First(h), inbox) && Remaining(First(h), inbox) == []
    ensures var r := Result(h, LastRead(First(h), inbox, -1)); if h == CREATE then r == 0
        else 0 <= r == inbox[|inbox| - 1].value
  {
    assert Ends(Idle, inbox[1..]);
    if |inbox| == 2 {
      assert Ends(Idle, inbox[1..][1..]);
    }
  }

  /** A call over a working connection sends exactly its request and reads answers until
      the client may go on, no more; over a broken one it does nothing and fails. */
  ghost predicate Called(ev: Event, works: bool, outgoing: seq<byte>, answers: seq<Response>,
                         outgoing': seq<byte>, answers': seq<Response>, r: int)
    requires Sendable(ev)
  {
    var phase := First(HeaderOf(ev));
    if works then
      && Fits(Request(ev)) && outgoing' == outgoing + Serialized(Request(ev))
      && answers' == Remaining(phase, answers)
      && r == Result(HeaderOf(ev), LastRead(phase, answers, -1))
    else
      outgoing' == outgoing && answers' == answers && r == -1
  }

  /** The library's connection to the server. */
  class Connection {
    /** The descriptor under which the server knows this client. */
    const pid: Pid
    /** Whether connecting succeeds, and whether the socket still takes bytes. */
    const reachable: bool
    const up: bool
    var initialized: bool
    var outgoing: seq<byte>
    /** Everything the server sends from now on; a receive blocks until it is there. */
    var incoming: seq<byte>
    ghost var answers: seq<Response>

    ghost predicate Valid()
      reads this
    {
      (forall r :: r in answers ==> IsInt(r.value)) && incoming == Wires(answers)
    }

    constructor (pid: Pid, reachable: bool, up: bool, incoming: seq<byte>, ghost answers: seq<Response>)
      requires (forall r :: r in answers ==> IsInt(r.value)) && incoming == Wires(answers)
      ensures Valid() && this.pid == pid && this.reachable == reachable && this.up == up
      ensures !initialized && outgoing == [] && this.answers == answers
    {
      this.pid, this.reachable, this.up, initialized := pid, reachable, up, false;
      outgoing, this.incoming, this.answers := [], incoming, answers;
    }

    /** `confirm_action`: header, payload, first value. */
    method ConfirmAction() returns (value: int)
      requires Valid() && answers != []
      modifies this`incoming, this`answers
      ensures Valid() && value == old(answers)[0].value && answers == old(answers)[1..]
    {
      hide EncodeInt, DecodeInt, Parse, Serialized, Fits;
      assert answers[0] in answers;
      WireFits(answers[0]);
      ReadSerialized(Wire(answers[0]), Wires(answers[1..]));
      assert ReadMessage(incoming) == Some((Wire(answers[0]), Wires(answers[1..])));
      var size := DecodeInt(incoming[4..8]);
      var values := ReceivePackage(incoming[8..8 + size]);
      DecodeEncode(answers[0].value);
      value := DecodeInt(values.value[0]);
      incoming := incoming[8 + size..];
      answers := answers[1..];
    }

    /** `send_package`. Before the connection is initialised the socket is descriptor 0, which
        is not one. */
    method Send(package: Package) returns (sent: bool)
      requires package.Valid() && package.dataSize + 8 <= INT_MAX
      modifies this`outgoing
      ensures sent == (up && initialized) && Fits(Message(package.kind, package.values))
      ensures outgoing == if sent then old(outgoing) + Serialized(Message(package.kind, package.values))
          else old(outgoing)
    {
      var bytes := package.Serialize();
      sent := up && initialized;
      if sent {
        outgoing := outgoing + bytes[..];
      }
    }

    method SuseCreate(tid: int) returns (r: int)
      requires Valid() && IsInt(tid) && (up && (initialized || reachable) ==> Ends(First(CREATE), answers))
      modifies this
      ensures Valid() && initialized == (old(initialized) || reachable)
      ensures Called(ECreate(pid, tid), up && initialized, old(outgoing), old(answers), outgoing, answers, r)
      ensures up && initialized ==>
                var sent := old(answers);
                && sent != []
                && if sent[0].value == 1 then answers == sent[1..] && r == 0
                   else |sent| >= 2 && answers == sent[2..] && r == if sent[1].value == 1 then 0 else -1
    {
      hide EncodeInt, Serialized, Fits, Wires, Pack;
      if !initialized {
        initialized := reachable;
      }
      if !initialized {
        return -1;
      }
      if up {
        ReadsOnce(CREATE, answers);
      }
      var package := new Package(Code(CREATE));
      package.Add(EncodeInt(tid));
      assert package.values == [EncodeInt(tid)];
      var sent := Send(package);
      if !sent {
        return -1;
      }
      var answer := ConfirmAction();
      if answer == 1 {
        return 0;
      }
      answer := ConfirmAction();
      r := if answer == 1 then 0 else -1;
    }

    method SuseScheduleNext() returns (r: int)
      requires Valid() && (up && initialized ==> Ends(First(SCHEDULE_NEXT), answers))
      modifies this
      ensures Valid() && initialized == old(initialized)
      ensures Called(ESchedule(pid), up && initialized, old(outgoing), old(answers), outgoing, answers, r)
      ensures up && initialized ==>
                var sent := old(answers);
                && sent != []
                && if sent[0].value >= 0 then answers == sent[1..] && r == sent[0].value
                   else |sent| >= 2 && answers == sent[2..]
                        && r == if sent[1].value >= 0 then sent[1].value else -1
    {
      hide EncodeInt, Serialized, Fits, Wires, Pack;
      if up && initialized {
        ReadsOnce(SCHEDULE_NEXT, answers);
      }
      var package := new Package(Code(SCHEDULE_NEXT));
      package.Add(EncodeInt(1));
      assert package.values == [EncodeInt(1)];
      var sent := Send(package);
      if !sent {
        return -1;
      }
      var next := ConfirmAction();
      if next >= 0 {
        return next;
      }
      next := ConfirmAction();
      r := if next >= 0 then next else -1;
    }

    method SuseJoin(tid: int) returns (r: int)
      requires Valid() && Sendable(EJoin(pid, tid)) && (up && initialized ==> Ends(First(JOIN), answers))
      modifies this
      ensures Valid() && initialized == old(initialized)
      ensures Called(EJoin(pid, tid), up && initialized, old(outgoing), old(answers), outgoing, answers, r)
      ensures up && initialized ==>
                && old(answers) != [] && answers == old(answers)[1..]
                && r == if old(answers)[0].value == 1 then 0 else -1
    {
      hide EncodeInt, Serialized, Fits, Wires, IsName, Pack;
      if up && initialized {
        ReadsOnce(JOIN, answers);
      }
      var package := new Package(Code(JOIN));
      package.Add(EncodeInt(tid));
      assert package.values == [EncodeInt(tid)];
      var sent := Send(package);
      if !sent {
        return -1;
      }
      var answer := ConfirmAction();
      r := if answer == 1 then 0 else -1;
    }

    method SuseClose(tid: int) returns (r: int)
      requires Valid() && Sendable(EClose(pid, tid)) && (up && initialized ==> Ends(First(CLOSE), answers))
      modifies this
      ensures Valid() && initialized == old(initialized)
      ensures Called(EClose(pid, tid), up && initialized, old(outgoing), old(answers), outgoing, answers, r)
      ensures up && initialized ==>
                && old(answers) != [] && answers == old(answers)[1..]
                && r == if old(answers)[0].value == 1 then 0 else -1
    {
      hide EncodeInt, Serialized, Fits, Wires, IsName, Pack;
      if up && initialized {
        ReadsOnce(CLOSE, answers);
      }
      var package := new Package(Code(CLOSE));
      package.Add(EncodeInt(tid));
      assert package.values == [EncodeInt(tid)];
      var sent := Send(package);
      if !sent {
        return -1;
      }
      var answer := ConfirmAction();
      r := if answer == 1 then 0 else -1;
    }

    method SuseWait(tid: int, id: string) returns (r: int)
      requires Valid() && Sendable(EWait(pid, tid, id)) && (up && initialized ==> Ends(First(WAIT), answers))
      modifies this
      ensures Valid() && initialized == old(initialized)
      ensures Called(EWait(pid, tid, id), up && initialized, old(outgoing), old(answers), outgoing, answers, r)
      ensures up && initialized ==>
                && old(answers) != [] && answers == old(answers)[1..]
                && r == if old(answers)[0].value == 1 then 0 else -1
    {
      hide EncodeInt, Serialized, Fits, Wires, IsName, Pack;
      if up && initialized {
        ReadsOnce(WAIT, answers);
      }
      var package := new Package(Code(WAIT));
      package.Add(EncodeInt(tid));
      package.Add(NameBytes(id));
      assert package.values == [EncodeInt(tid), NameBytes(id)];
      var sent := Send(package);
      if !sent {
        return -1;
      }
      var answer := ConfirmAction();
      r := if answer == 1 then 0 else -1;
    }

    method SuseSignal(tid: int, id: string) returns (r: int)
      requires Valid() && Sendable(ESignal(pid, tid, id)) && (up && initialized ==> Ends(First(SIGNAL), answers))
      modifies this
      ensures Valid() && initialized == old(initialized)
      ensures Called(ESignal(pid, tid, id), up && initialized, old(outgoing), old(answers), outgoing, answers, r)
      ensures up && initialized ==>
                && old(answers) != [] && answers == old(answers)[1..]
                && r == if old(answers)[0].value == 1 then 0 else -1
    {
      hide EncodeInt, Serialized, Fits, Wires, IsName, Pack;
      if up && initialized {
        ReadsOnce(SIGNAL, answers);
      }
      var package := new Package(Code(SIGNAL));
      package.Add(EncodeInt(tid));
      package.Add(NameBytes(id));
      assert package.values == [EncodeInt(tid), NameBytes(id)];
      var sent := Send(package);
      if !sent {
        return -1;
      }
      var answer := ConfirmAction();
      r := if answer == 1 then 0 else -1;
    }
  }
}
