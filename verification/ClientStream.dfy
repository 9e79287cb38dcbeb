/** How the relay's stages before forwarding read a client's byte stream: the first
    command, the wait in the queue and the READY handshake.  Each function is what one
    handler of server/reactor_relay.cpp does to the receive buffer. */
module ClientStream {
  import opened Bytes
  import opened Framing

  const CODE_LENGTH: nat := 5

  datatype Intent = ToQueue | ToCreateRoom | ToJoinRoom

  // ---------------------------------------------------------------- first command

  /** The token field at an offset: [len:1][token:len], empty when absent or cut short. */
  function TokenAt(pl: seq<byte>, off: nat): seq<byte> {
    if |pl| < off + 1 then []
    else
      var n := pl[off] as int;
      if n == 0 || |pl| < off + 1 + n then [] else pl[off + 1..off + 1 + n]
  }

  predicate GoodJoin(pl: seq<byte>) {
    |pl| > 0 && 0 < pl[0] as int <= CODE_LENGTH && |pl| >= 1 + pl[0] as int
  }

  predicate IsCommand(f: Frame) {
    f.ty == QUEUE_JOIN || f.ty == QUEUE_CANCEL || f.ty == ROOM_CREATE ||
    (f.ty == ROOM_JOIN && GoodJoin(f.payload))
  }

  /** Index of the first command, the number of frames when there is none. */
  function FirstCommand(fs: seq<Frame>): (k: nat)
    ensures k <= |fs|
    ensures k < |fs| ==> IsCommand(fs[k])
    ensures forall i :: 0 <= i < k ==> !IsCommand(fs[i])
  {
    if fs == [] || IsCommand(fs[0]) then 0 else 1 + FirstCommand(fs[1..])
  }

  datatype First =
    | Violation
    | Waiting(rx: seq<byte>)
    | Cancelled
    | Chosen(intent: Intent, code: seq<byte>, token: seq<byte>, rx: seq<byte>)

  /** What a command asks for; rx is what was received behind it. */
  function Obey(f: Frame, rx: seq<byte>): First
    requires IsCommand(f)
  {
    if f.ty == QUEUE_CANCEL then Cancelled
    else if f.ty == QUEUE_JOIN then Chosen(ToQueue, [], TokenAt(f.payload, 0), rx)
    else if f.ty == ROOM_CREATE then Chosen(ToCreateRoom, [], TokenAt(f.payload, 0), rx)
    else
      var n := f.payload[0] as int;
      Chosen(ToJoinRoom, f.payload[1..1 + n], TokenAt(f.payload, 1 + n), rx)
  }

  function ReadFirst(rx: seq<byte>): First {
    var p := Parse(rx);
    if !p.ok then Violation
    else
      var k := FirstCommand(p.frames);
      if k == |p.frames| then Waiting(p.rest) else Obey(p.frames[k], Residual(p, k + 1))
  }

  // ---------------------------------------------------------------- waiting in the queue

  predicate HasCancel(fs: seq<Frame>) {
    exists i :: 0 <= i < |fs| && fs[i].ty == QUEUE_CANCEL
  }

  /** A queued connection is closed on a framing violation or a QUEUE_CANCEL. */
  predicate StaysQueued(rx: seq<byte>) {
    Parse(rx).ok && !HasCancel(Parse(rx).frames)
  }

  // ---------------------------------------------------------------- READY handshake

  datatype Lobby =
    | Corrupt
    | Undecided(rx: seq<byte>)
    | Declined(rx: seq<byte>)
    | Accepted(rx: seq<byte>)

  /** Reads the buffer up to the first decision; a game frame stops the reading. */
  function ReadLobby(rx: seq<byte>): (r: Lobby)
    ensures !r.Corrupt? ==> |r.rx| <= |rx|
    decreases |rx|
  {
    if |rx| < 6 then Undecided(rx)
    else
      match Scan(rx)
      case Oversized => Corrupt
      case Incomplete => Undecided(rx)
      case Whole(n) =>
        var u := rx[..n];
        if n < 7 then ReadLobby(rx[n..])
        else if u[2] != READY && u[2] != QUEUE_CANCEL then Undecided(rx)
        else if !ChecksumOk(u) then ReadLobby(rx[n..])
        else if u[2] == READY && n >= 8 && u[3] != 0 then Accepted(rx[n..])
        else Declined(rx[n..])
  }

  // ---------------------------------------------------------------- facts the relay uses

  lemma FirstFits(rx: seq<byte>)
    ensures ReadFirst(rx).Waiting? ==> |ReadFirst(rx).rx| <= |rx|
    ensures ReadFirst(rx).Chosen? ==> |ReadFirst(rx).rx| <= |rx|
  {
    var p := Parse(rx);
    SplitPartition(rx);
    if p.ok {
      var k := FirstCommand(p.frames);
      if k < |p.frames| {
        ResidualFits(rx, k + 1);
      }
    }
  }

  // ---------------------------------------------------------------- what clients send

  /** The token as clients put it behind a command: [len:1][token:len], cut at 255 bytes. */
  function Clamped(token: seq<byte>): seq<byte> { if |token| <= 255 then token else token[..255] }

  function Field(bytes: seq<byte>): seq<byte>
    requires |bytes| <= 255
  {
    [|bytes| as byte] + bytes
  }

  lemma OneFrame(ty: byte, payload: seq<byte>, behind: seq<byte>)
    requires |payload| <= MAX_PAYLOAD
    ensures Parse(BuildFrame(ty, payload) + behind) ==
            Parsed(Parse(behind).ok, [Frame(ty, payload)] + Parse(behind).frames, Parse(behind).rest)
  {
    var f := Frame(ty, payload);
    assert [f][1..] == [] && BuildAll([f][1..]) == [];
    assert BuildAll([f]) == BuildFrame(ty, payload) + [] == BuildFrame(ty, payload);
    BuildParse([f], behind);
  }

  lemma CommandIsFirst(f: Frame, behind: seq<byte>)
    requires |f.payload| <= MAX_PAYLOAD && IsCommand(f) && Parse(behind).ok
    ensures ReadFirst(BuildFrame(f.ty, f.payload) + behind) == Obey(f, Residual(Parse(behind), 0))
  {
    OneFrame(f.ty, f.payload, behind);
    var p := Parse(BuildFrame(f.ty, f.payload) + behind);
    assert p.frames[0] == f && p.frames[1..] == Parse(behind).frames[0..];
  }

  /** Joining the queue and creating a room are understood as meant, token and all, and nothing
      received behind the command is lost. */
  lemma EntryRead(token: seq<byte>, behind: seq<byte>)
    requires Parse(behind).ok
    ensures ReadFirst(BuildFrame(QUEUE_JOIN, Field(Clamped(token))) + behind) ==
            Chosen(ToQueue, [], Clamped(token), Residual(Parse(behind), 0))
    ensures ReadFirst(BuildFrame(ROOM_CREATE, Field(Clamped(token))) + behind) ==
            Chosen(ToCreateRoom, [], Clamped(token), Residual(Parse(behind), 0))
    ensures ReadFirst(BuildFrame(QUEUE_CANCEL, []) + behind) == Cancelled
  {
    var pl := Field(Clamped(token));
    assert pl[1..] == Clamped(token) && TokenAt(pl, 0) == Clamped(token);
    CommandIsFirst(Frame(QUEUE_JOIN, pl), behind);
    CommandIsFirst(Frame(ROOM_CREATE, pl), behind);
    CommandIsFirst(Frame(QUEUE_CANCEL, []), behind);
  }

  /** Joining a room: a code of at most five characters is understood as meant, an empty or
      longer one is passed over. */
  lemma JoinRead(code: seq<byte>, token: seq<byte>, behind: seq<byte>)
    requires |code| <= 255 && Parse(behind).ok
    ensures ReadFirst(BuildFrame(ROOM_JOIN, Field(code) + Field(Clamped(token))) + behind) ==
            if 1 <= |code| <= 5 then Chosen(ToJoinRoom, code, Clamped(token), Residual(Parse(behind), 0))
            else ReadFirst(behind)
  {
    var pl := Field(code) + Field(Clamped(token));
    JoinFields(code, Clamped(token));
    if 1 <= |code| <= 5 {
      CommandIsFirst(Frame(ROOM_JOIN, pl), behind);
    } else {
      OneFrame(ROOM_JOIN, pl, behind);
      PassedOver(Frame(ROOM_JOIN, pl), Parse(behind), Parse(BuildFrame(ROOM_JOIN, pl) + behind));
    }
  }

  lemma JoinFields(code: seq<byte>, token: seq<byte>)
    requires |code| <= 255 && |token| <= 255
    ensures var pl := Field(code) + Field(token);
            |pl| == 2 + |code| + |token| && pl[0] as int == |code| && pl[1..1 + |code|] == code &&
            TokenAt(pl, 1 + |code|) == token
  {
    var pl, off := Field(code) + Field(token), 1 + |code|;
    assert pl[off] as int == |token| && pl[off + 1..off + 1 + |token|] == token;
  }

  lemma PassedOver(f: Frame, p: Parsed, q: Parsed)
    requires !IsCommand(f) && p.ok && q == Parsed(true, [f] + p.frames, p.rest)
    ensures FirstCommand(q.frames) == 1 + FirstCommand(p.frames)
    ensures var k := FirstCommand(p.frames);
            (k < |p.frames| ==> q.frames[k + 1] == p.frames[k] && Residual(q, k + 2) == Residual(p, k + 1))
  {
    assert q.frames[1..] == p.frames;
    var k := FirstCommand(p.frames);
    if k < |p.frames| { assert q.frames[k + 2..] == p.frames[k + 1..]; }
  }

  /** In the lobby the first frame decides if it is a READY, by whether its payload has a first
      byte other than 0, or a QUEUE_CANCEL; any other frame of that player stops the reading. */
  lemma DecisionRead(ty: byte, payload: seq<byte>, behind: seq<byte>)
    requires |payload| <= MAX_PAYLOAD
    ensures ReadLobby(BuildFrame(ty, payload) + behind) ==
            if ty == READY && |payload| > 0 && payload[0] != 0 then Accepted(behind)
            else if ty == READY || ty == QUEUE_CANCEL then Declined(behind)
            else Undecided(BuildFrame(ty, payload) + behind)
  {
    var u := BuildFrame(ty, payload);
    BuildDecode(ty, payload);
    UnitThen(u, behind);
    assert (u + behind)[..|u|] == u && (u + behind)[|u|..] == behind;
  }

  /** Of whole frames one QUEUE_CANCEL, wherever it stands, ends the wait, and nothing else does. */
  lemma CancelRead(fs: seq<Frame>)
    requires Sendable(fs)
    ensures StaysQueued(BuildAll(fs)) <==> forall i :: 0 <= i < |fs| ==> fs[i].ty != QUEUE_CANCEL
  {
    BuildParse(fs, []);
    assert BuildAll(fs) + [] == BuildAll(fs) && fs + [] == fs;
  }
}
