/** One client's byte stream through the whole matchmaking path: first frame,
    authentication, queue, READY handshake, forwarding.  Every stage buffers, re-prints or
    consumes part of the stream; the theorem is that the opponent ends up with exactly the
    client's frames, wherever the reads and the stage changes fall.  That the relay's handlers
    take these steps and no others is RelayPath's and RelayLoop's part. */
module QueuePath {
  import opened Bytes
  import opened Framing
  import opened Screening
  import opened ClientStream

  datatype Stage = AtFirstFrame | AtAuth | AtQueue | AtLobby | AtLobbyReady | AtForward | AtClosed

  /** The part of a connection this path reads and writes: the bytes received and not consumed,
      everything the opponent has got since it became the opponent, whether the match is
      ranked, and everything the client has delivered. */
  datatype Link = Link(stage: Stage, rx: seq<byte>, sent: seq<byte>, ranked: bool, got: seq<byte>)

  datatype Event =
    | Read(chunk: seq<byte>)                     // bytes from the client, split anywhere
    | Authenticated                              // the auth round trip came back
    | Paired(ranked: bool, first: bool, info: Info)   // an opponent was found, and told its number
    | Started                                    // the opponent is ready too

  const Fresh: Link := Link(AtFirstFrame, [], [], false, [])

  /** A connection that is closed, or on another path. */
  const Gone: Link := Link(AtClosed, [], [], false, [])

  /** READY(1), as the opponent gets it. */
  function Yes(): seq<byte> { BuildFrame(READY, [1]) }

  /** What a match is announced with; the two icons are of player 1 and player 2. */
  datatype Info = Info(seed: nat, first: seq<byte>, second: seq<byte>, uuid: seq<byte>)

  /** A string of at most 255 bytes behind its length. */
  function Short(s: seq<byte>): (r: seq<byte>)
    ensures |r| <= 256
  {
    if |s| <= 255 then [|s|] + s else [255] + s[..255]
  }

  /** MATCH_FOUND: the player's number, the seed, its own icon, the other's, and the match id. */
  function Found(first: bool, m: Info): seq<byte> {
    BuildFrame(MATCH_FOUND, [if first then 1 else 2] + LeBytes(m.seed, 8) +
                            Short(if first then m.first else m.second) + Short(if first then m.second else m.first) +
                            Short(m.uuid))
  }

  function OnQueued(l: Link): Link {
    if StaysQueued(l.rx) then l else l.(stage := AtClosed)
  }

  function OnLobby(l: Link): Link {
    match ReadLobby(l.rx)
    case Corrupt => l.(stage := AtClosed)
    case Declined(_) => l.(stage := AtClosed)
    case Undecided(rx) => l.(rx := rx)
    case Accepted(rx) => l.(stage := AtLobbyReady, rx := rx, sent := l.sent + Yes())
  }

  function OnForward(l: Link): Link {
    l.(rx := Left(l.rx), sent := l.sent + Out(l.ranked, l.rx))
  }

  function OnFirst(l: Link): Link {
    match ReadFirst(l.rx)
    case Violation => l.(stage := AtClosed)
    case Cancelled => l.(stage := AtClosed)
    case Waiting(rx) => l.(rx := rx)
    case Chosen(ToQueue, _, _, rx) => l.(stage := AtAuth, rx := rx)
    case Chosen(_, _, _, _) => l.(stage := AtClosed)   // another path, not modelled here
  }

  function OnRead(l: Link): Link {
    match l.stage
    case AtFirstFrame => OnFirst(l)
    case AtAuth => l
    case AtQueue => OnQueued(l)
    case AtLobby => OnLobby(l)
    case AtLobbyReady => l
    case AtForward => OnForward(l)
    case AtClosed => l
  }

  function Took(l: Link, chunk: seq<byte>): Link { l.(rx := l.rx + chunk, got := l.got + chunk) }

  function Step(l: Link, e: Event): Link {
    match e
    case Read(chunk) => if chunk == [] || l.stage == AtClosed then l else OnRead(Took(l, chunk))
    case Authenticated => if l.stage == AtAuth then OnQueued(l.(stage := AtQueue)) else l
    case Paired(ranked, first, info) =>
      if l.stage == AtQueue then OnLobby(l.(stage := AtLobby, ranked := ranked, sent := Found(first, info))) else l
    case Started =>
      // Starting again only flushes again.
      if l.stage == AtLobbyReady || l.stage == AtForward then OnForward(l.(stage := AtForward)) else l
  }

  function StepAll(l: Link, es: seq<Event>): Link {
    if es == [] then l else Step(StepAll(l, es[..|es| - 1]), es[|es| - 1])
  }

  function Run(es: seq<Event>): Link { StepAll(Fresh, es) }

  // ---------------------------------------------------------------- reachability

  /** Nothing but the relay's own events: nothing is read. */
  ghost predicate Inner(es: seq<Event>) { forall i :: 0 <= i < |es| ==> !es[i].Read? }

  /** m is closed, or what some events of the relay make of l. */
  ghost predicate Reaches(l: Link, m: Link) {
    m.stage == AtClosed || exists es :: Inner(es) && m == StepAll(l, es)
  }

  /** l is closed, or what some run makes of a new connection. */
  ghost predicate Reached(l: Link) {
    l.stage == AtClosed || exists es :: l == Run(es)
  }

  lemma {:induction false} StepAppend(l: Link, a: seq<Event>, b: seq<Event>)
    ensures StepAll(l, a + b) == StepAll(StepAll(l, a), b)
    decreases |b|
  {
    if b == [] {
      assert a + b == a;
    } else {
      var n := |b| - 1;
      assert (a + b)[..|a + b| - 1] == a + b[..n];
      StepAppend(l, a, b[..n]);
    }
  }

  /** Nothing comes back from being closed. */
  lemma {:induction false} ClosedStays(l: Link, es: seq<Event>)
    requires l.stage == AtClosed
    ensures StepAll(l, es) == l
  {
    if es != [] {
      ClosedStays(l, es[..|es| - 1]);
    }
  }

  lemma ReachesSelf(l: Link)
    ensures Reaches(l, l)
  {
    assert Inner([]) && l == StepAll(l, []);
  }

  lemma StepOne(l: Link, e: Event)
    ensures StepAll(l, [e]) == Step(l, e)
  {
    assert [e][..0] == [];
  }

  lemma ReachesStep(l: Link, e: Event)
    requires !e.Read?
    ensures Reaches(l, Step(l, e))
  {
    StepOne(l, e);
    assert Inner([e]);
  }

  /** From a closed connection nothing but closed ones are reached. */
  lemma FromClosed(l: Link, m: Link)
    requires Reaches(l, m) && l.stage == AtClosed
    ensures m.stage == AtClosed
  {
    if m.stage != AtClosed {
      var es :| Inner(es) && m == StepAll(l, es);
      ClosedStays(l, es);
    }
  }

  lemma ReachesTrans(l: Link, m: Link, n: Link)
    requires Reaches(l, m) && Reaches(m, n)
    ensures Reaches(l, n)
  {
    if n.stage != AtClosed {
      var b :| Inner(b) && n == StepAll(m, b);
      if m.stage == AtClosed { ClosedStays(m, b); }
      var a :| Inner(a) && m == StepAll(l, a);
      StepAppend(l, a, b);
      assert Inner(a + b);
    }
  }

  /** n is l paired: what reading its lobby makes of it is reached from l. */
  lemma PairedReaches(l: Link, n: Link, ranked: bool, told: seq<byte>, m: Link)
    requires l.stage == AtQueue && n == l.(stage := AtLobby, ranked := ranked, sent := told) && IsFound(told)
    requires Reaches(OnRead(n), m)
    ensures Reaches(l, m)
  {
    var first, info :| told == Found(first, info);
    PairedStep(l, n, ranked, first, info);
    StepReaches(l, Paired(ranked, first, info), m);
  }

  lemma GoneReaches(l: Link, m: Link)
    requires Reaches(OnRead(Gone), m)
    ensures Reaches(l, m)
  {
    FromClosed(OnRead(Gone), m);
  }

  lemma PairedStep(l: Link, n: Link, ranked: bool, first: bool, info: Info)
    requires l.stage == AtQueue && n == l.(stage := AtLobby, ranked := ranked, sent := Found(first, info))
    ensures OnRead(n) == OnLobby(n) == Step(l, Paired(ranked, first, info))
  {}

  lemma StepReaches(l: Link, e: Event, m: Link)
    requires !e.Read? && Reaches(Step(l, e), m)
    ensures Reaches(l, m)
  {
    ReachesStep(l, e);
    ReachesTrans(l, Step(l, e), m);
  }

  /** The run goes on: one more event, and whatever the relay makes of it. */
  lemma ReachedOn(l: Link, e: Event, m: Link)
    requires Reached(l) && Reaches(Step(l, e), m)
    ensures Reached(m)
  {
    if m.stage != AtClosed {
      var b :| Inner(b) && m == StepAll(Step(l, e), b);
      if l.stage == AtClosed {
        ClosedStays(l, b);
      } else {
        var a :| l == Run(a);
        StepOne(l, e);
        StepAppend(Fresh, a, [e]);
        StepAppend(Fresh, a + [e], b);
        assert m == Run(a + [e] + b);
      }
    }
  }

  lemma ReadingKeepsGot(l: Link)
    ensures OnQueued(l).got == l.got && OnLobby(l).got == l.got && OnForward(l).got == l.got && OnRead(l).got == l.got
  {
    FirstGot(l);
    LobbyGot(l);
  }

  lemma LobbyGot(l: Link)
    ensures OnLobby(l).got == l.got
  {
    match ReadLobby(l.rx)
    case Corrupt =>
    case Declined(_) =>
    case Undecided(_) =>
    case Accepted(_) =>
  }

  lemma FirstGot(l: Link)
    ensures OnFirst(l).got == l.got
  {}

  lemma StepGot(l: Link, e: Event)
    requires !e.Read?
    ensures Step(l, e).got == l.got
  {
    match e
    case Authenticated => ReadingKeepsGot(l.(stage := AtQueue));
    case Paired(ranked, first, info) =>
      ReadingKeepsGot(l.(stage := AtLobby, ranked := ranked, sent := Found(first, info)));
    case Started => ReadingKeepsGot(l.(stage := AtForward));
  }

  /** Between two reads the bytes received stay what they are. */
  lemma {:induction false} InnerGot(l: Link, es: seq<Event>)
    requires Inner(es)
    ensures StepAll(l, es).got == l.got
  {
    if es != [] {
      InnerGot(l, es[..|es| - 1]);
      StepGot(StepAll(l, es[..|es| - 1]), es[|es| - 1]);
    }
  }

  /** A buffer that holds nothing is read without effect. */
  lemma NothingToRead(l: Link)
    requires l.rx == []
    ensures OnLobby(l) == l && OnForward(l) == l
  {
    assert l.sent + [] == l.sent;
  }

  // ---------------------------------------------------------------- the client

  /** A client that queues, accepts, and then sends anything that is not a cancellation and
      never declares an oversized frame. */
  datatype Client = Client(join: seq<byte>, ready: seq<byte>, tail: seq<byte>) {
    ghost predicate Valid() {
      |join| <= MAX_PAYLOAD && 0 < |ready| <= MAX_PAYLOAD && ready[0] != 0 &&
      Parse(tail).ok && !HasCancel(Parse(tail).frames)
    }
    function J(): seq<byte> { BuildFrame(QUEUE_JOIN, join) }
    function Y(): seq<byte> { BuildFrame(READY, ready) }
    function Stream(): seq<byte> { J() + Y() + tail }
    /** Of the bytes received, those behind READY. */
    function Behind(got: seq<byte>): seq<byte>
      requires |got| >= |J()| + |Y()|
    {
      got[|J()| + |Y()|..]
    }
  }

  // ---------------------------------------------------------------- small facts

  lemma UnitHead(u: seq<byte>, t: seq<byte>)
    requires IsUnit(u)
    ensures Scan(u + t) == Whole(|u|)
    ensures (u + t)[..|u|] == u && (u + t)[|u|..] == t
    ensures Parse(u + t).ok == Parse(t).ok
    ensures Parse(u + t).frames == Decode(u) + Parse(t).frames
    ensures Parse(u + t).rest == Parse(t).rest
  {
    UnitThen(u, t);
    FramesOfAppend([u], Split(t).units);
    FramesOfOne(u);
  }

  /** A proper prefix of a unit is an unfinished frame. */
  lemma ProperPrefix(x: seq<byte>, u: seq<byte>)
    requires IsUnit(u) && x <= u && |x| < |u|
    ensures Scan(x) == Incomplete
    ensures Parse(x) == Parsed(true, [], x)
  {
    if |x| >= 2 {
      assert DeclaredLength(x) == DeclaredLength(u);
    }
  }

  lemma OkPrefix(a: seq<byte>, s: seq<byte>)
    requires Parse(s).ok && a <= s
    ensures Parse(a).ok
    ensures Parse(a).frames <= Parse(s).frames
  {
    var b := s[|a|..];
    assert s == a + b;
    ParseAppend(a, b);
  }

  lemma NoCancelPrefix(fs: seq<Frame>, gs: seq<Frame>)
    requires fs <= gs && !HasCancel(gs)
    ensures !HasCancel(fs)
  {
    forall i | 0 <= i < |fs|
      ensures fs[i].ty != QUEUE_CANCEL
    {
      assert fs[i] == gs[i];
    }
  }

  lemma SameAfterRead(x: seq<byte>, y: seq<byte>, c: seq<byte>)
    requires Parse(x) == Parse(y) && Parse(x).ok
    ensures Parse(x + c) == Parse(y + c)
  {
    ParseAppend(x, c);
    ParseAppend(y, c);
  }

  // ---------------------------------------------------------------- the invariant

  /** The buffer holds the stream after JOIN: byte for byte while READY is incomplete, and
      afterwards READY followed by something that parses like the rest of the stream. */
  ghost predicate Holds(c: Client, rx: seq<byte>, after: seq<byte>) {
    if |after| < |c.Y()| then rx == after
    else c.Y() <= rx && Parse(rx[|c.Y()|..]) == Parse(after[|c.Y()|..])
  }

  ghost predicate Inv(c: Client, l: Link)
    requires l.got <= c.Stream()
  {
    var j, y, got := |c.J()|, |c.Y()|, l.got;
    match l.stage
    case AtFirstFrame => |got| < j && l.rx == got && l.sent == []
    case AtAuth => |got| >= j && Holds(c, l.rx, got[j..]) && l.sent == []
    case AtQueue => |got| >= j && Holds(c, l.rx, got[j..]) && l.sent == []
    case AtLobby => j <= |got| < j + y && l.rx == got[j..] && IsFound(l.sent)
    case AtLobbyReady => |got| >= j + y && Parse(l.rx) == Parse(c.Behind(got)) && exists told :: Shown(l, told, [])
    case AtForward => |got| >= j + y && Relayed(l, c.Behind(got))
    case AtClosed => false
  }

  ghost predicate IsFound(told: seq<byte>) { exists first, m :: told == Found(first, m) }

  /** All the opponent has got: MATCH_FOUND, READY(1), and x. */
  ghost predicate Shown(l: Link, told: seq<byte>, x: seq<byte>) { IsFound(told) && l.sent == told + Yes() + x }

  /** The frames of t that are to be let through. */
  ghost predicate Lets(l: Link, x: seq<byte>, t: seq<byte>) {
    Parse(x) == Parsed(true, KeepFrames(l.ranked, Parse(t).frames), [])
  }

  /** Behind READY(1) the opponent has got exactly the frames of t that are let through; the
      tail is kept. */
  ghost predicate Relayed(l: Link, t: seq<byte>) {
    l.rx == Parse(t).rest && exists told, x :: Shown(l, told, x) && Lets(l, x, t)
  }

  lemma TakeDrop<T>(s: seq<T>, k: nat)
    requires k <= |s|
    ensures s == s[..k] + s[k..]
  {}

  lemma DropDrop<T>(s: seq<T>, i: nat, j: nat)
    requires i + j <= |s|
    ensures s[i..][j..] == s[i + j..]
  {}

  lemma PrefixOfFirst<T>(got: seq<T>, a: seq<T>, b: seq<T>)
    requires got <= a + b
    ensures |got| < |a| ==> got <= a
    ensures |got| >= |a| ==> got == a + got[|a|..] && got[|a|..] <= b
  {
    forall i | 0 <= i < |got|
      ensures got[i] == (a + b)[i]
    {}
    if |got| >= |a| {
      assert got[..|a|] == a;
      TakeDrop(got, |a|);
    }
  }

  /** Where the received bytes stand relative to JOIN, READY and the tail. */
  lemma Shape(c: Client, got: seq<byte>)
    requires c.Valid() && got <= c.Stream()
    ensures IsUnit(c.J()) && IsUnit(c.Y())
    ensures Decode(c.J()) == [Frame(QUEUE_JOIN, c.join)]
    ensures Decode(c.Y()) == [Frame(READY, c.ready)]
    ensures |got| < |c.J()| ==> got <= c.J()
    ensures |got| >= |c.J()| ==> got == c.J() + got[|c.J()|..]
    ensures |c.J()| <= |got| < |c.J()| + |c.Y()| ==> got[|c.J()|..] <= c.Y()
    ensures |got| >= |c.J()| + |c.Y()| ==>
              got[|c.J()|..] == c.Y() + c.Behind(got) && c.Behind(got) <= c.tail
  {
    BuildDecode(QUEUE_JOIN, c.join);
    BuildDecode(READY, c.ready);
    Associates(c.J(), c.Y(), c.tail);
    PrefixOfFirst(got, c.J(), c.Y() + c.tail);
    if |got| >= |c.J()| {
      PrefixOfFirst(got[|c.J()|..], c.Y(), c.tail);
      if |got| >= |c.J()| + |c.Y()| {
        DropDrop(got, |c.J()|, |c.Y()|);
      }
    }
  }

  lemma TailFacts(c: Client, got: seq<byte>)
    requires c.Valid() && got <= c.Stream() && |got| >= |c.J()| + |c.Y()|
    ensures Parse(c.Behind(got)).ok
    ensures !HasCancel(Parse(c.Behind(got)).frames)
  {
    Shape(c, got);
    OkPrefix(c.Behind(got), c.tail);
    NoCancelPrefix(Parse(c.Behind(got)).frames, Parse(c.tail).frames);
  }

  /** The buffer parses as READY, if complete, followed by the frames of the tail so far. */
  lemma HoldsParse(c: Client, rx: seq<byte>, got: seq<byte>)
    requires c.Valid() && got <= c.Stream() && |got| >= |c.J()|
    requires Holds(c, rx, got[|c.J()|..])
    ensures StaysQueued(rx)
    ensures |got| >= |c.J()| + |c.Y()| ==> rx == c.Y() + rx[|c.Y()|..]
  {
    Shape(c, got);
    var after := got[|c.J()|..];
    if |after| < |c.Y()| {
      ProperPrefix(after, c.Y());
    } else {
      TailFacts(c, got);
      var x := rx[|c.Y()|..];
      assert rx == c.Y() + x;
      assert after[|c.Y()|..] == c.Behind(got);
      UnitHead(c.Y(), x);
      CancelCons(Frame(READY, c.ready), Parse(x).frames);
    }
  }

  lemma CancelCons(f: Frame, fs: seq<Frame>)
    requires f.ty != QUEUE_CANCEL && !HasCancel(fs)
    ensures !HasCancel([f] + fs)
  {
    forall i | 0 <= i < |[f] + fs|
      ensures ([f] + fs)[i].ty != QUEUE_CANCEL
    {
      if i > 0 { assert ([f] + fs)[i] == fs[i - 1]; }
    }
  }

  // ---------------------------------------------------------------- one lemma per stage

  lemma DropAppend<T>(s: seq<T>, k: nat, t: seq<T>)
    requires k <= |s|
    ensures (s + t)[k..] == s[k..] + t
  {}

  lemma BehindAppend(c: Client, got: seq<byte>, chunk: seq<byte>)
    requires |got| >= |c.J()| + |c.Y()|
    ensures c.Behind(got + chunk) == c.Behind(got) + chunk
  {
    DropAppend(got, |c.J()| + |c.Y()|, chunk);
  }

  lemma HoldsWhileShort(c: Client, after: seq<byte>, chunk: seq<byte>)
    requires |after| < |c.Y()|
    requires |after + chunk| < |c.Y()| || c.Y() <= after + chunk
    ensures Holds(c, after + chunk, after + chunk)
  {}

  lemma HoldsOnceReady(c: Client, rx: seq<byte>, after: seq<byte>, chunk: seq<byte>)
    requires |after| >= |c.Y()| && Holds(c, rx, after) && Parse(after[|c.Y()|..]).ok
    ensures Holds(c, rx + chunk, after + chunk)
  {
    DropAppend(rx, |c.Y()|, chunk);
    DropAppend(after, |c.Y()|, chunk);
    SameAfterRead(rx[|c.Y()|..], after[|c.Y()|..], chunk);
  }

  lemma HoldsAfterRead(c: Client, rx: seq<byte>, got: seq<byte>, chunk: seq<byte>)
    requires c.Valid() && got + chunk <= c.Stream() && |got| >= |c.J()|
    requires got <= c.Stream()
    requires Holds(c, rx, got[|c.J()|..])
    ensures Holds(c, rx + chunk, (got + chunk)[|c.J()|..])
  {
    DropAppend(got, |c.J()|, chunk);
    var after := got[|c.J()|..];
    if |after| < |c.Y()| {
      Shape(c, got + chunk);
      HoldsWhileShort(c, after, chunk);
    } else {
      TailFacts(c, got);
      DropDrop(got, |c.J()|, |c.Y()|);
      HoldsOnceReady(c, rx, after, chunk);
    }
  }

  /** The command frame is complete: what is handed on is the rest of the stream. */
  lemma FirstFrameDone(c: Client, got: seq<byte>)
    requires c.Valid() && got <= c.Stream() && |got| >= |c.J()|
    ensures ReadFirst(got).Chosen? && ReadFirst(got).intent == ToQueue
    ensures Holds(c, ReadFirst(got).rx, got[|c.J()|..])
  {
    Shape(c, got);
    var after := got[|c.J()|..];
    UnitHead(c.J(), after);
    assert Parse(got).frames == [Frame(QUEUE_JOIN, c.join)] + Parse(after).frames;
    if |after| < |c.Y()| {
      ProperPrefix(after, c.Y());
    } else {
      TailFacts(c, got);
      UnitHead(c.Y(), c.Behind(got));
    }
    assert Parse(got).ok && FirstCommand(Parse(got).frames) == 0;
    assert Parse(got).frames[1..] == Parse(after).frames;
    assert ReadFirst(got).rx == BuildAll(Parse(after).frames) + Parse(after).rest;
    ResidualHolds(c, got);
  }

  lemma ResidualHolds(c: Client, got: seq<byte>)
    requires c.Valid() && got <= c.Stream() && |got| >= |c.J()|
    ensures var after := got[|c.J()|..];
            Holds(c, BuildAll(Parse(after).frames) + Parse(after).rest, after)
  {
    Shape(c, got);
    var after := got[|c.J()|..];
    if |after| < |c.Y()| {
      ProperPrefix(after, c.Y());
      assert BuildAll([]) + after == after;
    } else {
      var t := c.Behind(got);
      TailFacts(c, got);
      UnitHead(c.Y(), t);
      var fs := Parse(t).frames;
      assert ([Frame(READY, c.ready)] + fs)[1..] == fs;
      assert BuildAll([Frame(READY, c.ready)] + fs) == c.Y() + BuildAll(fs);
      Associates(c.Y(), BuildAll(fs), Parse(t).rest);
      var x := BuildAll(fs) + Parse(t).rest;
      assert fs[0..] == fs;
      ResidualParse(t, 0);
      assert (c.Y() + x)[|c.Y()|..] == x;
      assert after[|c.Y()|..] == t;
    }
  }

  lemma LobbyStep(c: Client, rx: seq<byte>, got: seq<byte>)
    requires c.Valid() && got <= c.Stream() && |got| >= |c.J()|
    requires Holds(c, rx, got[|c.J()|..])
    ensures |got| < |c.J()| + |c.Y()| ==> ReadLobby(rx) == Undecided(rx)
    ensures |got| >= |c.J()| + |c.Y()| ==>
              ReadLobby(rx).Accepted? && Parse(ReadLobby(rx).rx) == Parse(c.Behind(got))
  {
    Shape(c, got);
    if |got| < |c.J()| + |c.Y()| {
      ProperPrefix(rx, c.Y());
    } else {
      HoldsParse(c, rx, got);
      UnitHead(c.Y(), rx[|c.Y()|..]);
      BuildDecode(READY, c.ready);
      ReadyByte(c.ready);
      var u := c.Y();
      assert ChecksumOk(u) by { assert Decode(u) != []; }
      assert got[|c.J()|..][|c.Y()|..] == c.Behind(got);
    }
  }

  lemma ReadyByte(payload: seq<byte>)
    requires 0 < |payload| <= MAX_PAYLOAD
    ensures BuildFrame(READY, payload)[3] == payload[0]
    ensures |BuildFrame(READY, payload)| >= 8
  {}

  lemma ForwardStart(c: Client, l: Link)
    requires c.Valid() && l.got <= c.Stream()
    requires l.stage == AtLobbyReady && Inv(c, l)
    ensures Inv(c, OnForward(l.(stage := AtForward)))
  {
    var told :| Shown(l, told, []);
    var m := OnForward(l.(stage := AtForward));
    TailFacts(c, l.got);
    OutIsSafe(l.ranked, l.rx);
    assert told + Yes() + [] == told + Yes();
    assert Shown(m, told, Out(l.ranked, l.rx)) && Lets(m, Out(l.ranked, l.rx), c.Behind(l.got));
  }

  lemma ForwardAgain(c: Client, l: Link, chunk: seq<byte>)
    requires c.Valid() && l.got + chunk <= c.Stream() && l.got <= c.Stream()
    requires l.stage == AtForward && Inv(c, l)
    ensures Inv(c, OnForward(Took(l, chunk)))
  {
    var t := c.Behind(l.got);
    BehindAppend(c, l.got, chunk);
    assert Parse(t).ok && Parse(t + chunk).ok by {
      TailFacts(c, l.got);
      TailFacts(c, l.got + chunk);
    }
    ForwardMore(t, l, chunk);
  }

  lemma ForwardMore(t: seq<byte>, l: Link, chunk: seq<byte>)
    requires Parse(t).ok && Parse(t + chunk).ok
    requires Relayed(l, t)
    ensures Relayed(OnForward(Took(l, chunk)), t + chunk)
  {
    var told, x :| Shown(l, told, x) && Lets(l, x, t);
    var m := OnForward(Took(l, chunk));
    ParseAppend(t, chunk);
    var rx := l.rx + chunk;
    OutIsSafe(l.ranked, rx);
    KeepAppend(l.ranked, Parse(t).frames, Parse(rx).frames);
    SentAppend(x, Out(l.ranked, rx));
    Associates(told + Yes(), x, Out(l.ranked, rx));
    assert Shown(m, told, x + Out(l.ranked, rx)) && Lets(m, x + Out(l.ranked, rx), t + chunk);
  }

  lemma SentAppend(a: seq<byte>, b: seq<byte>)
    requires Parse(a).ok && Parse(a).rest == [] && Parse(b).ok && Parse(b).rest == []
    ensures Parse(a + b) == Parsed(true, Parse(a).frames + Parse(b).frames, [])
  {
    WholeFramesAppend(a, b);
    FramesOfAppend(Split(a).units, Split(b).units);
  }

  // ---------------------------------------------------------------- the theorem

  lemma FirstReadKeepsInv(c: Client, l: Link, chunk: seq<byte>)
    requires c.Valid() && l.got <= c.Stream() && l.got + chunk <= c.Stream()
    requires l.stage == AtFirstFrame && Inv(c, l)
    ensures OnRead(Took(l, chunk)).got == l.got + chunk && Inv(c, OnRead(Took(l, chunk)))
  {
    ReadingKeepsGot(Took(l, chunk));
    var next := l.got + chunk;
    if |next| < |c.J()| {
      Shape(c, next);
      ProperPrefix(next, c.J());
      assert ReadFirst(next) == Waiting(next);
    } else {
      FirstFrameDone(c, next);
    }
  }

  /** The lobby is read with a buffer that holds the rest of the stream. */
  lemma LobbyKeepsInv(c: Client, l: Link)
    requires c.Valid() && l.got <= c.Stream() && |l.got| >= |c.J()|
    requires l.stage == AtLobby && Holds(c, l.rx, l.got[|c.J()|..]) && IsFound(l.sent)
    ensures Inv(c, OnLobby(l))
  {
    LobbyStep(c, l.rx, l.got);
    LobbyRead(l);
    if |l.got| >= |c.J()| + |c.Y()| {
      AcceptKeepsInv(c, l, OnLobby(l));
    } else {
      WaitKeepsInv(c, l);
    }
  }

  lemma LobbyRead(l: Link)
    ensures ReadLobby(l.rx).Accepted? ==>
              OnLobby(l) == l.(stage := AtLobbyReady, rx := ReadLobby(l.rx).rx, sent := l.sent + Yes())
    ensures ReadLobby(l.rx).Undecided? ==> OnLobby(l) == l.(rx := ReadLobby(l.rx).rx)
  {}

  lemma WaitKeepsInv(c: Client, l: Link)
    requires c.Valid() && l.got <= c.Stream() && |c.J()| <= |l.got| < |c.J()| + |c.Y()|
    requires l.stage == AtLobby && Holds(c, l.rx, l.got[|c.J()|..]) && IsFound(l.sent)
    ensures Inv(c, l)
  {}

  lemma AcceptKeepsInv(c: Client, l: Link, m: Link)
    requires c.Valid() && l.got <= c.Stream() && |l.got| >= |c.J()| + |c.Y()|
    requires m == l.(stage := AtLobbyReady, rx := m.rx, sent := l.sent + Yes()) && IsFound(l.sent)
    requires Parse(m.rx) == Parse(c.Behind(l.got))
    ensures Inv(c, m)
  {
    assert l.sent + Yes() + [] == l.sent + Yes();
    assert Shown(m, l.sent, []);
  }

  lemma LobbyReadKeepsInv(c: Client, l: Link, chunk: seq<byte>)
    requires c.Valid() && l.got <= c.Stream() && l.got + chunk <= c.Stream()
    requires l.stage == AtLobby && Inv(c, l)
    ensures Inv(c, OnRead(Took(l, chunk)))
  {
    HoldsAfterRead(c, l.rx, l.got, chunk);
    LobbyKeepsInv(c, Took(l, chunk));
  }

  lemma ReadyReadKeepsInv(c: Client, l: Link, chunk: seq<byte>)
    requires c.Valid() && l.got <= c.Stream() && l.got + chunk <= c.Stream()
    requires l.stage == AtLobbyReady && Inv(c, l)
    ensures Inv(c, OnRead(Took(l, chunk)))
  {
    var told :| Shown(l, told, []);
    assert Parse(c.Behind(l.got)).ok by { TailFacts(c, l.got); }
    BehindAppend(c, l.got, chunk);
    SameAfterRead(l.rx, c.Behind(l.got), chunk);
    assert Shown(Took(l, chunk), told, []);
  }

  lemma ReadKeepsInv(c: Client, l: Link, chunk: seq<byte>)
    requires c.Valid() && l.got <= c.Stream() && l.got + chunk <= c.Stream()
    requires chunk != [] && Inv(c, l) && Step(l, Read(chunk)).got <= c.Stream()
    ensures Inv(c, Step(l, Read(chunk)))
  {
    match l.stage
    case AtFirstFrame => FirstReadKeepsInv(c, l, chunk);
    case AtAuth => HoldsAfterRead(c, l.rx, l.got, chunk);
    case AtQueue =>
      HoldsAfterRead(c, l.rx, l.got, chunk);
      HoldsParse(c, l.rx + chunk, l.got + chunk);
    case AtLobby => LobbyReadKeepsInv(c, l, chunk);
    case AtLobbyReady => ReadyReadKeepsInv(c, l, chunk);
    case AtForward => ForwardAgain(c, l, chunk);
  }

  lemma StepKeepsInv(c: Client, l: Link, e: Event)
    requires c.Valid() && l.got <= c.Stream() && !e.Read? && Step(l, e).got == l.got
    requires Inv(c, l)
    ensures Inv(c, Step(l, e))
  {
    match e
    case Authenticated => if l.stage == AtAuth { HoldsParse(c, l.rx, l.got); }
    case Paired(ranked, first, info) =>
      if l.stage == AtQueue {
        LobbyKeepsInv(c, l.(stage := AtLobby, ranked := ranked, sent := Found(first, info)));
      }
    case Started =>
      if l.stage == AtLobbyReady { ForwardStart(c, l); }
      if l.stage == AtForward {
        assert l.got + [] == l.got && l.rx + [] == l.rx && Took(l, []) == l;
        ForwardAgain(c, l, []);
      }
  }

  lemma GotGrows(l: Link, e: Event)
    ensures l.got <= Step(l, e).got
  {
    if e.Read? {
      ReadingKeepsGot(Took(l, e.chunk));
    } else {
      StepGot(l, e);
    }
  }

  lemma {:induction false} RunKeepsInv(c: Client, es: seq<Event>)
    requires c.Valid() && Run(es).got <= c.Stream()
    ensures Inv(c, Run(es))
  {
    if es == [] {
      Shape(c, []);
    } else {
      var init := es[..|es| - 1];
      GotGrows(Run(init), es[|es| - 1]);
      RunKeepsInv(c, init);
      EventKeepsInv(c, Run(init), es[|es| - 1]);
    }
  }

  lemma EventKeepsInv(c: Client, l: Link, e: Event)
    requires c.Valid() && l.got <= c.Stream() && Step(l, e).got <= c.Stream() && Inv(c, l)
    ensures Inv(c, Step(l, e))
  {
    if !e.Read? {
      StepGot(l, e);
      StepKeepsInv(c, l, e);
    } else if e.chunk != [] {
      ReadingKeepsGot(Took(l, e.chunk));
      ReadKeepsInv(c, l, e.chunk);
    }
  }

  /** Stream integrity: under every chunking and every timing of authentication, pairing and
      start, a well-behaved client is never closed by the path; nothing of it reaches anyone
      before it is paired; and from the start of forwarding all its opponent has got is
      MATCH_FOUND, READY(1) and exactly the client's frames after JOIN and READY that the match
      lets through. */
  lemma StreamIntegrity(c: Client, es: seq<Event>)
    requires c.Valid() && Run(es).got <= c.Stream()
    ensures var l := Run(es);
            l.stage != AtClosed && (l.stage in {AtFirstFrame, AtAuth, AtQueue} ==> l.sent == []) &&
            (l.stage == AtLobbyReady ==> exists told :: Shown(l, told, []))
    ensures var l := Run(es);
            l.stage == AtForward ==>
              |Parse(l.got).frames| >= 2 && l.rx == Parse(l.got).rest &&
              exists told, x :: Shown(l, told, x) &&
                Parse(x) == Parsed(true, KeepFrames(l.ranked, Parse(l.got).frames[2..]), [])
  {
    RunKeepsInv(c, es);
    var l := Run(es);
    if l.stage == AtForward {
      FramesAfterReady(c, l.got);
      var told, x :| Shown(l, told, x) && Lets(l, x, c.Behind(l.got));
      assert Parse(x) == Parsed(true, KeepFrames(l.ranked, Parse(l.got).frames[2..]), []);
    }
  }

  /** However far it has come, more of its stream does not close it. */
  lemma ReadsOn(c: Client, l: Link, chunk: seq<byte>)
    requires Reached(l) && l.stage != AtClosed && c.Valid() && chunk != [] && l.got + chunk <= c.Stream()
    ensures OnRead(Took(l, chunk)).stage != AtClosed
  {
    var es :| l == Run(es);
    ReadingKeepsGot(Took(l, chunk));
    StepOne(l, Read(chunk));
    StepAppend(Fresh, es, [Read(chunk)]);
    StreamIntegrity(c, es + [Read(chunk)]);
  }

  lemma FramesAfterReady(c: Client, got: seq<byte>)
    requires c.Valid() && got <= c.Stream() && |got| >= |c.J()| + |c.Y()|
    ensures |Parse(got).frames| >= 2
    ensures Parse(got).frames[2..] == Parse(c.Behind(got)).frames
    ensures Parse(got).rest == Parse(c.Behind(got)).rest
  {
    Shape(c, got);
    var t := c.Behind(got);
    UnitHead(c.Y(), t);
    UnitHead(c.J(), c.Y() + t);
    DropTwo(Frame(QUEUE_JOIN, c.join), Frame(READY, c.ready), Parse(t).frames);
  }

  lemma DropTwo(f: Frame, g: Frame, fs: seq<Frame>)
    ensures ([f] + ([g] + fs))[2..] == fs
  {}
}
